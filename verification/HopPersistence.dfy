/** The per-DEX hop files (`src/template_cache.rs`). */
module HopPersistence {
  import opened Options
  import opened Words
  import opened RoutePlan
  import opened TemplateStore
  import StoreRuns

  type Hops = map<HopKey, HopTemplate>

  datatype DexHopFile = DexHopFile(dex: DexKind, templates: map<string, HopTemplate>)

  /** The hop directory: the file of each stem. */
  type Directory = map<string, DexHopFile>

  /** The key a persisted template is loaded under. */
  function KeyOf(t: HopTemplate): HopKey {
    HopKey(t.dex, t.pool, t.inputMint, t.outputMint, t.direction, t.remainingAccountsHash)
  }

  /** Every stored template's fields are those of its key. */
  ghost predicate FieldsMatch(hops: Hops) {
    forall k :: k in hops ==> KeyOf(hops[k]) == k
  }

  /** No string of a key contains the id separator. */
  ghost predicate ColonFree(keys: set<HopKey>) {
    forall k :: k in keys ==> Free(k, ':')
  }

  /** No two hops share both the file and the id. */
  ghost predicate DistinctRows(keys: set<HopKey>) {
    forall j, k :: j in keys && k in keys && FileStem(j.dex) == FileStem(k.dex) && TemplateId(j) == TemplateId(k) ==> j == k
  }

  /** Keys without ':' never do. */
  lemma ColonFreeDistinct(keys: set<HopKey>)
    requires ColonFree(keys)
    ensures DistinctRows(keys)
  {
    forall j, k | j in keys && k in keys && FileStem(j.dex) == FileStem(k.dex) && TemplateId(j) == TemplateId(k)
      ensures j == k
    {
      FileAndIdInjective(j, k);
    }
  }

  // ── Every reachable store ─────────────────────────────────────────────────

  lemma {:induction false} FieldsMatchRecorded(hops: Hops, keys: seq<Option<HopKey>>, slot: Option<u64>)
    requires FieldsMatch(hops)
    ensures FieldsMatch(RecordHops(hops, keys, slot))
  {
    if keys != [] {
      FieldsMatchRecorded(hops, keys[..|keys| - 1], slot);
    }
  }

  /** The hop keys an operation records. */
  function Recorded(op: StoreRuns.Op): set<HopKey> {
    if op.RecordAllHops? then SomeKeys(op.keys) else {}
  }

  function SomeKeys(keys: seq<Option<HopKey>>): set<HopKey> {
    set k | k in keys && k.Some? :: k.value
  }

  lemma RecordedKeys(hops: Hops, keys: seq<Option<HopKey>>, slot: Option<u64>)
    ensures RecordHops(hops, keys, slot).Keys == hops.Keys + SomeKeys(keys)
  {
    RecordedHopsKnown(hops, keys, slot);
    forall k
      ensures k in SomeKeys(keys) <==> Some(k) in keys
    {
      if Some(k) in keys {
        assert Some(k).value in SomeKeys(keys);
      }
    }
  }

  lemma HopsStep(s: Store, op: StoreRuns.Op)
    requires FieldsMatch(s.hops)
    ensures var h := StoreRuns.Apply(s, op).0.hops;
            FieldsMatch(h) && h.Keys == s.hops.Keys + Recorded(op)
  {
    StoreRuns.HopsAfter(s, op);
    if op.RecordAllHops? {
      FieldsMatchRecorded(s.hops, op.keys, op.slot);
      RecordedKeys(s.hops, op.keys, op.slot);
    } else {
      assert s.hops.Keys + {} == s.hops.Keys;
    }
  }

  function AllRecorded(ops: seq<StoreRuns.Op>): set<HopKey> {
    if ops == [] then {} else Recorded(ops[0]) + AllRecorded(ops[1..])
  }

  /** In every run of one process fields keep matching keys, and the keys are exactly the initial and the recorded ones. */
  lemma {:induction false} HopsRun(s: Store, ops: seq<StoreRuns.Op>)
    requires FieldsMatch(s.hops)
    ensures var h := StoreRuns.Exec(s, ops).hops;
            FieldsMatch(h) && h.Keys == s.hops.Keys + AllRecorded(ops)
    decreases |ops|
  {
    if ops != [] {
      HopsStep(s, ops[0]);
      HopsRun(StoreRuns.Apply(s, ops[0]).0, ops[1..]);
    }
  }

  // ── Flushing ──────────────────────────────────────────────────────────────

  ghost predicate HasStem(hops: Hops, stem: string) {
    exists k :: k in hops && FileStem(k.dex) == stem
  }

  /** A row of a file: some hop with that stem and id. */
  ghost predicate IsRow(hops: Hops, stem: string, id: string, t: HopTemplate) {
    exists k :: k in hops && FileStem(k.dex) == stem && TemplateId(k) == id && hops[k] == t
  }

  ghost predicate HasRow(files: Directory, k: HopKey, t: HopTemplate) {
    var stem := FileStem(k.dex);
    stem in files && TemplateId(k) in files[stem].templates && files[stem].templates[TemplateId(k)] == t
  }

  /** `files` are the hops grouped by DEX: one file for each stem, rows for hops only, and, when no two
      hops share a row, a row for each hop. */
  ghost predicate GroupedAs(files: Directory, hops: Hops) {
    && (forall stem :: stem in files <==> HasStem(hops, stem))
    && (forall stem :: stem in files ==> FileStem(files[stem].dex) == stem)
    && (forall stem, id :: stem in files && id in files[stem].templates ==>
          IsRow(hops, stem, id, files[stem].templates[id]))
    && (DistinctRows(hops.Keys) ==> forall k :: k in hops ==> HasRow(files, k, hops[k]))
  }

  /** One hop more: what the loop body does to the files. */
  function AddRow(files: Directory, k: HopKey, t: HopTemplate): Directory {
    var stem := FileStem(k.dex);
    var file := if stem in files then files[stem] else DexHopFile(k.dex, map[]);
    files[stem := file.(templates := file.templates[TemplateId(k) := t])]
  }

  lemma AddRowGroups(files: Directory, before: Hops, after: Hops, k: HopKey, t: HopTemplate)
    requires GroupedAs(files, before) && k !in before && after == before[k := t]
    ensures GroupedAs(AddRow(files, k, t), after)
  {
    AddRowStems(files, before, after, k, t);
    AddRowRows(files, before, after, k, t);
    if DistinctRows(after.Keys) {
      AddRowKeepsRows(files, before, after, k, t);
    }
  }

  lemma AddRowStems(files: Directory, before: Hops, after: Hops, k: HopKey, t: HopTemplate)
    requires GroupedAs(files, before) && k !in before && after == before[k := t]
    ensures var files' := AddRow(files, k, t);
            && (forall s :: s in files' <==> HasStem(after, s))
            && (forall s :: s in files' ==> FileStem(files'[s].dex) == s)
  {
    forall s {
      StemsAfter(before, after, k, t, s);
    }
  }

  lemma AddRowRows(files: Directory, before: Hops, after: Hops, k: HopKey, t: HopTemplate)
    requires GroupedAs(files, before) && k !in before && after == before[k := t]
    ensures var files' := AddRow(files, k, t);
            forall s, id :: s in files' && id in files'[s].templates ==> IsRow(after, s, id, files'[s].templates[id])
  {
    var files' := AddRow(files, k, t);
    forall s, id | s in files' && id in files'[s].templates
      ensures IsRow(after, s, id, files'[s].templates[id])
    {
      if s == FileStem(k.dex) && id == TemplateId(k) {
        assert after[k] == t;
      } else {
        RowKept(before, after, k, t, s, id, files[s].templates[id]);
      }
    }
  }

  lemma AddRowKeepsRows(files: Directory, before: Hops, after: Hops, k: HopKey, t: HopTemplate)
    requires k !in before && after == before[k := t] && DistinctRows(after.Keys)
    requires forall j :: j in before ==> HasRow(files, j, before[j])
    ensures forall j :: j in after ==> HasRow(AddRow(files, k, t), j, after[j])
  {
    forall j | j in after
      ensures HasRow(AddRow(files, k, t), j, after[j])
    {
      assert j in after.Keys && k in after.Keys;
    }
  }

  lemma StemsAfter(before: Hops, after: Hops, k: HopKey, t: HopTemplate, s: string)
    requires after == before[k := t]
    ensures HasStem(after, s) <==> HasStem(before, s) || s == FileStem(k.dex)
  {
    if HasStem(before, s) {
      var j :| j in before && FileStem(j.dex) == s;
      assert j in after;
    }
    if s == FileStem(k.dex) {
      assert k in after;
    }
  }

  lemma RowKept(before: Hops, after: Hops, k: HopKey, t: HopTemplate, s: string, id: string, u: HopTemplate)
    requires after == before[k := t] && k !in before && IsRow(before, s, id, u)
    ensures IsRow(after, s, id, u)
  {
    var j :| j in before && FileStem(j.dex) == s && TemplateId(j) == id && before[j] == u;
    assert j in after && after[j] == u;
  }

  /** The grouping of `flush_to_disk`, over the hops in any order. */
  method GroupHops(hops: Hops) returns (files: Directory)
    ensures GroupedAs(files, hops)
  {
    files := map[];
    var todo := hops.Keys;
    ghost var done: Hops := map[];
    while todo != {}
      invariant todo <= hops.Keys && done == map k | k in hops && k !in todo :: hops[k]
      invariant GroupedAs(files, done)
      decreases |todo|
    {
      var k :| k in todo;
      AddRowGroups(files, done, done[k := hops[k]], k, hops[k]);
      files := AddRow(files, k, hops[k]);
      done := done[k := hops[k]];
      todo := todo - {k};
    }
    assert done == hops;
  }

  /** `flush_to_disk`, hop part: each group's file is written, other files stay. */
  method FlushHops(hops: Hops, dir: Directory) returns (dir': Directory)
    ensures exists files :: GroupedAs(files, hops) && dir' == dir + files
  {
    var files := GroupHops(hops);
    dir' := dir + files;
  }

  // ── Loading ───────────────────────────────────────────────────────────────

  /** Some file has a row with this key and template. */
  ghost predicate OnDisk(dir: Directory, k: HopKey, t: HopTemplate) {
    exists stem, id :: stem in dir && id in dir[stem].templates && dir[stem].templates[id] == t && KeyOf(t) == k
  }

  ghost predicate KeyOnDisk(dir: Directory, k: HopKey) {
    exists t :: OnDisk(dir, k, t)
  }

  /** What loading leaves: keys already known keep their template, every key on disk is known, with a
      template found there. */
  ghost predicate LoadedFrom(r: Hops, hops: Hops, dir: Directory) {
    && (forall k :: k in r <==> k in hops || KeyOnDisk(dir, k))
    && (forall k :: k in hops ==> k in r && r[k] == hops[k])
    && (forall k :: k in r && k !in hops ==> OnDisk(dir, k, r[k]))
  }

  lemma LoadedOne(r: Hops, hops: Hops, done: Directory, done': Directory, k: HopKey, t: HopTemplate)
    requires LoadedFrom(r, hops, done)
    requires forall j, u :: OnDisk(done', j, u) <==> OnDisk(done, j, u) || (j == k && u == t)
    ensures LoadedFrom(if k in r then r else r[k := t], hops, done')
  {
    var r' := if k in r then r else r[k := t];
    forall j
      ensures KeyOnDisk(done', j) <==> KeyOnDisk(done, j) || j == k
    {
      if KeyOnDisk(done, j) {
        var u :| OnDisk(done, j, u);
        assert OnDisk(done', j, u);
      }
      if j == k {
        assert OnDisk(done', k, t);
      }
    }
  }

  /** The rows of one file, in any order. */
  method LoadFile(hops: Hops, ghost hops0: Hops, ghost done: Directory, stem: string, file: DexHopFile) returns (r: Hops)
    requires LoadedFrom(hops, hops0, done) && stem !in done
    ensures LoadedFrom(r, hops0, done[stem := file])
  {
    r := hops;
    var todo := file.templates.Keys;
    ghost var part := file.(templates := map[]);
    assert forall j, u :: OnDisk(done[stem := part], j, u) <==> OnDisk(done, j, u) by {
      SameRows(done, done[stem := part], stem);
    }
    SameDisk(r, hops0, done, done[stem := part]);
    while todo != {}
      invariant todo <= file.templates.Keys
      invariant part == file.(templates := map id | id in file.templates && id !in todo :: file.templates[id])
      invariant LoadedFrom(r, hops0, done[stem := part])
      decreases |todo|
    {
      var id :| id in todo;
      var t := file.templates[id];
      var key := KeyOf(t);
      ghost var part' := part.(templates := part.templates[id := t]);
      assert done[stem := part][stem := part'] == done[stem := part'];
      OneRowMore(done[stem := part], done[stem := part'], stem, id, t);
      LoadedOne(r, hops0, done[stem := part], done[stem := part'], key, t);
      if key !in r {
        r := r[key := t];
      }
      todo := todo - {id};
      part := part';
    }
    assert part.templates == file.templates;
  }

  lemma SameRows(a: Directory, b: Directory, stem: string)
    requires stem !in a && stem in b && b[stem].templates == map[] && b == a[stem := b[stem]]
    ensures forall j, u :: OnDisk(b, j, u) <==> OnDisk(a, j, u)
  {
    forall j, u
      ensures OnDisk(b, j, u) <==> OnDisk(a, j, u)
    {
      if OnDisk(a, j, u) {
        var s, id :| s in a && id in a[s].templates && a[s].templates[id] == u && KeyOf(u) == j;
        assert s in b && id in b[s].templates;
      }
    }
  }

  lemma SameDisk(r: Hops, hops: Hops, a: Directory, b: Directory)
    requires LoadedFrom(r, hops, a) && forall j, u :: OnDisk(b, j, u) <==> OnDisk(a, j, u)
    ensures LoadedFrom(r, hops, b)
  {
    assert forall k :: KeyOnDisk(a, k) <==> KeyOnDisk(b, k);
  }

  lemma OneRowMore(a: Directory, b: Directory, stem: string, id: string, t: HopTemplate)
    requires stem in a && id !in a[stem].templates
    requires b == a[stem := a[stem].(templates := a[stem].templates[id := t])]
    ensures forall j, u :: OnDisk(b, j, u) <==> OnDisk(a, j, u) || (j == KeyOf(t) && u == t)
  {
    forall j, u
      ensures OnDisk(b, j, u) <==> OnDisk(a, j, u) || (j == KeyOf(t) && u == t)
    {
      if OnDisk(a, j, u) {
        var s, i :| s in a && i in a[s].templates && a[s].templates[i] == u && KeyOf(u) == j;
        assert s in b && i in b[s].templates && b[s].templates[i] == u;
      }
      if OnDisk(b, j, u) {
        var s, i :| s in b && i in b[s].templates && b[s].templates[i] == u && KeyOf(u) == j;
        if !(s == stem && i == id) {
          assert s in a && i in a[s].templates && a[s].templates[i] == u;
        }
      }
      assert stem in b && id in b[stem].templates && b[stem].templates[id] == t;
    }
  }

  /** `load_from_disk`: the files in any order, the rows of each in any order. */
  method LoadHops(hops: Hops, dir: Directory) returns (r: Hops)
    ensures LoadedFrom(r, hops, dir)
  {
    r := hops;
    var todo := dir.Keys;
    ghost var done: Directory := map[];
    while todo != {}
      invariant todo <= dir.Keys && done == map s | s in dir && s !in todo :: dir[s]
      invariant LoadedFrom(r, hops, done)
      decreases |todo|
    {
      var stem :| stem in todo;
      r := LoadFile(r, hops, done, stem, dir[stem]);
      done := done[stem := dir[stem]];
      todo := todo - {stem};
    }
    assert done == dir;
  }

  // ── Round trip ────────────────────────────────────────────────────────────

  lemma RowsAreTheHops(hops: Hops, files: Directory, k: HopKey, t: HopTemplate)
    requires FieldsMatch(hops) && DistinctRows(hops.Keys) && GroupedAs(files, hops)
    ensures OnDisk(files, k, t) <==> k in hops && hops[k] == t
  {
    if OnDisk(files, k, t) {
      var stem, id :| stem in files && id in files[stem].templates && files[stem].templates[id] == t && KeyOf(t) == k;
      assert IsRow(hops, stem, id, t);
    }
    if k in hops && hops[k] == t {
      assert HasRow(files, k, t);
    }
  }

  /** Round trip: flushing the hops over any directory whose files all belong to DEXes they contain, and
      loading it into a new process in any file and row order, restores exactly the same hop map. */
  lemma HopRoundTrip(hops: Hops, dir: Directory, files: Directory, r: Hops)
    requires FieldsMatch(hops) && DistinctRows(hops.Keys) && GroupedAs(files, hops)
    requires forall stem :: stem in dir ==> HasStem(hops, stem)
    requires LoadedFrom(r, map[], dir + files)
    ensures r == hops
  {
    Covered(dir, files);
    HopReload(hops, files, r);
  }

  lemma Covered(dir: Directory, files: Directory)
    requires dir.Keys <= files.Keys
    ensures dir + files == files
  {
  }

  lemma HopReload(hops: Hops, files: Directory, r: Hops)
    requires FieldsMatch(hops) && DistinctRows(hops.Keys) && GroupedAs(files, hops)
    requires LoadedFrom(r, map[], files)
    ensures r == hops
  {
    forall k, t
      ensures OnDisk(files, k, t) <==> k in hops && hops[k] == t
    {
      RowsAreTheHops(hops, files, k, t);
    }
    LoadedRows(hops, files, r);
  }

  /** Loading files whose rows are exactly the hops gives the hops. */
  lemma LoadedRows(hops: Hops, files: Directory, r: Hops)
    requires forall k, t :: OnDisk(files, k, t) <==> k in hops && hops[k] == t
    requires LoadedFrom(r, map[], files)
    ensures r == hops
  {
    forall k
      ensures k in r <==> k in hops
      ensures k in r ==> r[k] == hops[k]
    {
      if k in r {
        assert OnDisk(files, k, r[k]);
      }
      if k in hops {
        assert OnDisk(files, k, hops[k]) && KeyOnDisk(files, k);
      }
    }
  }

  /** The hop of a row on disk, and where its row stands. */
  lemma OwnRow(hops: Hops, files: Directory, k: HopKey)
    requires FieldsMatch(hops) && GroupedAs(files, hops) && k in hops && OnDisk(files, k, hops[k])
    ensures HasRow(files, k, hops[k])
  {
    var stem, id :| stem in files && id in files[stem].templates && files[stem].templates[id] == hops[k] && KeyOf(hops[k]) == k;
    assert IsRow(hops, stem, id, hops[k]);
    var j :| j in hops && FileStem(j.dex) == stem && TemplateId(j) == id && hops[j] == hops[k];
    assert KeyOf(hops[j]) == j && KeyOf(hops[k]) == k;
  }

  /** Exactly: loading the files of a flush restores the hop map if and only if no two hops share a row. */
  lemma HopReloadExact(hops: Hops, files: Directory, r: Hops)
    requires FieldsMatch(hops) && GroupedAs(files, hops) && LoadedFrom(r, map[], files)
    ensures r == hops <==> DistinctRows(hops.Keys)
  {
    if DistinctRows(hops.Keys) {
      HopReload(hops, files, r);
    }
    if r == hops {
      forall j, k | j in hops.Keys && k in hops.Keys && FileStem(j.dex) == FileStem(k.dex) && TemplateId(j) == TemplateId(k)
        ensures j == k
      {
        OwnRow(hops, files, j);
        OwnRow(hops, files, k);
        assert hops[j] == hops[k] && KeyOf(hops[j]) == j && KeyOf(hops[k]) == k;
      }
    }
  }

  /** A directory loaded at startup stays covered: each of its files belongs to a DEX the run still has. */
  lemma LoadedFilesCovered(dir: Directory, hops0: Hops, r: Hops, files: Directory, later: Hops)
    requires GroupedAs(dir, hops0) && LoadedFrom(r, map[], dir) && r.Keys <= later.Keys
    requires FieldsMatch(hops0) && DistinctRows(hops0.Keys)
    ensures forall stem :: stem in dir ==> HasStem(later, stem)
  {
    forall stem | stem in dir
      ensures HasStem(later, stem)
    {
      assert HasStem(hops0, stem);
      var k :| k in hops0 && FileStem(k.dex) == stem;
      RowsAreTheHops(hops0, dir, k, hops0[k]);
      assert k in r.Keys;
    }
  }

  // ── Runs over several processes ───────────────────────────────────────────

  /** The hops in RAM, the directory, and the hops of the last flush, none before the first. */
  datatype HopWorld = HopWorld(hops: Hops, dir: Directory, saved: Hops)

  datatype HopOp =
    | Record(keys: seq<Option<HopKey>>, slot: Option<u64>)
    | Flush(files: Directory) // the groups written, rows of one id in any order
    | Restart(loaded: Hops)   // a new process, having loaded the files in any order

  ghost predicate HopCan(w: HopWorld, op: HopOp) {
    match op
    case Record(_, _) => true
    case Flush(files) => GroupedAs(files, w.hops)
    case Restart(r) => LoadedFrom(r, map[], w.dir)
  }

  function HopAfter(w: HopWorld, op: HopOp): HopWorld {
    match op
    case Record(keys, slot) => w.(hops := RecordHops(w.hops, keys, slot))
    case Flush(files) => HopWorld(w.hops, w.dir + files, w.hops)
    case Restart(r) => w.(hops := r)
  }

  ghost predicate HopRun(w: HopWorld, ops: seq<HopOp>, e: HopWorld)
    decreases |ops|
  {
    if ops == [] then w == e else HopCan(w, ops[0]) && HopRun(HopAfter(w, ops[0]), ops[1..], e)
  }

  function RecordedBy(ops: seq<HopOp>): set<HopKey> {
    if ops == [] then {}
    else (if ops[0].Record? then SomeKeys(ops[0].keys) else {}) + RecordedBy(ops[1..])
  }

  /** Loading never breaks the match of fields and keys, whatever the files hold. */
  lemma LoadKeepsFields(hops: Hops, dir: Directory, r: Hops)
    requires FieldsMatch(hops) && LoadedFrom(r, hops, dir)
    ensures FieldsMatch(r)
  {
  }

  /** In every reachable state of every process fields match keys, whatever the ids. */
  lemma {:induction false} FieldsAlwaysMatch(w: HopWorld, ops: seq<HopOp>, e: HopWorld)
    requires FieldsMatch(w.hops) && HopRun(w, ops, e)
    ensures FieldsMatch(e.hops)
    decreases |ops|
  {
    if ops != [] {
      match ops[0] {
        case Record(keys, slot) => FieldsMatchRecorded(w.hops, keys, slot);
        case Flush(_) =>
        case Restart(r) => LoadKeepsFields(map[], w.dir, r);
      }
      FieldsAlwaysMatch(HopAfter(w, ops[0]), ops[1..], e);
    }
  }

  /** Fields match keys, all keys are among `all`, and the directory holds exactly the saved hops, none
      of which has been forgotten. */
  ghost predicate HopsKept(w: HopWorld, all: set<HopKey>) {
    && FieldsMatch(w.hops) && w.hops.Keys <= all
    && FieldsMatch(w.saved) && w.saved.Keys <= w.hops.Keys && GroupedAs(w.dir, w.saved)
  }

  lemma FlushKept(w: HopWorld, files: Directory, all: set<HopKey>)
    requires HopsKept(w, all) && GroupedAs(files, w.hops)
    ensures w.dir + files == files && HopsKept(HopWorld(w.hops, files, w.hops), all)
  {
    forall stem | stem in w.dir
      ensures stem in files
    {
      assert HasStem(w.saved, stem);
      var k :| k in w.saved && FileStem(k.dex) == stem;
      assert k in w.hops.Keys;
    }
    Covered(w.dir, files);
  }

  lemma RestartKept(w: HopWorld, r: Hops, all: set<HopKey>)
    requires HopsKept(w, all) && DistinctRows(all) && LoadedFrom(r, map[], w.dir)
    ensures r == w.saved
  {
    HopReload(w.saved, w.dir, r);
  }

  lemma RecordKept(w: HopWorld, keys: seq<Option<HopKey>>, slot: Option<u64>, all: set<HopKey>)
    requires HopsKept(w, all) && SomeKeys(keys) <= all
    ensures HopsKept(w.(hops := RecordHops(w.hops, keys, slot)), all)
  {
    FieldsMatchRecorded(w.hops, keys, slot);
    RecordedKeys(w.hops, keys, slot);
  }

  lemma HopsKeptStep(w: HopWorld, op: HopOp, all: set<HopKey>)
    requires HopsKept(w, all) && DistinctRows(all) && HopCan(w, op)
    requires op.Record? ==> SomeKeys(op.keys) <= all
    ensures HopsKept(HopAfter(w, op), all)
    ensures op.Restart? ==> op.loaded == w.saved
  {
    match op
    case Record(keys, slot) => RecordKept(w, keys, slot, all);
    case Flush(files) => FlushKept(w, files, all);
    case Restart(r) => RestartKept(w, r, all);
  }

  lemma {:induction false} HopsKeptRun(w: HopWorld, ops: seq<HopOp>, e: HopWorld, all: set<HopKey>)
    requires HopsKept(w, all) && DistinctRows(all) && RecordedBy(ops) <= all && HopRun(w, ops, e)
    ensures HopsKept(e, all)
    decreases |ops|
  {
    if ops != [] {
      HopsKeptStep(w, ops[0], all);
      HopsKeptRun(HopAfter(w, ops[0]), ops[1..], e, all);
    }
  }

  /** Over any run of recording, flushes and restarts of hops that share no rows: fields keep matching
      keys, and every restart loads exactly the hops of the last flush. */
  lemma EveryRestartRestores(ops: seq<HopOp>, e: HopWorld, r: Hops)
    requires HopRun(HopWorld(map[], map[], map[]), ops, e) && DistinctRows(RecordedBy(ops))
    requires HopCan(e, Restart(r))
    ensures FieldsMatch(e.hops) && r == e.saved
  {
    var new0 := HopWorld(map[], map[], map[]);
    assert GroupedAs(new0.dir, new0.saved);
    HopsKeptRun(new0, ops, e, RecordedBy(ops));
    RestartKept(e, r, RecordedBy(ops));
  }
}
