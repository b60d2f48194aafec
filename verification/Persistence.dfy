/** Listing the values of a map in the arbitrary order of a hash map. */
module Listing {
  ghost predicate IsImage<K, V, R>(r: R, m: map<K, V>, f: V -> R) {
    exists k :: k in m && f(m[k]) == r
  }

  /** One image for each value of `m`, in some order. */
  ghost predicate Lists<K, V, R>(rs: seq<R>, m: map<K, V>, f: V -> R) {
    && |rs| == |m|
    && (forall i :: 0 <= i < |rs| ==> IsImage(rs[i], m, f))
    && (forall k :: k in m ==> f(m[k]) in rs)
  }

  method List<K, V, R>(m: map<K, V>, f: V -> R) returns (rs: seq<R>)
    ensures Lists(rs, m, f)
  {
    rs := [];
    var todo := m.Keys;
    while todo != {}
      invariant todo <= m.Keys && |rs| + |todo| == |m.Keys|
      invariant forall i :: 0 <= i < |rs| ==> IsImage(rs[i], m, f)
      invariant forall k :: k in m && k !in todo ==> f(m[k]) in rs
      decreases |todo|
    {
      var k :| k in todo;
      assert IsImage(f(m[k]), m, f);
      rs := rs + [f(m[k])];
      todo := todo - {k};
    }
  }

  /** The listings of two disjoint maps, one after the other. */
  lemma ListsBoth<K, V, R>(a: seq<R>, m: map<K, V>, b: seq<R>, n: map<K, V>, f: V -> R)
    requires Lists(a, m, f) && Lists(b, n, f) && m.Keys !! n.Keys
    ensures Lists(a + b, n + m, f)
  {
    var both := n + m;
    assert both.Keys == m.Keys + n.Keys;
    assert |both| == |both.Keys| && |m| == |m.Keys| && |n| == |n.Keys|;
    forall i | 0 <= i < |a + b|
      ensures IsImage((a + b)[i], both, f)
    {
      if i < |a| {
        ImageWithin(a[i], m, both, f);
      } else {
        ImageWithin(b[i - |a|], n, both, f);
      }
    }
  }

  lemma ListsOneMore<K, V, R>(l: seq<R>, m: map<K, V>, k: K, f: V -> R)
    requires k in m && Lists(l, m - {k}, f)
    ensures Lists(l + [f(m[k])], m, f)
  {
    var rest, rs := m - {k}, l + [f(m[k])];
    assert rest.Keys == m.Keys - {k} && |rest| == |rest.Keys| && |m| == |m.Keys|;
    assert rs[|l|] == f(m[k]) && forall r :: r in l ==> r in rs;
    forall i | 0 <= i < |rs|
      ensures IsImage(rs[i], m, f)
    {
      if i < |l| {
        ImageWithin(l[i], rest, m, f);
      }
    }
    forall j | j in m
      ensures f(m[j]) in rs
    {
      assert j != k ==> j in rest;
    }
  }

  lemma ImageWithin<K, V, R>(r: R, m: map<K, V>, larger: map<K, V>, f: V -> R)
    requires IsImage(r, m, f) && forall k :: k in m ==> k in larger && larger[k] == m[k]
    ensures IsImage(r, larger, f)
  {
    var k :| k in m && f(m[k]) == r;
    assert k in larger;
  }
}

/** The route file: flushing the store and loading it in a new process (`src/template_cache.rs`). */
module Persistence {
  import opened Options
  import opened Words
  import opened TemplateStore
  import opened StoreRuns
  import opened Listing
  import Decimal

  /** One persisted route: everything but the per-amount instructions, the signature as decimal text. */
  datatype RouteRecord = RouteRecord(
    sig: string, swapIxs: SwapInstructions,
    templateIn: u64, templateOut: u64,
    inOffset: Option<nat>, outOffset: Option<nat>,
    seen: nat, hits: nat)

  datatype RouteFile = RouteFile(routes: seq<RouteRecord>, hopPairs: map<string, string>)

  /** `RouteRecord::from_template` */
  function FromTemplate(t: RouteTemplate): RouteRecord {
    RouteRecord(Decimal.Print(t.routeSignature), t.swapIxs, t.templateIn, t.templateOut,
                t.inOffset, t.outOffset, t.seen, t.hits)
  }

  function ToTemplate(sig: u128, r: RouteRecord): RouteTemplate {
    RouteTemplate(sig, r.swapIxs, r.templateIn, r.templateOut, r.inOffset, r.outOffset, map[], r.seen, r.hits)
  }

  ghost function ParseSig(s: string): (r: Option<u128>)
    ensures r.Some? ==> Decimal.Parse(s, TWO128) == r
    ensures r.None? ==> Decimal.Parse(s, TWO128) == None
  {
    match Decimal.Parse(s, TWO128)
    case None => None
    case Some(n) => Some(n)
  }

  /** Printing and parsing a signature, and a template without its variants. */
  lemma RecordRoundTrip(t: RouteTemplate)
    ensures ParseSig(FromTemplate(t).sig) == Some(t.routeSignature)
    ensures ToTemplate(t.routeSignature, FromTemplate(t)) == t.(variants := map[])
  {
    Decimal.ParseOfPrint(t.routeSignature, TWO128);
  }

  // ── Flushing ──────────────────────────────────────────────────────────────

  /** The live templates by signature. */
  function Routes(s: Store): map<u128, RouteTemplate> {
    s.cold + s.hot
  }

  /** `file` holds exactly the live routes of `s`, one record each in some order, and its pair index. */
  ghost predicate FlushOf(file: RouteFile, s: Store) {
    Lists(file.routes, Routes(s), FromTemplate) && file.hopPairs == PrintedPairs(s.index)
  }

  function PrintedPairs(index: map<string, u128>): map<string, string> {
    map k | k in index :: Decimal.Print(index[k])
  }

  /** `flush_routes_to_disk`, up to the writing of the file. */
  method FlushRoutes(store: TemplateStore) returns (file: RouteFile)
    requires Structural(store.State())
    ensures FlushOf(file, store.State())
  {
    var hot := List(store.hot, FromTemplate);
    var cold := List(store.cold, FromTemplate);
    ListsBoth(hot, store.hot, cold, store.cold, FromTemplate);
    file := RouteFile(hot + cold, PrintedPairs(store.index));
  }

  // ── Loading ───────────────────────────────────────────────────────────────

  /** One record of the file: skipped when its signature does not parse or is already loaded. */
  ghost function LoadRecord(s: Store, r: RouteRecord): Store {
    match ParseSig(r.sig)
    case None => s
    case Some(sig) =>
      if sig in s.hot || sig in s.cold then s else s.(hot := s.hot[sig := ToTemplate(sig, r)])
  }

  ghost function LoadRecords(s: Store, rs: seq<RouteRecord>): Store {
    if rs == [] then s else LoadRecord(LoadRecords(s, rs[..|rs| - 1]), rs[|rs| - 1])
  }

  /** The index with the entries of the file that parse and are not bound yet. */
  ghost function LoadPairs(index: map<string, u128>, pairs: map<string, string>): map<string, u128> {
    map k | k in index.Keys + pairs.Keys && (k in index || ParseSig(pairs[k]).Some?)
      :: if k in index then index[k] else ParseSig(pairs[k]).value
  }

  ghost function LoadRoutes(s: Store, file: RouteFile): Store {
    var r := LoadRecords(s, file.routes);
    r.(index := LoadPairs(r.index, file.hopPairs))
  }

  /** What a new process holds after loading a flush of the routes `m`: the same ones without their
      per-amount instructions. */
  function Reloaded(m: map<u128, RouteTemplate>): map<u128, RouteTemplate> {
    map k | k in m :: m[k].(variants := map[])
  }

  lemma LoadRecordOf(m: map<u128, RouteTemplate>, s: Store, k: u128)
    requires OwnKeys(m) && k in m
    ensures LoadRecord(s, FromTemplate(m[k]))
            == if k in s.hot || k in s.cold then s else s.(hot := s.hot[k := m[k].(variants := map[])])
  {
    RecordRoundTrip(m[k]);
  }

  /** `r` holds routes of `m`, as reloaded, among them those with a record in `rs`. */
  ghost predicate LoadedFrom(r: map<u128, RouteTemplate>, m: map<u128, RouteTemplate>, rs: seq<RouteRecord>) {
    && (forall k :: k in r ==> k in m && r[k] == m[k].(variants := map[]))
    && (forall k :: k in m && FromTemplate(m[k]) in rs ==> k in r)
  }

  /** Loading any records of `m` into an empty store: each record's route, and no other. */
  lemma {:induction false} LoadRecordsOf(cap: Cap, m: map<u128, RouteTemplate>, rs: seq<RouteRecord>)
    requires OwnKeys(m) && forall i :: 0 <= i < |rs| ==> IsImage(rs[i], m, FromTemplate)
    ensures var r := LoadRecords(EmptyStore(cap), rs);
            r == EmptyStore(cap).(hot := r.hot) && LoadedFrom(r.hot, m, rs)
  {
    if rs != [] {
      var n := |rs| - 1;
      LoadRecordsOf(cap, m, rs[..n]);
      assert IsImage(rs[n], m, FromTemplate);
      var j :| j in m && FromTemplate(m[j]) == rs[n];
      var before := LoadRecords(EmptyStore(cap), rs[..n]);
      LoadRecordOf(m, before, j);
      LoadedOneMore(m, before.hot, rs, j);
    }
  }

  lemma LoadedOneMore(m: map<u128, RouteTemplate>, r: map<u128, RouteTemplate>, rs: seq<RouteRecord>, j: u128)
    requires OwnKeys(m) && rs != [] && j in m && FromTemplate(m[j]) == rs[|rs| - 1]
    requires LoadedFrom(r, m, rs[..|rs| - 1])
    ensures LoadedFrom(if j in r then r else r[j := m[j].(variants := map[])], m, rs)
  {
    var n := |rs| - 1;
    forall k | k in m && FromTemplate(m[k]) in rs
      ensures k == j || FromTemplate(m[k]) in rs[..n]
    {
      SameRecord(m, j, k);
      assert rs == rs[..n] + [rs[n]];
    }
  }

  lemma SameRecord(m: map<u128, RouteTemplate>, j: u128, k: u128)
    requires OwnKeys(m) && j in m && k in m
    ensures FromTemplate(m[j]) == FromTemplate(m[k]) ==> j == k
  {
    RecordRoundTrip(m[j]);
    RecordRoundTrip(m[k]);
  }

  lemma ReloadedExactly(m: map<u128, RouteTemplate>, r: map<u128, RouteTemplate>)
    requires forall k :: k in r ==> k in m && r[k] == m[k].(variants := map[])
    requires forall k :: k in m ==> k in r
    ensures r == Reloaded(m)
  {
  }

  lemma PairsRoundTrip(index: map<string, u128>)
    ensures LoadPairs(map[], PrintedPairs(index)) == index
  {
    var pairs := PrintedPairs(index);
    forall k | k in index
      ensures ParseSig(pairs[k]) == Some(index[k])
    {
      Decimal.ParseOfPrint(index[k], TWO128);
    }
    var r := LoadPairs(map[], pairs);
    assert forall k :: k in r <==> k in index;
    assert forall k :: k in r ==> r[k] == index[k];
  }

  /** Round trip: whatever the order of the records, loading a flush of a structured store into a new
      one gives back every route with only its per-amount instructions dropped, and an equal index. */
  lemma RouteRoundTrip(s: Store, file: RouteFile)
    requires Structural(s) && FlushOf(file, s)
    ensures LoadRoutes(EmptyStore(s.cap), file) == EmptyStore(s.cap).(hot := Reloaded(Routes(s)), index := s.index)
  {
    OwnRoutes(s);
    LoadRecordsOf(s.cap, Routes(s), file.routes);
    PairsRoundTrip(s.index);
    ReloadedExactly(Routes(s), LoadRecords(EmptyStore(s.cap), file.routes).hot);
  }

  lemma OwnRoutes(s: Store)
    requires Structural(s)
    ensures OwnKeys(Routes(s)) && Routes(s).Keys == Live(s)
  {
  }

  // ── The loading loops ─────────────────────────────────────────────────────

  method ParseSignature(text: string) returns (sig: Option<u128>)
    ensures sig == ParseSig(text)
  {
    var digits := if text != "" && text[0] == '+' then text[1..] else text;
    if digits == "" {
      return None;
    }
    var value: nat := 0;
    for i := 0 to |digits|
      invariant Decimal.AllDigits(digits[..i]) && value == Decimal.Value(digits[..i]) < TWO128
    {
      assert digits[..i + 1][..i] == digits[..i];
      if !Decimal.IsDigit(digits[i]) {
        return None;
      }
      value := 10 * value + (digits[i] as int - '0' as int);
      if value >= TWO128 {
        ghost var rest := digits[i + 1..];
        ValueGrows(digits, i + 1);
        return None;
      }
    }
    assert digits[..|digits|] == digits;
    sig := Some(value);
  }

  /** More digits never make the number smaller: overflow may be reported as soon as it is seen. */
  lemma {:induction false} ValueGrows(digits: string, n: nat)
    requires n <= |digits| && Decimal.AllDigits(digits[..n])
    ensures Decimal.AllDigits(digits) ==> Decimal.Value(digits[..n]) <= Decimal.Value(digits)
    decreases |digits|
  {
    if n == |digits| {
      assert digits[..n] == digits;
    } else if Decimal.AllDigits(digits) {
      var shorter := digits[..|digits| - 1];
      assert shorter[..n] == digits[..n];
      ValueGrows(shorter, n);
    }
  }

  /** `load_routes_from_disk`, from the parsed file. */
  method LoadRoutesFromDisk(store: TemplateStore, file: RouteFile) returns (count: nat)
    modifies store
    ensures store.State() == LoadRoutes(old(store.State()), file)
    ensures count == |store.hot| - |old(store.hot)|
  {
    count := 0;
    ghost var s0 := store.State();
    for n := 0 to |file.routes|
      invariant store.State() == LoadRecords(s0, file.routes[..n])
      invariant count == |store.hot| - |s0.hot|
    {
      assert file.routes[..n + 1][..n] == file.routes[..n];
      var isNew := LoadOne(store, file.routes[n]);
      if isNew {
        count := count + 1;
      }
    }
    assert file.routes[..|file.routes|] == file.routes;
    store.index := MergePairs(store.index, file.hopPairs);
  }

  /** One record: skipped when its signature does not parse or is already loaded. */
  method LoadOne(store: TemplateStore, rec: RouteRecord) returns (isNew: bool)
    modifies store
    ensures store.State() == LoadRecord(old(store.State()), rec)
    ensures |store.hot| == |old(store.hot)| + if isNew then 1 else 0
  {
    var sig := ParseSignature(rec.sig);
    isNew := sig.Some? && sig.value !in store.hot && sig.value !in store.cold;
    if isNew {
      store.hot := store.hot[sig.value := ToTemplate(sig.value, rec)];
    }
  }

  method MergePairs(index: map<string, u128>, pairs: map<string, string>) returns (r: map<string, u128>)
    ensures r == LoadPairs(index, pairs)
  {
    r := index;
    var todo := pairs.Keys;
    while todo != {}
      invariant todo <= pairs.Keys
      invariant forall k :: k in r <==> k in index || (k in pairs && k !in todo && ParseSig(pairs[k]).Some?)
      invariant forall k :: k in r ==> r[k] == if k in index then index[k] else ParseSig(pairs[k]).value
      decreases |todo|
    {
      var k :| k in todo;
      var sig := ParseSignature(pairs[k]);
      if sig.Some? && k !in r {
        r := r[k := sig.value];
      }
      todo := todo - {k};
    }
  }
}
