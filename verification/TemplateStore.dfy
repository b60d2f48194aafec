/** The two-generation route cache (`src/template_cache.rs`). */
module TemplateStore {
  import opened Options
  import opened Words
  import opened RoutePlan
  import Amounts

  // ── Instructions ──────────────────────────────────────────────────────────

  /** The data string of an instruction: base64 of some bytes, or text that does not decode. */
  datatype Base64 = Encodes(bytes: seq<byte>) | Malformed(text: string)

  datatype AccountMeta = AccountMeta(pubkey: string, isSigner: bool, isWritable: bool)

  datatype Instruction = Instruction(programId: string, accounts: seq<AccountMeta>, data: Base64)

  datatype SwapInstructions = SwapInstructions(
    computeBudget: seq<Instruction>, setup: seq<Instruction>, swap: Instruction,
    cleanup: Option<Instruction>, lookupTables: seq<string>)

  // ── Templates ─────────────────────────────────────────────────────────────

  datatype RouteTemplate = RouteTemplate(
    routeSignature: u128, swapIxs: SwapInstructions,
    templateIn: u64, templateOut: u64,
    inOffset: Option<nat>, outOffset: Option<nat>,
    variants: map<u64, SwapInstructions>,
    seen: nat, hits: nat)

  datatype HopTemplate = HopTemplate(
    dex: DexKind, pool: string, inputMint: string, outputMint: string,
    direction: Direction, remainingAccountsHash: u64,
    seen: nat, firstSeenSlot: Option<u64>, lastSeenSlot: Option<u64>)

  /** The instructions with the amounts at the two offsets replaced, where they can be. */
  function PatchIxs(ixs: SwapInstructions, inOff: nat, outOff: nat, newIn: u64, newOut: u64): Option<SwapInstructions> {
    match ixs.swap.data
    case Malformed(_) => None
    case Encodes(bytes) =>
      match Amounts.Patched(bytes, inOff, outOff, newIn, newOut)
      case None => None
      case Some(data) => Some(ixs.(swap := ixs.swap.(data := Encodes(data))))
  }

  /** `serve_route`: the cached instruction for the amount, else the patched base instruction. The
      requested quoted-out amount is ignored. */
  function ServeRoute(t: RouteTemplate, newIn: u64, newOut: u64): Option<SwapInstructions> {
    if newIn in t.variants then Some(t.variants[newIn])
    else match (t.inOffset, t.outOffset)
      case (Some(i), Some(o)) =>
        var gap := Wrap64(t.templateOut - t.templateIn);
        PatchIxs(t.swapIxs, i, o, newIn, Wrap64(newIn + gap))
      case _ => None
  }

  // ── The store as a value ──────────────────────────────────────────────────

  /** `ROUTE_SEG_CAP`, at least one. */
  type Cap = n: nat | n >= 1 witness 1

  datatype Store = Store(
    cap: Cap,
    hot: map<u128, RouteTemplate>, cold: map<u128, RouteTemplate>,
    hops: map<HopKey, HopTemplate>, index: map<string, u128>)

  function EmptyStore(cap: Cap): Store {
    Store(cap, map[], map[], map[], map[])
  }

  /** `push_hot_route`: a full hot generation becomes the cold one. */
  function PushHot(s: Store, sig: u128, t: RouteTemplate): Store {
    if |s.hot| >= s.cap then s.(cold := s.hot, hot := map[sig := t])
    else s.(hot := s.hot[sig := t])
  }

  /** The cold template a lookup promotes, its hit counted. */
  function Promoted(s: Store, sig: u128): RouteTemplate
    requires sig in s.cold
  {
    s.cold[sig].(hits := s.cold[sig].hits + 1)
  }

  /** `get_route` as one step. */
  function Get(s: Store, sig: u128): (Store, Option<RouteTemplate>) {
    if sig in s.hot then (s, Some(s.hot[sig]))
    else if sig in s.cold then
      (PushHot(s.(cold := s.cold - {sig}), sig, Promoted(s, sig)), Some(Promoted(s, sig)))
    else (s, None)
  }

  /** The read-locked section of `get_route`: an answer, or nothing when the write section must run. */
  function ReadSection(s: Store, sig: u128): Option<Option<RouteTemplate>> {
    if sig in s.hot then Some(Some(s.hot[sig])) else if sig !in s.cold then Some(None) else None
  }

  /** The write-locked section of `get_route`: it looks in the cold generation first. */
  function WriteSection(s: Store, sig: u128): (Store, Option<RouteTemplate>) {
    if sig in s.cold then
      (PushHot(s.(cold := s.cold - {sig}), sig, Promoted(s, sig)), Some(Promoted(s, sig)))
    else (s, if sig in s.hot then Some(s.hot[sig]) else None)
  }

  /** `record_route_hit` */
  function RecordHit(s: Store, sig: u128): Store {
    if sig in s.hot then s.(hot := s.hot[sig := s.hot[sig].(hits := s.hot[sig].hits + 1)])
    else if sig in s.cold then s.(cold := s.cold[sig := s.cold[sig].(hits := s.cold[sig].hits + 1)])
    else s
  }

  /** A known route seen again: its count, and its instruction if the amount is new. */
  function SeenAgain(t: RouteTemplate, inAmount: u64, ixs: SwapInstructions): RouteTemplate {
    t.(seen := t.seen + 1,
       variants := if inAmount in t.variants then t.variants else t.variants[inAmount := ixs])
  }

  ghost function Offset(ixs: SwapInstructions, inAmount: u64, quotedOut: u64): Option<nat> {
    match ixs.swap.data
    case Malformed(_) => None
    case Encodes(bytes) => Amounts.Discovered(bytes, inAmount, quotedOut)
  }

  ghost function NewTemplate(sig: u128, ixs: SwapInstructions, inAmount: u64, quotedOut: u64): RouteTemplate {
    var at := Offset(ixs, inAmount, quotedOut);
    RouteTemplate(sig, ixs, inAmount, quotedOut,
                  at, if at.Some? then Some(at.value + 8) else None,
                  map[inAmount := ixs], 1, 0)
  }

  /** The hop-pair entry of a route with a pair key, bound once. */
  function Indexed(s: Store, sig: u128, pairKey: Option<string>): Store {
    if pairKey.Some? && pairKey.value !in s.index then s.(index := s.index[pairKey.value := sig]) else s
  }

  /** `insert_route`, of the template built for the request and the pair key of its plan: kept when the
      route is new, otherwise only its amount and instruction are remembered. */
  function Insert(s: Store, built: RouteTemplate, pairKey: Option<string>): Store {
    var sig := built.routeSignature;
    if sig in s.hot then s.(hot := s.hot[sig := SeenAgain(s.hot[sig], built.templateIn, built.swapIxs)])
    else if sig in s.cold then s.(cold := s.cold[sig := SeenAgain(s.cold[sig], built.templateIn, built.swapIxs)])
    else Indexed(PushHot(s, sig, built), sig, pairKey)
  }

  /** `get_route_for_hops` as one step, of the pair key of the plan. */
  function GetForHops(s: Store, pairKey: Option<string>): (Store, Option<RouteTemplate>) {
    if pairKey.Some? && pairKey.value in s.index then Get(s, s.index[pairKey.value]) else (s, None)
  }

  function NewHop(k: HopKey, slot: Option<u64>): HopTemplate {
    HopTemplate(k.dex, k.pool, k.inputMint, k.outputMint, k.direction, k.remainingAccountsHash, 0, slot, slot)
  }

  function RecordHop(hops: map<HopKey, HopTemplate>, k: HopKey, slot: Option<u64>): map<HopKey, HopTemplate> {
    var t := if k in hops then hops[k] else NewHop(k, slot);
    hops[k := t.(seen := t.seen + 1, lastSeenSlot := slot)]
  }

  /** The hop keys of a plan, hop by hop. */
  function KeysOf(plan: Json): seq<Option<HopKey>> {
    if plan.Arr? then seq(|plan.items|, i requires 0 <= i < |plan.items| => HopOf(plan.items[i])) else []
  }

  /** The hop map after recording `keys` in order. */
  function RecordHops(hops: map<HopKey, HopTemplate>, keys: seq<Option<HopKey>>, slot: Option<u64>): map<HopKey, HopTemplate> {
    if keys == [] then hops
    else
      var before := RecordHops(hops, keys[..|keys| - 1], slot);
      match keys[|keys| - 1]
      case None => before
      case Some(k) => RecordHop(before, k, slot)
  }

  /** How often `k` is the key of a hop of the plan. */
  ghost function Occurs(plan: Json, k: HopKey): nat
    requires plan.Arr?
  {
    |set i | 0 <= i < |plan.items| && HopOf(plan.items[i]) == Some(k)|
  }

  /** `after` is `hops` with the plan recorded, at `k`: a hop of the plan has been seen as often more as it
      occurs and was last seen at `slot`; any other template is as before. */
  ghost predicate RecordedAt(hops: map<HopKey, HopTemplate>, plan: Json, slot: Option<u64>, after: map<HopKey, HopTemplate>, k: HopKey)
    requires plan.Arr?
  {
    var t := if k in hops then hops[k]
             else HopTemplate(k.dex, k.pool, k.inputMint, k.outputMint, k.direction, k.remainingAccountsHash, 0, slot, slot);
    if exists i :: 0 <= i < |plan.items| && HopOf(plan.items[i]) == Some(k) then
      k in after && after[k] == t.(seen := t.seen + Occurs(plan, k), lastSeenSlot := slot)
    else (k in after <==> k in hops) && (k in hops ==> after[k] == hops[k])
  }

  ghost predicate Recorded(hops: map<HopKey, HopTemplate>, plan: Json, slot: Option<u64>, after: map<HopKey, HopTemplate>) {
    if plan.Arr? then forall k :: RecordedAt(hops, plan, slot, after, k) else after == hops
  }

  /** How many of `keys` have no recorded hop. */
  function Missing(hops: map<HopKey, HopTemplate>, keys: seq<Option<HopKey>>): nat {
    if keys == [] then 0
    else
      var k := keys[|keys| - 1];
      Missing(hops, keys[..|keys| - 1]) + if k.Some? && k.value in hops then 0 else 1
  }

  // ── The store as the source's object ──────────────────────────────────────

  class TemplateStore {
    const cap: Cap
    var hot: map<u128, RouteTemplate>
    var cold: map<u128, RouteTemplate>
    var hops: map<HopKey, HopTemplate>
    var index: map<string, u128>

    function State(): Store
      reads this
    {
      Store(cap, hot, cold, hops, index)
    }

    constructor (cap: Cap)
      ensures State() == EmptyStore(cap)
    {
      this.cap := cap;
      hot, cold, hops, index := map[], map[], map[], map[];
    }

    method PushHotRoute(sig: u128, t: RouteTemplate)
      modifies this
      ensures State() == PushHot(old(State()), sig, t)
    {
      if |hot| >= cap {
        cold := hot;
        hot := map[];
      }
      hot := hot[sig := t];
    }

    /** The read-locked section of `get_route`. */
    method GetRouteRead(sig: u128) returns (answer: Option<Option<RouteTemplate>>)
      ensures answer == ReadSection(State(), sig)
    {
      if sig in hot {
        return Some(Some(hot[sig]));
      }
      if sig !in cold {
        return Some(None);
      }
      answer := None;
    }

    /** The write-locked section of `get_route`. */
    method GetRouteWrite(sig: u128) returns (r: Option<RouteTemplate>)
      modifies this
      ensures (State(), r) == WriteSection(old(State()), sig)
    {
      if sig in cold {
        var t := cold[sig];
        cold := cold - {sig};
        t := t.(hits := t.hits + 1);
        PushHotRoute(sig, t);
        return Some(t);
      }
      r := if sig in hot then Some(hot[sig]) else None;
    }

    /** `get_route` without interference between its two sections. */
    method GetRoute(sig: u128) returns (r: Option<RouteTemplate>)
      modifies this
      ensures (State(), r) == Get(old(State()), sig)
    {
      var answer := GetRouteRead(sig);
      if answer.Some? {
        return answer.value;
      }
      r := GetRouteWrite(sig);
    }

    method RecordRouteHit(sig: u128)
      modifies this
      ensures State() == RecordHit(old(State()), sig)
    {
      if sig in hot {
        hot := hot[sig := hot[sig].(hits := hot[sig].hits + 1)];
      } else if sig in cold {
        cold := cold[sig := cold[sig].(hits := cold[sig].hits + 1)];
      }
    }

    method InsertRoute(sig: u128, ixs: SwapInstructions, inAmount: u64, quotedOut: u64, plan: Json)
      modifies this
      ensures State() == Insert(old(State()), NewTemplate(sig, ixs, inAmount, quotedOut), PairKeyOf(plan))
    {
      var t := BuildTemplate(sig, ixs, inAmount, quotedOut);
      if sig in hot {
        hot := hot[sig := SeenAgain(hot[sig], inAmount, ixs)];
        return;
      }
      if sig in cold {
        cold := cold[sig := SeenAgain(cold[sig], inAmount, ixs)];
        return;
      }
      PushHotRoute(sig, t);
      IndexPair(sig, PairKeyOf(plan));
    }

    /** The secondary index: bound for two-hop plans, once. */
    method IndexPair(sig: u128, pairKey: Option<string>)
      modifies this
      ensures State() == Indexed(old(State()), sig, pairKey)
    {
      if pairKey.Some? && pairKey.value !in index {
        index := index[pairKey.value := sig];
      }
    }

    method GetRouteForHops(plan: Json) returns (r: Option<RouteTemplate>)
      modifies this
      ensures (State(), r) == GetForHops(old(State()), PairKeyOf(plan))
    {
      var k := PairKeyOf(plan);
      if k.None? || k.value !in index {
        return None;
      }
      r := GetRoute(index[k.value]);
    }

    method RecordAllHops(plan: Json, slot: Option<u64>)
      modifies this
      ensures State() == old(State()).(hops := RecordHops(old(hops), KeysOf(plan), slot))
      ensures Recorded(old(hops), plan, slot, hops)
    {
      var keys := KeysOf(plan);
      RecordedPlan(hops, plan, slot);
      for n := 0 to |keys|
        invariant State() == old(State()).(hops := RecordHops(old(hops), keys[..n], slot))
      {
        assert keys[..n + 1][..n] == keys[..n];
        if keys[n].Some? {
          hops := RecordHop(hops, keys[n].value, slot);
        }
      }
      assert keys[..|keys|] == keys;
    }

    method CheckHops(plan: Json) returns (allHit: bool, missing: nat)
      ensures missing == Missing(hops, KeysOf(plan))
      ensures plan.Arr? ==>
                missing == |set i | 0 <= i < |plan.items| && !(HopOf(plan.items[i]).Some? && HopOf(plan.items[i]).value in hops)|
      ensures allHit <==> (plan.Arr? ==> forall i :: 0 <= i < |plan.items| ==>
                                           HopOf(plan.items[i]).Some? && HopOf(plan.items[i]).value in hops)
    {
      MissingHops(hops, plan);
      var keys := KeysOf(plan);
      missing := 0;
      for n := 0 to |keys|
        invariant missing == Missing(hops, keys[..n])
      {
        assert keys[..n + 1][..n] == keys[..n];
        if !(keys[n].Some? && keys[n].value in hops) {
          missing := missing + 1;
        }
      }
      assert keys[..|keys|] == keys;
      allHit := missing == 0;
    }

    /** The number of distinct live signatures, when none is in both generations. */
    method RouteCount() returns (n: nat)
      ensures hot.Keys !! cold.Keys ==> n == |hot.Keys + cold.Keys|
    {
      n := |hot| + |cold|;
      assert |hot| == |hot.Keys| && |cold| == |cold.Keys|;
    }
  }

  /** The template of a route seen for the first time: it can be patched exactly when its data decodes and
      has a patch point, and then there and eight bytes on. */
  method BuildTemplate(sig: u128, ixs: SwapInstructions, inAmount: u64, quotedOut: u64) returns (t: RouteTemplate)
    ensures t == NewTemplate(sig, ixs, inAmount, quotedOut)
    ensures t.inOffset.Some? ==>
              && ixs.swap.data.Encodes? && Amounts.PatchPoint(ixs.swap.data.bytes, t.inOffset.value, inAmount, quotedOut)
              && t.outOffset == Some(t.inOffset.value + 8)
    ensures t.inOffset.None? ==>
              && t.outOffset.None?
              && (ixs.swap.data.Encodes? ==> forall p: nat :: !Amounts.PatchPoint(ixs.swap.data.bytes, p, inAmount, quotedOut))
  {
    var i, o := None, None;
    if ixs.swap.data.Encodes? {
      var offsets := Amounts.DiscoverOffsets(ixs.swap.data.bytes, inAmount, quotedOut);
      OffsetsAgree(ixs.swap.data.bytes, inAmount, quotedOut, offsets);
      if offsets.Some? {
        i, o := Some(offsets.value.0), Some(offsets.value.1);
      }
    }
    t := RouteTemplate(sig, ixs, inAmount, quotedOut, i, o, map[inAmount := ixs], 1, 0);
  }

  lemma OffsetsAgree(data: seq<byte>, inAmount: u64, quotedOut: u64, r: Option<(nat, nat)>)
    requires r.Some? ==> r.value.1 == r.value.0 + 8 && Amounts.PatchPoint(data, r.value.0, inAmount, quotedOut)
    requires r.None? ==> forall p: nat :: !Amounts.PatchPoint(data, p, inAmount, quotedOut)
    ensures var d := Amounts.Discovered(data, inAmount, quotedOut);
            if r.Some? then d == Some(r.value.0) else d == None
  {
    if r.Some? {
      var d := Amounts.Discovered(data, inAmount, quotedOut);
      Amounts.PatchPointUnique(data, r.value.0, d.value, inAmount, quotedOut);
    }
  }

  /** Zero are missing exactly when each key is recorded. */
  lemma {:induction false} NoneMissing(hops: map<HopKey, HopTemplate>, keys: seq<Option<HopKey>>)
    ensures Missing(hops, keys) == 0 <==> forall i :: 0 <= i < |keys| ==> keys[i].Some? && keys[i].value in hops
  {
    if keys != [] {
      NoneMissing(hops, keys[..|keys| - 1]);
    }
  }

  lemma {:induction false} MissingCount(hops: map<HopKey, HopTemplate>, keys: seq<Option<HopKey>>)
    ensures Missing(hops, keys) == |set i | 0 <= i < |keys| && !(keys[i].Some? && keys[i].value in hops)|
  {
    if keys != [] {
      var n := |keys| - 1;
      MissingCount(hops, keys[..n]);
      var before := set i | 0 <= i < n && !(keys[..n][i].Some? && keys[..n][i].value in hops);
      var now := set i | 0 <= i < |keys| && !(keys[i].Some? && keys[i].value in hops);
      assert now == before + if keys[n].Some? && keys[n].value in hops then {} else {n};
    }
  }

  /** The number of hops of a plan, hop by hop, that have no key or an unrecorded one; none exactly when
      every hop has a recorded key. */
  lemma MissingHops(hops: map<HopKey, HopTemplate>, plan: Json)
    ensures plan.Arr? ==>
              Missing(hops, KeysOf(plan))
              == |set i | 0 <= i < |plan.items| && !(HopOf(plan.items[i]).Some? && HopOf(plan.items[i]).value in hops)|
    ensures Missing(hops, KeysOf(plan)) == 0
            <==> (plan.Arr? ==> forall i :: 0 <= i < |plan.items| ==>
                                  HopOf(plan.items[i]).Some? && HopOf(plan.items[i]).value in hops)
  {
    var keys := KeysOf(plan);
    NoneMissing(hops, keys);
    if plan.Arr? {
      MissingCount(hops, keys);
      assert (set i | 0 <= i < |keys| && !(keys[i].Some? && keys[i].value in hops))
             == set i | 0 <= i < |plan.items| && !(HopOf(plan.items[i]).Some? && HopOf(plan.items[i]).value in hops);
      assert forall i :: 0 <= i < |plan.items| ==> keys[i] == HopOf(plan.items[i]);
    }
  }

  /** Recording makes exactly the recorded keys known and forgets none. */
  lemma {:induction false} RecordedHopsKnown(hops: map<HopKey, HopTemplate>, keys: seq<Option<HopKey>>, slot: Option<u64>)
    ensures forall k :: k in RecordHops(hops, keys, slot) <==> k in hops || Some(k) in keys
  {
    if keys != [] {
      var n := |keys| - 1;
      RecordedHopsKnown(hops, keys[..n], slot);
      assert keys == keys[..n] + [keys[n]];
    }
  }

  ghost function Times(keys: seq<Option<HopKey>>, k: HopKey): nat {
    |set i | 0 <= i < |keys| && keys[i] == Some(k)|
  }

  lemma TimesOneMore(keys: seq<Option<HopKey>>, k: HopKey)
    requires keys != []
    ensures var n := |keys| - 1;
            && Times(keys, k) == Times(keys[..n], k) + (if keys[n] == Some(k) then 1 else 0)
            && (Some(k) in keys <==> Some(k) in keys[..n] || keys[n] == Some(k))
  {
    var n := |keys| - 1;
    assert keys == keys[..n] + [keys[n]];
    var before := set i | 0 <= i < n && keys[..n][i] == Some(k);
    var now := set i | 0 <= i < |keys| && keys[i] == Some(k);
    assert now == before + if keys[n] == Some(k) then {n} else {};
  }

  /** A recorded hop keeps its template, a new one has that of its key; it is counted once for each time
      it was recorded, and last seen now. Any other hop is as it was. */
  lemma {:induction false} RecordedTemplate(hops: map<HopKey, HopTemplate>, keys: seq<Option<HopKey>>, slot: Option<u64>, k: HopKey)
    ensures var after := RecordHops(hops, keys, slot);
            var t := if k in hops then hops[k] else NewHop(k, slot);
            if Some(k) in keys then k in after && after[k] == t.(seen := t.seen + Times(keys, k), lastSeenSlot := slot)
            else Times(keys, k) == 0 && (k in after <==> k in hops) && (k in hops ==> after[k] == hops[k])
  {
    if keys != [] {
      RecordedTemplate(hops, keys[..|keys| - 1], slot, k);
      TimesOneMore(keys, k);
    }
  }

  /** Recording a plan, hop by hop. */
  lemma RecordedPlan(hops: map<HopKey, HopTemplate>, plan: Json, slot: Option<u64>)
    ensures Recorded(hops, plan, slot, RecordHops(hops, KeysOf(plan), slot))
  {
    if plan.Arr? {
      forall k {
        RecordedKey(hops, plan, slot, k);
      }
    }
  }

  lemma RecordedKey(hops: map<HopKey, HopTemplate>, plan: Json, slot: Option<u64>, k: HopKey)
    requires plan.Arr?
    ensures RecordedAt(hops, plan, slot, RecordHops(hops, KeysOf(plan), slot), k)
  {
    var keys := KeysOf(plan);
    assert forall i :: 0 <= i < |plan.items| ==> keys[i] == HopOf(plan.items[i]);
    RecordedTemplate(hops, keys, slot, k);
    assert Times(keys, k) == Occurs(plan, k) by {
      assert (set i | 0 <= i < |keys| && keys[i] == Some(k)) == set i | 0 <= i < |plan.items| && HopOf(plan.items[i]) == Some(k);
    }
  }
}
