/** Finding and rewriting the amounts inside an instruction (`src/template_cache.rs`). */
module Amounts {
  import opened Options
  import opened Words
  import opened LittleEndian

  /** The sixteen bytes at `p` hold the pair (inAmount, quotedOut). */
  predicate PairAt(data: seq<byte>, p: nat, inAmount: u64, quotedOut: u64) {
    p + 16 <= |data| && data[p..p + 8] == Le(inAmount) && data[p + 8..p + 16] == Le(quotedOut)
  }

  /** inAmount at `p`, with room for a following `u64`. */
  predicate InAt(data: seq<byte>, p: nat, inAmount: u64) {
    p + 16 <= |data| && data[p..p + 8] == Le(inAmount)
  }

  /** The pair occurs at `p` and nowhere else. */
  ghost predicate PairOnlyAt(data: seq<byte>, p: nat, inAmount: u64, quotedOut: u64) {
    && PairAt(data, p, inAmount, quotedOut)
    && forall q: nat :: PairAt(data, q, inAmount, quotedOut) ==> q == p
  }

  ghost predicate InOnlyAt(data: seq<byte>, p: nat, inAmount: u64) {
    && InAt(data, p, inAmount)
    && forall q: nat :: InAt(data, q, inAmount) ==> q == p
  }

  ghost predicate NoPair(data: seq<byte>, inAmount: u64, quotedOut: u64) {
    forall q: nat :: !PairAt(data, q, inAmount, quotedOut)
  }

  /** Where the amounts may be patched: the only place of the pair, or, when the pair does not occur
      at all, the only place of inAmount. */
  ghost predicate PatchPoint(data: seq<byte>, p: nat, inAmount: u64, quotedOut: u64) {
    || PairOnlyAt(data, p, inAmount, quotedOut)
    || (NoPair(data, inAmount, quotedOut) && InOnlyAt(data, p, inAmount))
  }

  /** There is at most one patch point. */
  lemma PatchPointUnique(data: seq<byte>, p: nat, q: nat, inAmount: u64, quotedOut: u64)
    requires PatchPoint(data, p, inAmount, quotedOut) && PatchPoint(data, q, inAmount, quotedOut)
    ensures p == q
  {
  }

  /** The two passes of `discover_offsets`: the patch point exactly, and the second offset eight bytes on. */
  method DiscoverOffsets(data: seq<byte>, inAmount: u64, quotedOut: u64) returns (r: Option<(nat, nat)>)
    ensures r.Some? ==> r.value.1 == r.value.0 + 8 && PatchPoint(data, r.value.0, inAmount, quotedOut)
    ensures r.None? ==> forall p: nat :: !PatchPoint(data, p, inAmount, quotedOut)
  {
    var inLe, outLe := Le(inAmount), Le(quotedOut);
    if |data| < 16 {
      return None;
    }
    var found: Option<nat> := None;
    var count := 0;
    for p := 0 to |data| - 15
      invariant count <= 1 && (count == 0 <==> found.None?)
      invariant found.Some? ==> found.value < p && PairAt(data, found.value, inAmount, quotedOut)
      invariant forall q: nat :: q < p && PairAt(data, q, inAmount, quotedOut) ==> found == Some(q)
    {
      if data[p..p + 8] == inLe && data[p + 8..p + 16] == outLe {
        assert PairAt(data, p, inAmount, quotedOut);
        if count == 1 {
          return None;
        }
        found := Some(p);
        count := count + 1;
      }
    }
    if found.Some? {
      return Some((found.value, found.value + 8));
    }

    var foundIn: Option<nat> := None;
    var inCount := 0;
    for p := 0 to |data| - 15
      invariant inCount <= 1 && (inCount == 0 <==> foundIn.None?)
      invariant foundIn.Some? ==> foundIn.value < p && InAt(data, foundIn.value, inAmount)
      invariant forall q: nat :: q < p && InAt(data, q, inAmount) ==> foundIn == Some(q)
    {
      if data[p..p + 8] == inLe {
        assert InAt(data, p, inAmount);
        if inCount == 1 {
          return None;
        }
        foundIn := Some(p);
        inCount := inCount + 1;
      }
    }
    match foundIn
    case None => return None;
    case Some(p) => return Some((p, p + 8));
  }

  /** The offsets `discover_offsets` finds. */
  ghost function Discovered(data: seq<byte>, inAmount: u64, quotedOut: u64): (r: Option<nat>)
    ensures r.Some? <==> exists p: nat :: PatchPoint(data, p, inAmount, quotedOut)
    ensures r.Some? ==> PatchPoint(data, r.value, inAmount, quotedOut)
  {
    if exists p: nat :: PatchPoint(data, p, inAmount, quotedOut) then
      var p: nat :| PatchPoint(data, p, inAmount, quotedOut);
      Some(p)
    else None
  }

  // ── Patching ──────────────────────────────────────────────────────────────

  /** `data` with the bytes at `p` overwritten by `bytes`. */
  function Overwrite(data: seq<byte>, p: nat, bytes: seq<byte>): (r: seq<byte>)
    requires p + |bytes| <= |data|
    ensures |r| == |data|
    ensures forall i :: 0 <= i < |r| ==> r[i] == if p <= i < p + |bytes| then bytes[i - p] else data[i]
  {
    data[..p] + bytes + data[p + |bytes|..]
  }

  /** What patching both amounts leaves. */
  function Patched(data: seq<byte>, inOff: nat, outOff: nat, newIn: u64, newOut: u64): Option<seq<byte>> {
    if inOff + 8 > |data| || outOff + 8 > |data| then None
    else Some(Overwrite(Overwrite(data, inOff, Le(newIn)), outOff, Le(newOut)))
  }

  /** `slice.copy_from_slice` of the eight bytes at `at`. */
  method CopyInto(buf: array<byte>, at: nat, bytes: seq<byte>)
    requires at + |bytes| <= buf.Length
    modifies buf
    ensures buf[..] == Overwrite(old(buf[..]), at, bytes)
  {
    forall i | 0 <= i < |bytes| {
      buf[at + i] := bytes[i];
    }
  }

  /** The decoded buffer is overwritten in place. */
  method PatchAmounts(buf: array<byte>, inOff: nat, outOff: nat, newIn: u64, newOut: u64) returns (ok: bool)
    modifies buf
    ensures ok <==> Patched(old(buf[..]), inOff, outOff, newIn, newOut).Some?
    ensures ok ==> Some(buf[..]) == Patched(old(buf[..]), inOff, outOff, newIn, newOut)
    ensures !ok ==> buf[..] == old(buf[..])
  {
    if inOff + 8 > buf.Length || outOff + 8 > buf.Length {
      return false;
    }
    CopyInto(buf, inOff, Le(newIn));
    CopyInto(buf, outOff, Le(newOut));
    ok := true;
  }

  /** The patched bytes at a discovered offset: the pair is there, everything else is untouched. */
  lemma PatchedAt(data: seq<byte>, p: nat, newIn: u64, newOut: u64)
    requires p + 16 <= |data|
    ensures var r := Patched(data, p, p + 8, newIn, newOut);
            && r.Some? && |r.value| == |data| && PairAt(r.value, p, newIn, newOut)
            && r.value[..p] == data[..p] && r.value[p + 16..] == data[p + 16..]
            && r.value == data[..p] + (Le(newIn) + Le(newOut)) + data[p + 16..]
  {
    var r := Patched(data, p, p + 8, newIn, newOut).value;
    assert r[p..p + 8] == Le(newIn) && r[p + 8..p + 16] == Le(newOut);
    assert r == data[..p] + (Le(newIn) + Le(newOut)) + data[p + 16..];
  }

  /** The last patch wins. */
  lemma PatchTwice(data: seq<byte>, p: nat, in1: u64, out1: u64, in2: u64, out2: u64)
    requires p + 16 <= |data|
    ensures Patched(Patched(data, p, p + 8, in1, out1).value, p, p + 8, in2, out2)
            == Patched(data, p, p + 8, in2, out2)
  {
    PatchedAt(data, p, in1, out1);
    var mid := Patched(data, p, p + 8, in1, out1).value;
    PatchedAt(mid, p, in2, out2);
    PatchedAt(data, p, in2, out2);
  }

  /** The amounts read back from a patched instruction are the ones written. */
  lemma PatchedReadsBack(data: seq<byte>, p: nat, newIn: u64, newOut: u64)
    requires p + 16 <= |data|
    ensures var r := Patched(data, p, p + 8, newIn, newOut);
            && r.Some? && |r.value| == |data|
            && Number(r.value[p..p + 8]) == newIn && Number(r.value[p + 8..p + 16]) == newOut
  {
    PatchedAt(data, p, newIn, newOut);
    LeRoundTrip(newIn);
    LeRoundTrip(newOut);
  }

  /** Writing the pair that is already there changes nothing. */
  lemma PatchSame(data: seq<byte>, p: nat, inAmount: u64, quotedOut: u64)
    requires PairAt(data, p, inAmount, quotedOut)
    ensures Patched(data, p, p + 8, inAmount, quotedOut) == Some(data)
  {
    PatchedAt(data, p, inAmount, quotedOut);
    assert data == data[..p] + (data[p..p + 8] + data[p + 8..p + 16]) + data[p + 16..];
  }

  /** Patching the original pair back at the discovered offset changes nothing exactly when the first
      pass found it, that is, when the pair itself occurs. */
  lemma PatchBackExact(data: seq<byte>, p: nat, inAmount: u64, quotedOut: u64, in2: u64, out2: u64)
    requires PatchPoint(data, p, inAmount, quotedOut)
    ensures Patched(Patched(data, p, p + 8, in2, out2).value, p, p + 8, inAmount, quotedOut) == Some(data)
            <==> !NoPair(data, inAmount, quotedOut)
  {
    PatchTwice(data, p, in2, out2, inAmount, quotedOut);
    PatchedAt(data, p, inAmount, quotedOut);
    if PairAt(data, p, inAmount, quotedOut) {
      PatchSame(data, p, inAmount, quotedOut);
    } else {
      assert NoPair(data, inAmount, quotedOut);
    }
  }

  /** Discovery on patched data with the new amounts finds the same offset, or refuses because the new
      pair now occurs elsewhere too. It never finds another offset. */
  lemma RediscoveryStable(data: seq<byte>, p: nat, newIn: u64, newOut: u64)
    requires p + 16 <= |data|
    ensures var r := Patched(data, p, p + 8, newIn, newOut);
            && r.Some?
            && (Discovered(r.value, newIn, newOut) == Some(p)
                <==> forall q: nat :: PairAt(r.value, q, newIn, newOut) ==> q == p)
            && (Discovered(r.value, newIn, newOut) == None
                <==> exists q: nat :: q != p && PairAt(r.value, q, newIn, newOut))
  {
    PatchedAt(data, p, newIn, newOut);
    var r := Patched(data, p, p + 8, newIn, newOut).value;
    assert PairAt(r, p, newIn, newOut);
    if forall q: nat :: PairAt(r, q, newIn, newOut) ==> q == p {
      assert PatchPoint(r, p, newIn, newOut);
      PatchPointUnique(r, p, Discovered(r, newIn, newOut).value, newIn, newOut);
    }
  }
}
