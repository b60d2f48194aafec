/** Route plans as Metis returns them, and the amount-independent identity of a hop
    (`src/template_cache.rs`). */
module RoutePlan {
  import opened Options
  import opened Words
  import Decimal

  /** A JSON value; a string stands for its UTF-8 bytes, a number for its canonical text. */
  datatype Json =
    | Null
    | Bool(b: bool)
    | Number(text: string)
    | Str(s: string)
    | Arr(items: seq<Json>)
    | Obj(fields: map<string, Json>)

  type Fields = map<string, Json>

  function GetStr(m: Fields, key: string): Option<string> {
    if key in m && m[key].Str? then Some(m[key].s) else None
  }

  /** `hop.get("swapInfo").and_then(as_object)`. */
  function SwapInfo(hop: Json): Option<Fields> {
    if hop.Obj? && "swapInfo" in hop.fields && hop.fields["swapInfo"].Obj?
    then Some(hop.fields["swapInfo"].fields) else None
  }

  // ── DEX and direction ─────────────────────────────────────────────────────

  datatype DexKind =
    | Whirlpool | WhirlpoolSwapV2 | RaydiumClmm | RaydiumV2 | MeteoraDlmm
    | MeteoraPools | AlphaQ | Aquifer | AldrinV2 | Other

  function LowerChar(c: char): char {
    if 'A' <= c <= 'Z' then (c as int + 32) as char else c
  }

  /** The UTF-8 bytes of KELVIN SIGN, whose lower case is 'k'. */
  const KELVIN: string := [0xE2 as char, 0x84 as char, 0xAA as char]

  /** The UTF-8 bytes of a dotted capital I, whose lower case is 'i' and a combining dot. */
  const DOTTED_I: string := [0xC4 as char, 0xB0 as char]

  /** `to_lowercase`, as far as a comparison with ASCII text can tell: the ASCII letters and the two other
      characters whose lower case has an ASCII letter; every other character stays as it is. */
  function Lower(s: string): string {
    if s == "" then ""
    else if KELVIN <= s then "k" + Lower(s[3..])
    else if DOTTED_I <= s then ['i', 0xCC as char, 0x87 as char] + Lower(s[2..])
    else [LowerChar(s[0])] + Lower(s[1..])
  }

  /** On text without the two it maps letter by letter. */
  lemma {:induction false} LowerLetters(s: string)
    requires forall i :: 0 <= i < |s| ==> s[i] != KELVIN[0] && s[i] != DOTTED_I[0]
    ensures |Lower(s)| == |s| && forall i :: 0 <= i < |s| ==> Lower(s)[i] == LowerChar(s[i])
  {
    if s != "" {
      LowerLetters(s[1..]);
    }
  }

  predicate Contains(s: string, part: string) {
    part <= s || (s != "" && Contains(s[1..], part))
  }

  function FromLabel(name: string): DexKind {
    var l := Lower(name);
    if Contains(l, "whirlpool") then
      if Contains(l, "v2") || Contains(l, "swap_v2") || Contains(l, "swapv2") then WhirlpoolSwapV2 else Whirlpool
    else if Contains(l, "raydium") && Contains(l, "clmm") then RaydiumClmm
    else if Contains(l, "raydium") then RaydiumV2
    else if Contains(l, "meteora") && Contains(l, "dlmm") then MeteoraDlmm
    else if Contains(l, "meteora") then MeteoraPools
    else if Contains(l, "alphaq") || Contains(l, "alpha_q") then AlphaQ
    else if Contains(l, "aquifer") then Aquifer
    else if Contains(l, "aldrin") then AldrinV2
    else Other
  }

  function FileStem(d: DexKind): string {
    match d
    case Whirlpool => "whirlpool"
    case WhirlpoolSwapV2 => "whirlpool_swap_v2"
    case RaydiumClmm => "raydium_clmm"
    case RaydiumV2 => "raydium_v2"
    case MeteoraDlmm => "meteora_dlmm"
    case MeteoraPools => "meteora_pools"
    case AlphaQ => "alphaq"
    case Aquifer => "aquifer"
    case AldrinV2 => "aldrin_v2"
    case Other => "other"
  }

  datatype Direction = NoDirection | AToB(b: bool) | SideBid | SideAsk

  function FirstBool(m: Fields, keys: seq<string>): Direction {
    if keys == [] then NoDirection
    else if keys[0] in m && m[keys[0]].Bool? then AToB(m[keys[0]].b)
    else FirstBool(m, keys[1..])
  }

  function ExtractDirection(dex: DexKind, m: Fields): Direction {
    match dex
    case Whirlpool | WhirlpoolSwapV2 | AlphaQ => FirstBool(m, ["a_to_b", "aToB", "atob", "a2b"])
    case AldrinV2 =>
      (match GetStr(m, "side")
       case Some(s) => if Lower(s) == "bid" then SideBid else if Lower(s) == "ask" then SideAsk else NoDirection
       case None => NoDirection)
    case _ => NoDirection
  }

  // ── Hop identity ──────────────────────────────────────────────────────────

  datatype HopKey = HopKey(
    dex: DexKind, pool: string, inputMint: string, outputMint: string,
    direction: Direction, remainingAccountsHash: u64)

  function FromSwapInfo(m: Fields): Option<HopKey> {
    match (GetStr(m, "ammKey"), GetStr(m, "inputMint"), GetStr(m, "outputMint"))
    case (Some(pool), Some(input), Some(output)) =>
      var name := match GetStr(m, "label") case Some(l) => l case None => "";
      var dex := FromLabel(name);
      Some(HopKey(dex, pool, input, output, ExtractDirection(dex, m), 0))
    case _ => None
  }

  /** The key of one hop of a plan, when it has one. */
  function HopOf(hop: Json): Option<HopKey> {
    match SwapInfo(hop)
    case None => None
    case Some(m) => FromSwapInfo(m)
  }

  function DirectionText(d: Direction): string {
    match d
    case NoDirection => "none"
    case AToB(b) => "a2b" + (":" + if b then "true" else "false")
    case SideBid => "bid"
    case SideAsk => "ask"
  }

  /** `pool:inputMint:outputMint:direction:remainingAccountsHash`; the DEX is not part of it. */
  function TemplateId(k: HopKey): string {
    k.pool + (":" + (k.inputMint + (":" + (k.outputMint + (":" + DirectionTail(k.direction, k.remainingAccountsHash))))))
  }

  function DirectionTail(d: Direction, hash: u64): string {
    DirectionText(d) + (":" + Decimal.Print(hash))
  }

  /** None of the strings of `k` contains `c`. */
  ghost predicate Free(k: HopKey, c: char) {
    c !in k.pool && c !in k.inputMint && c !in k.outputMint
  }

  /** What two keys share when their ids do: everything but the DEX. */
  ghost predicate SameHop(a: HopKey, b: HopKey) {
    a.(dex := b.dex) == b
  }

  /** The first separator splits a text one way only. */
  lemma {:induction false} SplitUnique(a: string, x: string, b: string, y: string, c: char)
    requires c !in a && c !in b && a + ([c] + x) == b + ([c] + y)
    ensures a == b && x == y
  {
    var s, t := a + ([c] + x), b + ([c] + y);
    assert s[0] == t[0] && s[1..] == t[1..];
    if a != "" && b != "" {
      assert s[1..] == a[1..] + ([c] + x) && t[1..] == b[1..] + ([c] + y);
      SplitUnique(a[1..], x, b[1..], y, c);
    } else {
      assert a == "" ==> s[1..] == x;
      assert b == "" ==> t[1..] == y;
    }
  }

  /** So does the last one. */
  lemma {:induction false} SplitLastUnique(a: string, x: string, b: string, y: string, c: char)
    requires c !in x && c !in y && a + ([c] + x) == b + ([c] + y)
    ensures a == b && x == y
  {
    var s, t := a + ([c] + x), b + ([c] + y);
    assert s[|s| - 1] == t[|t| - 1] && s[..|s| - 1] == t[..|t| - 1];
    if x != "" && y != "" {
      assert s[..|s| - 1] == a + ([c] + x[..|x| - 1]) && t[..|t| - 1] == b + ([c] + y[..|y| - 1]);
      SplitLastUnique(a, x[..|x| - 1], b, y[..|y| - 1], c);
      assert x == x[..|x| - 1] + [x[|x| - 1]] && y == y[..|y| - 1] + [y[|y| - 1]];
    } else {
      assert x == "" ==> s[..|s| - 1] == a;
      assert y == "" ==> t[..|t| - 1] == b;
    }
  }

  /** How often `c` occurs. */
  function Occurrences(s: string, c: char): nat {
    if s == "" then 0 else (if s[0] == c then 1 else 0) + Occurrences(s[1..], c)
  }

  lemma {:induction false} OccurrencesAppend(s: string, t: string, c: char)
    ensures Occurrences(s + t, c) == Occurrences(s, c) + Occurrences(t, c)
  {
    if s == "" {
      assert s + t == t;
    } else {
      OccurrencesAppend(s[1..], t, c);
      assert (s + t)[1..] == s[1..] + t;
    }
  }

  lemma {:induction false} NoOccurrence(s: string, c: char)
    ensures Occurrences(s, c) == 0 <==> c !in s
  {
    if s != "" {
      NoOccurrence(s[1..], c);
      assert s == [s[0]] + s[1..];
    }
  }

  /** `pool:inputMint:outputMint` */
  function StringsText(k: HopKey): string {
    k.pool + (":" + (k.inputMint + (":" + k.outputMint)))
  }

  /** The last word of a direction: it tells the direction. */
  function LastWord(d: Direction): string {
    match d
    case NoDirection => "none"
    case AToB(b) => if b then "true" else "false"
    case SideBid => "bid"
    case SideAsk => "ask"
  }

  /** What stands before the last word of the direction. */
  function BeforeLastWord(k: HopKey): string {
    if k.direction.AToB? then StringsText(k) + (":" + "a2b") else StringsText(k)
  }

  lemma IdParts(k: HopKey)
    ensures TemplateId(k) == (BeforeLastWord(k) + (":" + LastWord(k.direction))) + (":" + Decimal.Print(k.remainingAccountsHash))
  {
    var hash := Decimal.Print(k.remainingAccountsHash);
    assert TemplateId(k) == StringsText(k) + (":" + (DirectionText(k.direction) + (":" + hash)));
  }

  /** Whatever the strings hold, an id tells the direction and the account hash, and the three strings up
      to where one ends and the next begins. */
  lemma IdTellsRest(a: HopKey, b: HopKey)
    requires TemplateId(a) == TemplateId(b)
    ensures a.direction == b.direction && a.remainingAccountsHash == b.remainingAccountsHash
    ensures StringsText(a) == StringsText(b)
  {
    var h, k := Decimal.Print(a.remainingAccountsHash), Decimal.Print(b.remainingAccountsHash);
    IdParts(a);
    IdParts(b);
    SplitLastUnique(BeforeLastWord(a) + (":" + LastWord(a.direction)), h,
                    BeforeLastWord(b) + (":" + LastWord(b.direction)), k, ':');
    Decimal.PrintInjective(a.remainingAccountsHash, b.remainingAccountsHash);
    SplitLastUnique(BeforeLastWord(a), LastWord(a.direction), BeforeLastWord(b), LastWord(b.direction), ':');
    LastWordTells(a.direction, b.direction);
    if a.direction.AToB? {
      SplitLastUnique(StringsText(a), "a2b", StringsText(b), "a2b", ':');
    }
  }

  lemma LastWordTells(d: Direction, e: Direction)
    requires LastWord(d) == LastWord(e)
    ensures d == e
  {
    assert LastWord(d)[0] == LastWord(e)[0] && |LastWord(d)| == |LastWord(e)|;
  }

  lemma ColonsInStrings(k: HopKey)
    ensures Occurrences(StringsText(k), ':')
            == 2 + Occurrences(k.pool, ':') + Occurrences(k.inputMint, ':') + Occurrences(k.outputMint, ':')
  {
    OccurrencesAppend(k.pool, ":" + (k.inputMint + (":" + k.outputMint)), ':');
    OccurrencesAppend(":", k.inputMint + (":" + k.outputMint), ':');
    OccurrencesAppend(k.inputMint, ":" + k.outputMint, ':');
    OccurrencesAppend(":", k.outputMint, ':');
    assert Occurrences(":", ':') == 1;
  }

  lemma FreeIsCounted(k: HopKey)
    ensures Free(k, ':') <==> Occurrences(StringsText(k), ':') == 2
  {
    ColonsInStrings(k);
    NoOccurrence(k.pool, ':');
    NoOccurrence(k.inputMint, ':');
    NoOccurrence(k.outputMint, ':');
  }

  /** An id of a key without ':' is shared exactly by the keys that agree with it on all but the DEX. */
  lemma TemplateIdInjective(a: HopKey, b: HopKey)
    requires Free(a, ':')
    ensures TemplateId(a) == TemplateId(b) <==> SameHop(a, b)
  {
    if TemplateId(a) == TemplateId(b) {
      IdTellsRest(a, b);
      FreeIsCounted(a);
      FreeIsCounted(b);
      SplitUnique(a.pool, a.inputMint + (":" + a.outputMint), b.pool, b.inputMint + (":" + b.outputMint), ':');
      SplitUnique(a.inputMint, a.outputMint, b.inputMint, b.outputMint, ':');
    }
  }

  lemma SameStringsSameId(a: HopKey, b: HopKey)
    requires StringsText(a) == StringsText(b)
    requires a.direction == b.direction && a.remainingAccountsHash == b.remainingAccountsHash
    ensures TemplateId(a) == TemplateId(b)
  {
    IdParts(a);
    IdParts(b);
  }

  /** The text before a ':' and the text after it, which the next string takes over. */
  lemma MoveColon(s: string, next: string) returns (x: string, y: string)
    requires ':' in s
    ensures x + (":" + (y + (":" + next))) == s + (":" + next) && |x| < |s| && s == x + (":" + y)
  {
    var i :| 0 <= i < |s| && s[i] == ':';
    x, y := s[..i], s[i + 1..];
    assert s == x + (":" + y);
  }

  /** A ':' in a string of a key can move to the next one: another key with the same id. */
  lemma MovedColon(a: HopKey) returns (b: HopKey)
    requires !Free(a, ':')
    ensures TemplateId(b) == TemplateId(a) && !SameHop(a, b)
  {
    if ':' in a.pool {
      var x, y := MoveColon(a.pool, a.inputMint + (":" + a.outputMint));
      b := a.(pool := x, inputMint := y + (":" + a.inputMint));
      assert b.inputMint + (":" + a.outputMint) == y + (":" + (a.inputMint + (":" + a.outputMint)));
    } else if ':' in a.inputMint {
      var x, y := MoveColon(a.inputMint, a.outputMint);
      b := a.(inputMint := x, outputMint := y + (":" + a.outputMint));
    } else {
      var x, y := MoveColon(a.outputMint, "");
      b := a.(inputMint := a.inputMint + (":" + x), outputMint := y);
      assert b.inputMint + (":" + y) == a.inputMint + (":" + a.outputMint);
    }
    SameStringsSameId(a, b);
  }

  /** A key's id names its hop exactly when none of its strings holds a ':'. */
  lemma TemplateIdExact(a: HopKey)
    ensures (forall b :: TemplateId(b) == TemplateId(a) ==> SameHop(a, b)) <==> Free(a, ':')
  {
    if Free(a, ':') {
      forall b | TemplateId(b) == TemplateId(a)
        ensures SameHop(a, b)
      {
        TemplateIdInjective(a, b);
      }
    } else {
      var b := MovedColon(a);
    }
  }

  /** For example: */
  lemma TemplateIdCollides()
    ensures var a := HopKey(Other, "p:q", "r", "s", NoDirection, 0);
            var b := HopKey(Other, "p", "q:r", "s", NoDirection, 0);
            a != b && TemplateId(a) == TemplateId(b)
  {
    var t := ":" + ("s" + (":" + DirectionTail(NoDirection, 0)));
    assert "p:q" + (":" + ("r" + t)) == "p:q:r" + t == "p" + (":" + ("q:r" + t));
  }

  /** A known id, which fixes the order of its parts. */
  lemma KnownId()
    ensures TemplateId(HopKey(Whirlpool, "p", "i", "o", AToB(true), 7)) == "p:i:o:a2b:true:7"
  {
    assert Decimal.Print(7) == "7";
    assert DirectionText(AToB(true)) + (":" + "7") == "a2b:true:7";
    assert "p" + (":" + ("i" + (":" + ("o" + (":" + "a2b:true:7"))))) == "p:i:o:a2b:true:7";
  }

  lemma FileStemInjective(a: DexKind, b: DexKind)
    requires FileStem(a) == FileStem(b)
    ensures a == b
  {
    assert FileStem(a)[0] == FileStem(b)[0] && |FileStem(a)| == |FileStem(b)|;
    assert FileStem(a)[|FileStem(a)| - 1] == FileStem(b)[|FileStem(b)| - 1];
  }

  /** File and row of a hop record: together they name the key. */
  lemma FileAndIdInjective(a: HopKey, b: HopKey)
    requires Free(a, ':')
    requires FileStem(a.dex) == FileStem(b.dex) && TemplateId(a) == TemplateId(b)
    ensures a == b
  {
    FileStemInjective(a.dex, b.dex);
    TemplateIdInjective(a, b);
  }

  // ── Pairs of hops ─────────────────────────────────────────────────────────

  /** Both hop keys of a two-hop plan whose hops have keys. */
  function PairOf(plan: Json): Option<(HopKey, HopKey)> {
    if plan.Arr? && |plan.items| == 2 then
      match (HopOf(plan.items[0]), HopOf(plan.items[1]))
      case (Some(a), Some(b)) => Some((a, b))
      case _ => None
    else None
  }

  /** `hop1_id|hop2_id`. */
  function PairText(a: HopKey, b: HopKey): string {
    TemplateId(a) + ("|" + TemplateId(b))
  }

  function PairKeyOf(plan: Json): Option<string> {
    match PairOf(plan)
    case None => None
    case Some((a, b)) => Some(PairText(a, b))
  }

  lemma NoBarInId(k: HopKey)
    requires Free(k, '|')
    ensures '|' !in TemplateId(k)
  {
    var digits := Decimal.Print(k.remainingAccountsHash);
    assert '|' !in digits;
    assert '|' !in DirectionText(k.direction);
  }

  lemma BarsInPair(a: HopKey, b: HopKey)
    ensures Occurrences(PairText(a, b), '|') == Occurrences(TemplateId(a), '|') + 1 + Occurrences(TemplateId(b), '|')
  {
    OccurrencesAppend(TemplateId(a), "|" + TemplateId(b), '|');
    OccurrencesAppend("|", TemplateId(b), '|');
    assert Occurrences("|", '|') == 1;
  }

  /** Only one bar in a pair key: it stands between the two ids. */
  lemma PairSplits(a: HopKey, b: HopKey, c: HopKey, d: HopKey)
    requires PairText(a, b) == PairText(c, d) && Free(a, '|') && Free(b, '|')
    ensures TemplateId(a) == TemplateId(c) && TemplateId(b) == TemplateId(d)
  {
    NoBarInId(a);
    NoBarInId(b);
    NoOccurrence(TemplateId(a), '|');
    NoOccurrence(TemplateId(b), '|');
    NoOccurrence(TemplateId(c), '|');
    BarsInPair(a, b);
    BarsInPair(c, d);
    SplitUnique(TemplateId(a), TemplateId(b), TemplateId(c), TemplateId(d), '|');
  }
}
