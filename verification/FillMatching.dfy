/** Matching orders against a tape of trades: two ways to cut the tape at a time,
    the scans that fill an order, and the replay that cuts, scans and drops. */
module FillMatching {
  import opened Outcomes

  datatype Trade = Trade(time: real, price: real)

  type Tape = seq<Trade>

  const FILL_DELAY := 0.020

  datatype Order =
    | LimitBuy(submittedAt: real, limit: real)
    | LimitSell(submittedAt: real, limit: real)
    | Market(submittedAt: real)
  {
    /** May this trade fill the order? */
    predicate Fills(t: Trade) {
      && t.time > submittedAt + FILL_DELAY
      && match this
         case LimitBuy(_, limit) => t.price <= limit
         case LimitSell(_, limit) => t.price >= limit
         case Market(_) => true
    }
  }

  // ---------- First positions ----------

  function CutFrom(tape: Tape, time: real, i: nat): (k: nat)
    requires i <= |tape|
    ensures i <= k <= |tape|
    ensures forall j :: i <= j < k ==> tape[j].time < time
    ensures k < |tape| ==> tape[k].time >= time
    decreases |tape| - i
  {
    if i == |tape| || tape[i].time >= time then i else CutFrom(tape, time, i + 1)
  }

  /** The first trade at or after `time`; the length of the tape if none is. */
  function CutAt(tape: Tape, time: real): (k: nat)
    ensures k <= |tape|
    ensures forall j :: 0 <= j < k ==> tape[j].time < time
    ensures k < |tape| ==> tape[k].time >= time
  {
    CutFrom(tape, time, 0)
  }

  function FirstFillFrom(tape: Tape, order: Order, i: nat): (k: nat)
    requires i <= |tape|
    ensures i <= k <= |tape|
    ensures forall j :: i <= j < k ==> !order.Fills(tape[j])
    ensures k < |tape| ==> order.Fills(tape[k])
    decreases |tape| - i
  {
    if i == |tape| || order.Fills(tape[i]) then i else FirstFillFrom(tape, order, i + 1)
  }

  /** The first trade that fills the order; the length of the tape if none does. */
  function FirstFill(tape: Tape, order: Order): (k: nat)
    ensures k <= |tape|
    ensures forall j :: 0 <= j < k ==> !order.Fills(tape[j])
    ensures k < |tape| ==> order.Fills(tape[k])
  {
    FirstFillFrom(tape, order, 0)
  }

  function Fill(tape: Tape, order: Order): Option<Trade> {
    var k := FirstFill(tape, order);
    if k < |tape| then Some(tape[k]) else None
  }

  ghost predicate Sorted(tape: Tape) {
    forall i, j :: 0 <= i < j < |tape| ==> tape[i].time <= tape[j].time
  }

  // ---------- The two cuts ----------

  /** The position of the first trade at or after `time`; a slice up to None + 1
      raises when there is none. */
  function GetIndexResult(tape: Tape, time: real): Result<nat> {
    if CutAt(tape, time) < |tape| then Ok(CutAt(tape, time)) else Err(TypeError)
  }

  method GetIndex(btdata: Tape, time: real) returns (r: Result<nat>)
    ensures r == GetIndexResult(btdata, time)
  {
    var indexEnd := None;
    var i := 0;
    while i < |btdata|
      invariant 0 <= i <= |btdata|
      invariant indexEnd == None
      invariant forall j :: 0 <= j < i ==> btdata[j].time < time
    {
      if btdata[i].time >= time {
        indexEnd := Some(i);
        break;
      }
      i := i + 1;
    }
    if indexEnd.None? {
      return Err(TypeError);
    }
    return Ok(indexEnd.value);
  }

  datatype BisectResult = Index(k: nat) | Element(trade: Trade)

  /** The bisecting cut. On a sorted tape bisect_left with a one-element tuple finds
      the first trade at or after `time`; at both ends the function answers with a
      trade in place of a position, and an empty tape has none. */
  function GetIndexBisect(tape: Tape, time: real): Result<BisectResult>
    requires Sorted(tape)
  {
    var pos := CutAt(tape, time);
    if pos == 0 then
      if tape == [] then Err(IndexError) else Ok(Element(tape[0]))
    else if pos == |tape| then Ok(Element(tape[|tape| - 1]))
    else Ok(Index(pos))
  }

  /** The two cuts agree exactly when the first trade is before `time` and the last
      one is not. */
  lemma CutsAgreeIff(tape: Tape, time: real)
    requires Sorted(tape)
    ensures (exists k: nat :: GetIndexBisect(tape, time) == Ok(Index(k)) && GetIndexResult(tape, time) == Ok(k))
            <==> tape != [] && tape[0].time < time <= tape[|tape| - 1].time
  {
    var pos := CutAt(tape, time);
    if 0 < pos < |tape| {
      assert pos == |tape| - 1 || tape[pos].time <= tape[|tape| - 1].time;
      assert GetIndexBisect(tape, time) == Ok(Index(pos)) && GetIndexResult(tape, time) == Ok(pos);
    }
  }

  /** Outside the tape the bisecting cut answers with a trade, the first or the last; on
      an empty tape it raises. */
  lemma BisectOutside(tape: Tape, time: real)
    requires Sorted(tape)
    ensures tape == [] ==> GetIndexBisect(tape, time) == Err(IndexError)
    ensures tape != [] && time <= tape[0].time ==> GetIndexBisect(tape, time) == Ok(Element(tape[0]))
    ensures tape != [] && tape[|tape| - 1].time < time ==>
              GetIndexBisect(tape, time) == Ok(Element(tape[|tape| - 1]))
  {
    var pos := CutAt(tape, time);
    assert 0 < pos < |tape| ==> tape[pos].time <= tape[|tape| - 1].time;
  }

  // ---------- The scans ----------

  /** One scan of a window, whichever of the three orders it is for. */
  method Scan(newRange: Tape, order: Order) returns (fill: Option<Trade>)
    ensures fill == Fill(newRange, order)
  {
    fill := None;
    var i := 0;
    while i < |newRange|
      invariant 0 <= i <= |newRange|
      invariant fill == None
      invariant forall j :: 0 <= j < i ==> !order.Fills(newRange[j])
    {
      if order.Fills(newRange[i]) {
        fill := Some(newRange[i]);
        break;
      }
      i := i + 1;
    }
  }

  /** The first fill, in prices: the first trade more than the delay after submission
      that is not over a buy limit, or not under a sell limit. */
  lemma FillIsAtLimit(tape: Tape, submittedAt: real, limit: real)
    ensures var k := FirstFill(tape, LimitBuy(submittedAt, limit));
            && (k < |tape| ==> tape[k].price <= limit && tape[k].time - submittedAt > 0.02)
            && (forall i :: 0 <= i < k ==> tape[i].price > limit || tape[i].time - submittedAt <= 0.02)
    ensures var k := FirstFill(tape, LimitSell(submittedAt, limit));
            && (k < |tape| ==> tape[k].price >= limit && tape[k].time - submittedAt > 0.02)
            && (forall i :: 0 <= i < k ==> tape[i].price < limit || tape[i].time - submittedAt <= 0.02)
    ensures var k := FirstFill(tape, Market(submittedAt));
            && (k < |tape| ==> tape[k].time - submittedAt > 0.02)
            && (forall i :: 0 <= i < k ==> tape[i].time - submittedAt <= 0.02)
  {
  }

  // ---------- The windowed replay ----------

  /** One window: cut, scan up to and with the trade at the cut, drop what is
      before it. Gives the fill and the tape left. */
  function Window(tape: Tape, cut: real, order: Order): Result<(Option<Trade>, Tape)> {
    var k := CutAt(tape, cut);
    if k < |tape| then Ok((Fill(tape[..k + 1], order), tape[k..])) else Err(TypeError)
  }

  class Replay {
    var btdata: Tape

    constructor (tape: Tape)
      ensures btdata == tape
    {
      btdata := tape;
    }

    method Step(cut: real, order: Order) returns (r: Result<Option<Trade>>)
      modifies this
      ensures match Window(old(btdata), cut, order)
              case Ok((fill, rest)) => r == Ok(fill) && btdata == rest
              case Err(e) => r == Err(e) && btdata == old(btdata)
    {
      var indexEnd := GetIndex(btdata, cut);
      if indexEnd.Err? {
        return Err(indexEnd.error);
      }
      var fill := Scan(btdata[..indexEnd.value + 1], order);
      btdata := btdata[indexEnd.value..];
      return Ok(fill);
    }
  }

  /** Every cut finds a trade on what the cuts before it have left. */
  predicate CutsSucceed(tape: Tape, cuts: seq<real>) {
    cuts != [] ==> CutAt(tape, cuts[0]) < |tape| && CutsSucceed(tape[CutAt(tape, cuts[0])..], cuts[1..])
  }

  /** How much of the tape the cuts drop. */
  function Dropped(tape: Tape, cuts: seq<real>): (n: nat)
    requires CutsSucceed(tape, cuts)
    ensures n <= |tape|
    ensures cuts != [] ==> n < |tape|
    decreases |cuts|
  {
    if cuts == [] then 0 else
      var k := CutAt(tape, cuts[0]);
      k + Dropped(tape[k..], cuts[1..])
  }

  /** The windows one after another until one of them fills the order. */
  function Replayed(tape: Tape, cuts: seq<real>, order: Order): Result<Option<Trade>>
    decreases |cuts|
  {
    if cuts == [] then Ok(None) else
      match Window(tape, cuts[0], order)
      case Err(e) => Err(e)
      case Ok((fill, rest)) => if fill.Some? then Ok(fill) else Replayed(rest, cuts[1..], order)
  }

  lemma FirstFillOfPrefix(tape: Tape, n: nat, order: Order)
    requires n <= |tape|
    ensures FirstFill(tape[..n], order) == if FirstFill(tape, order) < n then FirstFill(tape, order) else n
  {
    var whole, prefix := FirstFill(tape, order), FirstFill(tape[..n], order);
    if whole < n { assert tape[..n][whole] == tape[whole]; }
    if prefix < n { assert tape[..n][prefix] == tape[prefix]; }
  }

  lemma FirstFillOfSuffix(tape: Tape, m: nat, order: Order)
    requires m <= FirstFill(tape, order)
    ensures FirstFill(tape[m..], order) == FirstFill(tape, order) - m
  {
    var whole, rest := FirstFill(tape, order), FirstFill(tape[m..], order);
    if whole < |tape| { assert tape[m..][whole - m] == tape[whole]; }
    if rest < |tape| - m { assert tape[m..][rest] == tape[m + rest]; }
  }

  /** The fill by one pass over the whole tape, if it is no later than `last`. */
  function FillUpTo(tape: Tape, last: nat, order: Order): Option<Trade> {
    if FirstFill(tape, order) <= last then Fill(tape, order) else None
  }

  lemma FillOfPrefix(tape: Tape, last: nat, order: Order)
    requires last < |tape|
    ensures Fill(tape[..last + 1], order) == FillUpTo(tape, last, order)
  {
    FirstFillOfPrefix(tape, last + 1, order);
  }

  lemma FillUpToOfSuffix(tape: Tape, m: nat, last: nat, order: Order)
    requires m <= FirstFill(tape, order) && m <= last
    ensures FillUpTo(tape[m..], last - m, order) == FillUpTo(tape, last, order)
  {
    FirstFillOfSuffix(tape, m, order);
  }

  lemma WindowIsScan(tape: Tape, cut: real, order: Order)
    requires CutAt(tape, cut) < |tape|
    ensures var k := CutAt(tape, cut);
            Window(tape, cut, order) == Ok((FillUpTo(tape, k, order), tape[k..]))
  {
    FillOfPrefix(tape, CutAt(tape, cut), order);
  }

  /** Whatever the tape and the cuts, the replay fills an order like one pass over
      the tape that stops at the last cut. */
  lemma {:induction false} ReplayIsOneScan(tape: Tape, cuts: seq<real>, order: Order)
    requires CutsSucceed(tape, cuts) && cuts != []
    ensures Replayed(tape, cuts, order) == Ok(FillUpTo(tape, Dropped(tape, cuts), order))
    decreases |cuts|
  {
    var k := CutAt(tape, cuts[0]);
    WindowIsScan(tape, cuts[0], order);
    if |cuts| > 1 && FillUpTo(tape, k, order).None? {
      ReplayIsOneScan(tape[k..], cuts[1..], order);
      FillUpToOfSuffix(tape, k, Dropped(tape, cuts), order);
    }
  }

  ghost predicate BeforeOrder(cuts: seq<real>, order: Order) {
    forall c :: c in cuts ==> c <= order.submittedAt + FILL_DELAY
  }

  /** Dropping a prefix too early to fill the order does not change its fill. */
  lemma {:induction false} DroppedIsEarly(tape: Tape, cuts: seq<real>, order: Order)
    requires CutsSucceed(tape, cuts) && BeforeOrder(cuts, order)
    ensures Dropped(tape, cuts) <= FirstFill(tape, order)
    decreases |cuts|
  {
    if cuts == [] {
    } else {
      var k := CutAt(tape, cuts[0]);
      assert cuts[0] in cuts;
      assert forall i :: 0 <= i < k ==> !order.Fills(tape[i]);
      assert forall c :: c in cuts[1..] ==> c in cuts;
      FirstFillOfSuffix(tape, k, order);
      DroppedIsEarly(tape[k..], cuts[1..], order);
    }
  }

  /** Replaying the rest fills the order like one pass over the tape up to `last`. */
  ghost predicate FillsLike(rest: Tape, cuts: seq<real>, order: Order, tape: Tape, last: nat) {
    last < |tape| && Replayed(rest, cuts, order) == Ok(FillUpTo(tape, last, order))
  }

  /** The same on what is left of a tape after a prefix too early for the order. */
  lemma ReplayOfRest(tape: Tape, gone: nat, rest: Tape, cuts: seq<real>, order: Order)
    requires gone <= FirstFill(tape, order) && rest == tape[gone..]
    requires CutsSucceed(rest, cuts) && cuts != []
    ensures FillsLike(rest, cuts, order, tape, gone + Dropped(rest, cuts))
  {
    var n := Dropped(rest, cuts);
    ReplayIsOneScan(rest, cuts, order);
    FillUpToOfSuffix(tape, gone, gone + n, order);
  }

  /** The windowed replay equals one pass over the whole tape, also for an order
      submitted after earlier cuts have dropped part of it: no fill is lost, moved
      or invented. An order counts as later than a cut once its submission plus the
      fill delay reaches it. */
  lemma WindowedReplayIsOnePass(tape: Tape, earlier: seq<real>, later: seq<real>, order: Order)
    requires CutsSucceed(tape, earlier) && CutsSucceed(tape[Dropped(tape, earlier)..], later) && later != []
    requires BeforeOrder(earlier, order)
    ensures var rest := tape[Dropped(tape, earlier)..];
            FillsLike(rest, later, order, tape, Dropped(tape, earlier) + Dropped(rest, later))
  {
    var gone := Dropped(tape, earlier);
    DroppedIsEarly(tape, earlier, order);
    ReplayOfRest(tape, gone, tape[gone..], later, order);
  }

  ghost predicate InOrder(cuts: seq<real>) {
    forall i, j :: 0 <= i < j < |cuts| ==> cuts[i] <= cuts[j]
  }

  /** A cut succeeds through a whole run exactly when some trade is at or after
      every cut, given cuts that do not go back in time and a sorted tape. */
  lemma {:induction false} CutsSucceedIff(tape: Tape, cuts: seq<real>)
    requires Sorted(tape) && InOrder(cuts)
    ensures CutsSucceed(tape, cuts) <==> cuts == [] || (tape != [] && cuts[|cuts| - 1] <= tape[|tape| - 1].time)
    decreases |cuts|
  {
    if cuts == [] {
    } else {
      var k := CutAt(tape, cuts[0]);
      if k < |tape| {
        CutsSucceedIff(tape[k..], cuts[1..]);
        assert tape[k].time <= tape[|tape| - 1].time;
      } else if tape != [] {
        assert tape[|tape| - 1].time < cuts[0];
      }
    }
  }

  lemma CutOfSuffix(tape: Tape, g: nat, time: real)
    requires g <= CutAt(tape, time)
    ensures CutAt(tape[g..], time) == CutAt(tape, time) - g
    ensures tape[g..][..CutAt(tape, time) - g] == tape[g..CutAt(tape, time)]
  {
    var whole, rest := CutAt(tape, time), CutAt(tape[g..], time);
    if whole < |tape| { assert tape[g..][whole - g] == tape[whole]; }
    if rest < |tape| - g { assert tape[g..][rest] == tape[g + rest]; }
  }

  lemma CutsGrow(tape: Tape, a: real, b: real)
    requires a <= b
    ensures CutAt(tape, a) <= CutAt(tape, b)
  {
  }

  /** A later cut of what a cut has left is the later cut of the whole tape. */
  lemma CutOfRest(tape: Tape, before: real, time: real)
    requires before <= time
    ensures CutAt(tape, before) + CutAt(tape[CutAt(tape, before)..], time) == CutAt(tape, time)
  {
    CutsGrow(tape, before, time);
    CutOfSuffix(tape, CutAt(tape, before), time);
  }

  /** Cuts in order drop what is before the last of them on the whole tape. */
  lemma {:induction false} DroppedIsLastCut(tape: Tape, cuts: seq<real>)
    requires CutsSucceed(tape, cuts) && InOrder(cuts) && cuts != []
    ensures Dropped(tape, cuts) == CutAt(tape, cuts[|cuts| - 1])
    decreases |cuts|
  {
    if |cuts| == 1 {
      assert cuts[1..] == [];
    } else {
      DroppedIsLastCut(tape[CutAt(tape, cuts[0])..], cuts[1..]);
      CutOfRest(tape, cuts[0], cuts[|cuts| - 1]);
    }
  }

  lemma SplitInOrder(a: seq<real>, b: seq<real>)
    requires InOrder(a + b)
    ensures InOrder(a) && InOrder(b)
    ensures a != [] && b != [] ==> a[|a| - 1] <= b[0]
  {
    var ab := a + b;
    assert forall i :: 0 <= i < |a| ==> a[i] == ab[i];
    assert forall i :: 0 <= i < |b| ==> b[i] == ab[|a| + i];
  }

  lemma DroppedByBoth(tape: Tape, earlier: seq<real>, later: seq<real>)
    requires CutsSucceed(tape, earlier) && CutsSucceed(tape[Dropped(tape, earlier)..], later) && later != []
    requires InOrder(earlier + later)
    ensures Dropped(tape, earlier) + Dropped(tape[Dropped(tape, earlier)..], later)
            == CutAt(tape, later[|later| - 1])
  {
    SplitInOrder(earlier, later);
    DroppedIsLastCut(tape[Dropped(tape, earlier)..], later);
    if earlier == [] {
      assert tape[0..] == tape;
    } else {
      DroppedIsLastCut(tape, earlier);
      CutOfRest(tape, earlier[|earlier| - 1], later[|later| - 1]);
    }
  }

  /** For cuts in order the one pass stops at the last cut of the whole tape. */
  lemma OrderedReplayIsOnePass(tape: Tape, earlier: seq<real>, later: seq<real>, order: Order)
    requires CutsSucceed(tape, earlier) && CutsSucceed(tape[Dropped(tape, earlier)..], later) && later != []
    requires InOrder(earlier + later) && BeforeOrder(earlier, order)
    ensures FillsLike(tape[Dropped(tape, earlier)..], later, order, tape, CutAt(tape, later[|later| - 1]))
  {
    WindowedReplayIsOnePass(tape, earlier, later, order);
    DroppedByBoth(tape, earlier, later);
  }

  // ---------- Comparing orders ----------

  /** An order that accepts every trade another accepts is filled no later. */
  lemma LooserFillsNoLater(tape: Tape, strict: Order, loose: Order)
    requires forall t: Trade :: strict.Fills(t) ==> loose.Fills(t)
    ensures FirstFill(tape, loose) <= FirstFill(tape, strict)
  {
    var k := FirstFill(tape, strict);
    if k < |tape| { assert loose.Fills(tape[k]); }
  }

  lemma BetterLimitsFillNoLater(tape: Tape, submittedAt: real, limit: real, limit': real)
    requires limit <= limit'
    ensures FirstFill(tape, LimitBuy(submittedAt, limit')) <= FirstFill(tape, LimitBuy(submittedAt, limit))
    ensures FirstFill(tape, LimitSell(submittedAt, limit)) <= FirstFill(tape, LimitSell(submittedAt, limit'))
    ensures FirstFill(tape, Market(submittedAt)) <= FirstFill(tape, LimitBuy(submittedAt, limit))
    ensures FirstFill(tape, Market(submittedAt)) <= FirstFill(tape, LimitSell(submittedAt, limit))
  {
    LooserFillsNoLater(tape, LimitBuy(submittedAt, limit), LimitBuy(submittedAt, limit'));
    LooserFillsNoLater(tape, LimitSell(submittedAt, limit'), LimitSell(submittedAt, limit));
    LooserFillsNoLater(tape, LimitBuy(submittedAt, limit), Market(submittedAt));
    LooserFillsNoLater(tape, LimitSell(submittedAt, limit), Market(submittedAt));
  }
}
