/** The order matching of the backtester: a limit order fills on a run of
    consecutive trades, over a tape that is trimmed after every call. */
module Backtest {
  import opened Outcomes
  import opened FillMatching

  datatype FillCondition = FAST | SLOW

  /** The configuration: how many trades in a row a limit order needs, the two
      delays, and whether a trade at the limit itself counts. */
  datatype Settings = Settings(
    required: int, subToFill: real, limitOffset: real, buyLimit: FillCondition, sellLimit: FillCondition)

  /** May this trade count towards filling the order? */
  predicate Eligible(c: Settings, o: Order, t: Trade) {
    match o
    case LimitBuy(submittedAt, limit) =>
      && t.time > submittedAt + c.subToFill + c.limitOffset
      && (if c.buyLimit == FAST then t.price <= limit else t.price < limit)
    case LimitSell(submittedAt, limit) =>
      && t.time > submittedAt + c.subToFill + c.limitOffset
      && (if c.sellLimit == FAST then t.price >= limit else t.price > limit)
    case Market(submittedAt) => t.time > submittedAt + c.subToFill
  }

  /** Trades in a row that the order needs. */
  function Needed(c: Settings, o: Order): int {
    if o.Market? then 1 else c.required
  }

  /** Trade `i` completes a run. */
  ghost predicate Completes(tape: Tape, c: Settings, o: Order, i: nat) {
    && i < |tape| && 1 <= Needed(c, o) <= i + 1
    && forall j :: i - Needed(c, o) < j <= i ==> Eligible(c, o, tape[j])
  }

  /** Trade `k` is the first to complete a run; the length of the tape if none does. */
  ghost predicate IsFirst(tape: Tape, c: Settings, o: Order, k: nat) {
    && k <= |tape|
    && (forall i :: 0 <= i < k ==> !Completes(tape, c, o, i))
    && (k < |tape| ==> Completes(tape, c, o, k))
  }

  // ---------- The scan ----------

  /** The scan from trade `i` on, with `count` eligible trades in a row before it. */
  function ScanFrom(tape: Tape, c: Settings, o: Order, i: nat, count: nat): (k: nat)
    requires i <= |tape|
    ensures i <= k <= |tape|
    decreases |tape| - i
  {
    if i == |tape| then i
    else if !Eligible(c, o, tape[i]) then ScanFrom(tape, c, o, i + 1, 0)
    else if count + 1 == Needed(c, o) then i
    else ScanFrom(tape, c, o, i + 1, count + 1)
  }

  /** The `count` trades before `i` are eligible, the one before them is not. */
  ghost predicate Streak(tape: Tape, c: Settings, o: Order, i: nat, count: nat) {
    && count <= i <= |tape|
    && (forall j :: i - count <= j < i ==> Eligible(c, o, tape[j]))
    && (count < i ==> !Eligible(c, o, tape[i - count - 1]))
  }

  lemma StreakGrows(tape: Tape, c: Settings, o: Order, i: nat, count: nat)
    requires i < |tape| && Streak(tape, c, o, i, count) && (Needed(c, o) >= 1 ==> count < Needed(c, o))
    ensures Completes(tape, c, o, i) <==> Eligible(c, o, tape[i]) && count + 1 == Needed(c, o)
    ensures Streak(tape, c, o, i + 1, if Eligible(c, o, tape[i]) then count + 1 else 0)
  {
    if count + 1 < Needed(c, o) <= i + 1 {
      var j := i - count - 1;
      assert i - Needed(c, o) < j <= i && !Eligible(c, o, tape[j]);
    }
  }

  lemma {:induction false} ScanFindsFirst(tape: Tape, c: Settings, o: Order, i: nat, count: nat)
    requires i <= |tape| && Streak(tape, c, o, i, count) && (Needed(c, o) >= 1 ==> count < Needed(c, o))
    requires forall k :: 0 <= k < i ==> !Completes(tape, c, o, k)
    ensures IsFirst(tape, c, o, ScanFrom(tape, c, o, i, count))
    decreases |tape| - i
  {
    if i < |tape| {
      StreakGrows(tape, c, o, i, count);
      if !Completes(tape, c, o, i) {
        ScanFindsFirst(tape, c, o, i + 1, if Eligible(c, o, tape[i]) then count + 1 else 0);
      }
    }
  }

  /** Where the order fills on a tape. */
  function FillIndex(tape: Tape, c: Settings, o: Order): (k: nat)
    ensures k <= |tape|
    ensures IsFirst(tape, c, o, k)
  {
    assert Streak(tape, c, o, 0, 0);
    ScanFindsFirst(tape, c, o, 0, 0);
    ScanFrom(tape, c, o, 0, 0)
  }

  function FillOn(tape: Tape, c: Settings, o: Order): Option<Trade> {
    var k := FillIndex(tape, c, o);
    if k < |tape| then Some(tape[k]) else None
  }

  lemma FirstIsUnique(tape: Tape, c: Settings, o: Order, k: nat, k': nat)
    requires IsFirst(tape, c, o, k) && IsFirst(tape, c, o, k')
    ensures k == k'
  {
  }

  /** The loop over a window, with its counter of consecutive trades. */
  method ScanForRun(workRange: Tape, c: Settings, o: Order) returns (fill: Option<Trade>)
    ensures fill == FillOn(workRange, c, o)
  {
    var consecCnt := 0;
    var i := 0;
    while i < |workRange|
      invariant 0 <= i <= |workRange| && consecCnt >= 0
      invariant ScanFrom(workRange, c, o, i, consecCnt) == FillIndex(workRange, c, o)
    {
      if Eligible(c, o, workRange[i]) {
        consecCnt := consecCnt + 1;
        if consecCnt == Needed(c, o) {
          return Some(workRange[i]);
        }
      } else {
        consecCnt := 0;
      }
      i := i + 1;
    }
    return None;
  }

  // ---------- One call ----------

  function DelToIndex(c: Settings, indexEnd: nat): nat {
    if indexEnd - 2 - c.required > 0 then indexEnd - 2 - c.required else 0
  }

  /** Python's del s[0:n]. */
  function Deleted(tape: Tape, n: nat): (left: Tape)
    ensures |left| == if n < |tape| then |tape| - n else 0
  {
    if n < |tape| then tape[n..] else []
  }

  predicate TooSoon(c: Settings, o: Order, intime: real) {
    o.submittedAt + c.subToFill > intime
  }

  /** The tape that a call at `intime` leaves. On a tape in the order of time
      bisect_left finds the first trade at or after `intime`. */
  function LeftBy(tape: Tape, c: Settings, intime: real): (left: Tape)
    ensures |left| <= |tape|
  {
    Deleted(tape, DelToIndex(c, CutAt(tape, intime)))
  }

  /** The fill that a call at `intime` finds for an open order. */
  function Execute(tape: Tape, c: Settings, o: Order, intime: real): Option<Trade> {
    if TooSoon(c, o, intime) then None else FillOn(tape[..CutAt(tape, intime)], c, o)
  }

  class Backtester {
    const c: Settings
    var btdata: Tape

    constructor (c: Settings, btdata: Tape)
      ensures this.c == c && this.btdata == btdata
    {
      this.c, this.btdata := c, btdata;
    }

    /** One call for the open orders: each is tried on the same part of the tape, which
        is trimmed after the last. Without open orders nothing happens. */
    method ExecuteOrders(openOrders: seq<Order>, intime: real) returns (fills: seq<Option<Trade>>)
      modifies this
      ensures |fills| == |openOrders|
      ensures forall i :: 0 <= i < |openOrders| ==> fills[i] == Execute(old(btdata), c, openOrders[i], intime)
      ensures btdata == if openOrders == [] then old(btdata) else LeftBy(old(btdata), c, intime)
    {
      fills := [];
      if |openOrders| == 0 {
        return;
      }
      var indexEnd := CutAt(btdata, intime);
      var workRange := btdata[..indexEnd];
      for k := 0 to |openOrders|
        invariant |fills| == k && btdata == old(btdata)
        invariant forall i :: 0 <= i < k ==> fills[i] == Execute(btdata, c, openOrders[i], intime)
      {
        var fill := None;
        if !TooSoon(c, openOrders[k], intime) {
          fill := ScanForRun(workRange, c, openOrders[k]);
        }
        fills := fills + [fill];
      }
      var delToIndex := indexEnd - 2 - c.required;
      if delToIndex < 0 {
        delToIndex := 0;
      }
      btdata := Deleted(btdata, delToIndex);
    }
  }

  // ---------- Windows and the whole tape ----------

  /** With the first `g` trades of the tape deleted, what a call leaves deleted. */
  function DeletedAfter(tape: Tape, c: Settings, g: nat, time: real): (g': nat)
    requires g <= |tape|
    ensures g' <= |tape|
  {
    |tape| - |LeftBy(tape[g..], c, time)|
  }

  lemma LeftIsSuffix(tape: Tape, c: Settings, g: nat, time: real)
    requires g <= |tape|
    ensures LeftBy(tape[g..], c, time) == tape[DeletedAfter(tape, c, g, time)..]
  {
    var n := DelToIndex(c, CutAt(tape[g..], time));
    assert n < |tape| - g ==> tape[g..][n..] == tape[g + n..];
  }

  /** Calls at `times` for other orders. */
  function DeletedBy(tape: Tape, c: Settings, g: nat, times: seq<real>): (g': nat)
    requires g <= |tape|
    ensures g' <= |tape|
    decreases |times|
  {
    if times == [] then g else DeletedBy(tape, c, DeletedAfter(tape, c, g, times[0]), times[1..])
  }

  /** Calls at `times` while the order is open, until one fills it. */
  function FilledBy(tape: Tape, c: Settings, o: Order, g: nat, times: seq<real>): Option<Trade>
    requires g <= |tape|
    decreases |times|
  {
    if times == [] then None
    else
      var fill := Execute(tape[g..], c, o, times[0]);
      if fill.Some? then fill else FilledBy(tape, c, o, DeletedAfter(tape, c, g, times[0]), times[1..])
  }

  /** Runs of a window are runs of the tape, and the other way round if they begin
      inside it. */
  lemma CompletesInWindow(tape: Tape, c: Settings, o: Order, g: nat, e: nat, i: nat)
    requires g <= e <= |tape| && g <= i < e
    ensures Completes(tape[g..e], c, o, i - g) <==> Completes(tape, c, o, i) && i - Needed(c, o) + 1 >= g
  {
    var window := tape[g..e];
    assert forall j :: 0 <= j < |window| ==> window[j] == tape[g + j];
    if Completes(window, c, o, i - g) {
      forall j | i - Needed(c, o) < j <= i
        ensures Eligible(c, o, tape[j])
      {
        assert window[j - g] == tape[j];
      }
    }
  }

  /** No run is complete before `e`, and none that completes later begins before `g`. */
  ghost predicate NothingLost(tape: Tape, c: Settings, o: Order, g: nat, e: nat) {
    && g <= e <= |tape|
    && (forall i :: 0 <= i < e ==> !Completes(tape, c, o, i))
    && (forall i :: e <= i < |tape| && Completes(tape, c, o, i) ==> i - Needed(c, o) + 1 >= g)
  }

  lemma PrefixCompletes(tape: Tape, c: Settings, o: Order, e: nat, i: nat)
    requires i < e <= |tape|
    ensures Completes(tape[..e], c, o, i) <==> Completes(tape, c, o, i)
  {
    CompletesInWindow(tape, c, o, 0, e, i);
    assert tape[0..e] == tape[..e];
  }

  /** Scanning the next window gives the first fill of the tape up to its end. */
  lemma WindowFill(tape: Tape, c: Settings, o: Order, g: nat, e: nat, e': nat)
    requires NothingLost(tape, c, o, g, e) && e <= e' <= |tape|
    ensures FillOn(tape[g..e'], c, o) == FillOn(tape[..e'], c, o)
  {
    var k := FillIndex(tape[g..e'], c, o);
    forall i | 0 <= i < e'
      ensures Completes(tape[..e'], c, o, i) <==> Completes(tape, c, o, i)
    {
      PrefixCompletes(tape, c, o, e', i);
    }
    forall i | g <= i < e'
      ensures Completes(tape[g..e'], c, o, i - g) <==> Completes(tape, c, o, i)
    {
      CompletesInWindow(tape, c, o, g, e', i);
    }
    forall i | 0 <= i < g + k
      ensures !Completes(tape[..e'], c, o, i)
    {
      if i >= g { assert !Completes(tape[g..e'], c, o, i - g); }
    }
    assert k < e' - g ==> Completes(tape[g..e'], c, o, (g + k) - g);
    FirstIsUnique(tape[..e'], c, o, g + k, FillIndex(tape[..e'], c, o));
  }

  /** A fill found on a prefix is the fill of every longer prefix. */
  lemma FillStays(tape: Tape, c: Settings, o: Order, e: nat, e': nat)
    requires e <= e' <= |tape| && FillOn(tape[..e], c, o).Some?
    ensures FillOn(tape[..e'], c, o) == FillOn(tape[..e], c, o)
  {
    var k := FillIndex(tape[..e], c, o);
    forall i | 0 <= i <= k
      ensures Completes(tape[..e'], c, o, i) <==> Completes(tape[..e], c, o, i)
    {
      PrefixCompletes(tape, c, o, e, i);
      PrefixCompletes(tape, c, o, e', i);
    }
    FirstIsUnique(tape[..e'], c, o, k, FillIndex(tape[..e'], c, o));
  }

  lemma NoFillNoRun(tape: Tape, c: Settings, o: Order, e: nat)
    requires e <= |tape|
    ensures FillOn(tape[..e], c, o).None? <==> forall i :: 0 <= i < e ==> !Completes(tape, c, o, i)
  {
    forall i | 0 <= i < e
      ensures Completes(tape[..e], c, o, i) <==> Completes(tape, c, o, i)
    {
      PrefixCompletes(tape, c, o, e, i);
    }
  }

  /** The limit delay is not negative, and the trimming of a replay with market orders
      does not go past the time of the call. */
  predicate Sensible(c: Settings, o: Order) {
    c.limitOffset >= 0.0 && (o.Market? ==> c.required >= -2)
  }

  /** The test for orders that are too young changes nothing: no trade of the window
      is eligible then. */
  lemma TooSoonFindsNothing(tape: Tape, c: Settings, o: Order, intime: real)
    requires Sensible(c, o) && TooSoon(c, o, intime)
    ensures FillOn(tape[..CutAt(tape, intime)], c, o) == None
  {
    var e := CutAt(tape, intime);
    forall i | 0 <= i < e
      ensures !Completes(tape, c, o, i)
    {
      assert !Eligible(c, o, tape[i]);
    }
    NoFillNoRun(tape, c, o, e);
  }

  /** And it is a test of its own: an order younger than the delay finds nothing. */
  lemma YoungOrdersWait(tape: Tape, c: Settings, o: Order, intime: real)
    requires intime - o.submittedAt < c.subToFill
    ensures Execute(tape, c, o, intime) == None
  {
  }

  lemma CallDeletes(tape: Tape, c: Settings, g: nat, time: real)
    requires g <= CutAt(tape, time) && c.required >= -2
    ensures DeletedAfter(tape, c, g, time) == g + DelToIndex(c, CutAt(tape, time) - g) <= CutAt(tape, time)
  {
    CutOfSuffix(tape, g, time);
  }

  /** What a call finds on a tape that has lost its first `g` trades, none of which a
      run still needs. */
  lemma CallOnRest(tape: Tape, c: Settings, o: Order, g: nat, e: nat, intime: real)
    requires Sensible(c, o) && NothingLost(tape, c, o, g, e) && e <= CutAt(tape, intime)
    ensures Execute(tape[g..], c, o, intime) == FilledUpTo(tape, c, o, intime)
  {
    CutOfSuffix(tape, g, intime);
    WindowFill(tape, c, o, g, e, CutAt(tape, intime));
    if TooSoon(c, o, intime) {
      TooSoonFindsNothing(tape, c, o, intime);
    }
  }

  lemma CallLosesNothing(tape: Tape, c: Settings, o: Order, g: nat, e: nat, intime: real)
    requires NothingLost(tape, c, o, g, e) && e <= CutAt(tape, intime) && Sensible(c, o) && Needed(c, o) >= 1
    requires FilledUpTo(tape, c, o, intime).None?
    ensures NothingLost(tape, c, o, DeletedAfter(tape, c, g, intime), CutAt(tape, intime))
  {
    CallDeletes(tape, c, g, intime);
    NoFillNoRun(tape, c, o, CutAt(tape, intime));
  }

  lemma InOrderRest(times: seq<real>)
    requires InOrder(times) && times != []
    ensures times[0] <= times[|times| - 1] && InOrder(times[1..])
    ensures |times| > 1 ==> times[0] <= times[1] && times[1..][|times| - 2] == times[|times| - 1]
  {
  }

  function FilledUpTo(tape: Tape, c: Settings, o: Order, time: real): Option<Trade> {
    FillOn(tape[..CutAt(tape, time)], c, o)
  }

  /** The calls at `times` fill the order as one pass over the tape up to the last of
      them does. */
  ghost predicate FillsLikeOnePass(tape: Tape, c: Settings, o: Order, g: nat, times: seq<real>)
    requires g <= |tape| && times != []
  {
    FilledBy(tape, c, o, g, times) == FilledUpTo(tape, c, o, times[|times| - 1])
  }

  lemma FirstCallFills(tape: Tape, c: Settings, o: Order, g: nat, times: seq<real>)
    requires g <= |tape| && times != [] && times[0] <= times[|times| - 1]
    requires Execute(tape[g..], c, o, times[0]) == FilledUpTo(tape, c, o, times[0])
    requires FilledUpTo(tape, c, o, times[0]).Some? || |times| == 1
    ensures FillsLikeOnePass(tape, c, o, g, times)
  {
    CutsGrow(tape, times[0], times[|times| - 1]);
    if FilledUpTo(tape, c, o, times[0]).Some? {
      FillStays(tape, c, o, CutAt(tape, times[0]), CutAt(tape, times[|times| - 1]));
    }
  }

  lemma LaterCallFills(tape: Tape, c: Settings, o: Order, g: nat, times: seq<real>)
    requires g <= |tape| && |times| > 1 && Execute(tape[g..], c, o, times[0]).None?
    requires FillsLikeOnePass(tape, c, o, DeletedAfter(tape, c, g, times[0]), times[1..])
    ensures FillsLikeOnePass(tape, c, o, g, times)
  {
    assert times[1..][|times| - 2] == times[|times| - 1];
  }

  lemma {:induction false} ReplayFrom(tape: Tape, c: Settings, o: Order, g: nat, e: nat, times: seq<real>)
    requires Sensible(c, o) && Needed(c, o) >= 1
    requires times != [] && InOrder(times)
    requires NothingLost(tape, c, o, g, e) && e <= CutAt(tape, times[0])
    ensures FillsLikeOnePass(tape, c, o, g, times)
    decreases |times|
  {
    InOrderRest(times);
    CallOnRest(tape, c, o, g, e, times[0]);
    if FilledUpTo(tape, c, o, times[0]).Some? || |times| == 1 {
      FirstCallFills(tape, c, o, g, times);
    } else {
      CallLosesNothing(tape, c, o, g, e, times[0]);
      CutsGrow(tape, times[0], times[1]);
      ReplayFrom(tape, c, o, DeletedAfter(tape, c, g, times[0]), CutAt(tape, times[0]), times[1..]);
      LaterCallFills(tape, c, o, g, times);
    }
  }

  lemma {:induction false} NeverFilled(tape: Tape, c: Settings, o: Order, g: nat, times: seq<real>)
    requires Needed(c, o) < 1 && g <= |tape|
    ensures FilledBy(tape, c, o, g, times) == None
    decreases |times|
  {
    if times == [] {
    } else {
      NeverFilled(tape, c, o, DeletedAfter(tape, c, g, times[0]), times[1..]);
    }
  }

  /** Calls delete trades before the last of them only. */
  lemma {:induction false} DeletedIsEarly(tape: Tape, c: Settings, g: nat, times: seq<real>)
    requires c.required >= -2 && InOrder(times) && times != [] && g <= CutAt(tape, times[0])
    ensures DeletedBy(tape, c, g, times) <= CutAt(tape, times[|times| - 1])
    decreases |times|
  {
    InOrderRest(times);
    CallDeletes(tape, c, g, times[0]);
    if |times| > 1 {
      CutsGrow(tape, times[0], times[1]);
      DeletedIsEarly(tape, c, DeletedAfter(tape, c, g, times[0]), times[1..]);
    }
  }

  ghost predicate BeforeFills(c: Settings, o: Order, times: seq<real>) {
    forall t :: t in times ==> t <= o.submittedAt + c.subToFill
  }

  lemma EarlyIsNotLost(tape: Tape, c: Settings, o: Order, g: nat, time: real)
    requires Sensible(c, o) && Needed(c, o) >= 1
    requires g <= CutAt(tape, time) && time <= o.submittedAt + c.subToFill
    ensures NothingLost(tape, c, o, g, g)
  {
    assert forall i :: 0 <= i < g ==> !Eligible(c, o, tape[i]);
    forall i | 0 <= i < g
      ensures !Completes(tape, c, o, i)
    {
      assert !Eligible(c, o, tape[i]);
    }
    assert g > 0 ==> !Eligible(c, o, tape[g - 1]);
  }

  lemma NeverFillsOn(tape: Tape, c: Settings, o: Order)
    requires Needed(c, o) < 1
    ensures FillOn(tape, c, o) == None
  {
  }

  lemma EarlierLoseNothing(tape: Tape, c: Settings, o: Order, earlier: seq<real>, later: seq<real>)
    requires Sensible(c, o) && Needed(c, o) >= 1
    requires InOrder(earlier) && BeforeFills(c, o, earlier)
    requires later != [] && (earlier != [] ==> earlier[|earlier| - 1] <= later[0])
    ensures var g := DeletedBy(tape, c, 0, earlier); NothingLost(tape, c, o, g, g) && g <= CutAt(tape, later[0])
  {
    if earlier != [] {
      var last := earlier[|earlier| - 1];
      assert last in earlier;
      DeletedIsEarly(tape, c, 0, earlier);
      CutsGrow(tape, last, later[0]);
      EarlyIsNotLost(tape, c, o, DeletedBy(tape, c, 0, earlier), last);
    }
  }

  /** The trimmed replay equals one pass over the whole tape: for calls in the order
      of time, on a tape already trimmed by calls made before the order could fill,
      an order is filled by the first run of trades of the whole tape that is
      complete before the last call, however many trades a run needs. */
  lemma TrimmedReplayIsOnePass(tape: Tape, c: Settings, o: Order, earlier: seq<real>, later: seq<real>)
    requires Sensible(c, o)
    requires later != [] && InOrder(earlier + later) && BeforeFills(c, o, earlier)
    ensures FillsLikeOnePass(tape, c, o, DeletedBy(tape, c, 0, earlier), later)
  {
    var g := DeletedBy(tape, c, 0, earlier);
    SplitInOrder(earlier, later);
    if Needed(c, o) < 1 {
      NeverFilled(tape, c, o, g, later);
      NeverFillsOn(tape[..CutAt(tape, later[|later| - 1])], c, o);
    } else {
      EarlierLoseNothing(tape, c, o, earlier, later);
      ReplayFrom(tape, c, o, g, g, later);
    }
  }

  /** A call keeps the last `required` and two more of the trades before its time, or all
      of them if there are fewer. */
  lemma CallKeeps(tape: Tape, c: Settings, intime: real)
    requires c.required >= -2
    ensures var left, e := LeftBy(tape, c, intime), CutAt(tape, intime);
            && CutAt(left, intime) == (if e > c.required + 2 then c.required + 2 else e)
            && |left| - CutAt(left, intime) == |tape| - e
  {
    var n := DelToIndex(c, CutAt(tape, intime));
    CutOfSuffix(tape, n, intime);
    if n == |tape| { assert tape[n..] == []; }
  }

  // ---------- The object over many calls ----------

  lemma NextCall(tape: Tape, c: Settings, o: Order, g: nat, times: seq<real>, i: nat)
    requires g <= |tape| && i < |times|
    ensures DeletedBy(tape, c, g, times[i..]) == DeletedBy(tape, c, DeletedAfter(tape, c, g, times[i]), times[i + 1..])
    ensures FilledBy(tape, c, o, g, times[i..])
            == var fill := Execute(tape[g..], c, o, times[i]);
               if fill.Some? then fill else FilledBy(tape, c, o, DeletedAfter(tape, c, g, times[i]), times[i + 1..])
  {
    assert times[i..][0] == times[i] && times[i..][1..] == times[i + 1..];
  }

  /** Calls for other orders; one without open orders leaves the tape alone and is left
      out of the list. */
  method CallFor(bt: Backtester, others: seq<seq<Order>>, times: seq<real>, ghost tape: Tape, ghost g: nat)
    requires |others| == |times| && forall i :: 0 <= i < |others| ==> others[i] != []
    requires g <= |tape| && bt.btdata == tape[g..]
    modifies bt
    ensures bt.btdata == tape[DeletedBy(tape, bt.c, g, times)..]
  {
    ghost var g': nat := g;
    assert times[0..] == times;
    for i := 0 to |times|
      invariant g' <= |tape| && bt.btdata == tape[g'..]
      invariant DeletedBy(tape, bt.c, g, times) == DeletedBy(tape, bt.c, g', times[i..])
    {
      var fills := bt.ExecuteOrders(others[i], times[i]);
      NextCall(tape, bt.c, Market(0.0), g', times, i);
      LeftIsSuffix(tape, bt.c, g', times[i]);
      g' := DeletedAfter(tape, bt.c, g', times[i]);
    }
  }

  /** Calls while the order is open, beside others, until one fills it. */
  method CallUntilFilled(bt: Backtester, o: Order, others: seq<seq<Order>>, times: seq<real>, ghost tape: Tape,
                         ghost g: nat) returns (fill: Option<Trade>)
    requires |others| == |times| && g <= |tape| && bt.btdata == tape[g..]
    modifies bt
    ensures fill == FilledBy(tape, bt.c, o, g, times)
  {
    ghost var g': nat := g;
    assert times[0..] == times;
    for i := 0 to |times|
      invariant g' <= |tape| && bt.btdata == tape[g'..]
      invariant FilledBy(tape, bt.c, o, g, times) == FilledBy(tape, bt.c, o, g', times[i..])
    {
      var open := [o] + others[i];
      var fills := bt.ExecuteOrders(open, times[i]);
      assert open[0] == o;
      NextCall(tape, bt.c, o, g', times, i);
      if fills[0].Some? {
        return fills[0];
      }
      LeftIsSuffix(tape, bt.c, g', times[i]);
      g' := DeletedAfter(tape, bt.c, g', times[i]);
    }
    return None;
  }

  /** So the object fills an order, placed after any calls for other orders, by the
      first complete run of the tape it started with. */
  method Replay(c: Settings, tape: Tape, o: Order, before: seq<seq<Order>>, earlier: seq<real>,
                beside: seq<seq<Order>>, later: seq<real>) returns (fill: Option<Trade>)
    requires |before| == |earlier| && (forall i :: 0 <= i < |before| ==> before[i] != []) && |beside| == |later|
    requires Sensible(c, o) && later != [] && InOrder(earlier + later) && BeforeFills(c, o, earlier)
    ensures fill == FilledUpTo(tape, c, o, later[|later| - 1])
  {
    var bt := new Backtester(c, tape);
    assert tape[0..] == tape;
    CallFor(bt, before, earlier, tape, 0);
    TrimmedReplayIsOnePass(tape, c, o, earlier, later);
    fill := CallUntilFilled(bt, o, beside, later, tape, DeletedBy(tape, c, 0, earlier));
  }

  // ---------- The prices of a fill ----------

  /** After the delays, and at the limit or on its better side; SLOW wants it better. */
  predicate BuysAt(c: Settings, submittedAt: real, limit: real, t: Trade) {
    && t.time - submittedAt > c.subToFill + c.limitOffset
    && (t.price < limit || (c.buyLimit == FAST && t.price == limit))
  }

  predicate SellsAt(c: Settings, submittedAt: real, limit: real, t: Trade) {
    && t.time - submittedAt > c.subToFill + c.limitOffset
    && (limit < t.price || (c.sellLimit == FAST && t.price == limit))
  }

  /** Trade `k` is the last of as many trades in a row as configured at which the buy
      counts. */
  ghost predicate BuyRun(tape: Tape, c: Settings, submittedAt: real, limit: real, k: nat) {
    && k < |tape| && 1 <= c.required <= k + 1
    && forall j :: k - c.required < j <= k ==> BuysAt(c, submittedAt, limit, tape[j])
  }

  ghost predicate SellRun(tape: Tape, c: Settings, submittedAt: real, limit: real, k: nat) {
    && k < |tape| && 1 <= c.required <= k + 1
    && forall j :: k - c.required < j <= k ==> SellsAt(c, submittedAt, limit, tape[j])
  }

  lemma BuyCompletes(tape: Tape, c: Settings, submittedAt: real, limit: real, i: nat)
    ensures Completes(tape, c, LimitBuy(submittedAt, limit), i) <==> BuyRun(tape, c, submittedAt, limit, i)
  {
    assert forall t :: Eligible(c, LimitBuy(submittedAt, limit), t) <==> BuysAt(c, submittedAt, limit, t);
  }

  lemma SellCompletes(tape: Tape, c: Settings, submittedAt: real, limit: real, i: nat)
    ensures Completes(tape, c, LimitSell(submittedAt, limit), i) <==> SellRun(tape, c, submittedAt, limit, i)
  {
    assert forall t :: Eligible(c, LimitSell(submittedAt, limit), t) <==> SellsAt(c, submittedAt, limit, t);
  }

  /** A limit buy is filled by the first trade to end such a run, and by none exactly
      when there is no run: never over its limit, and under it for SLOW. */
  lemma LimitBuyFills(tape: Tape, c: Settings, submittedAt: real, limit: real)
    ensures match FillOn(tape, c, LimitBuy(submittedAt, limit))
            case None => forall i: nat :: !BuyRun(tape, c, submittedAt, limit, i)
            case Some(t) =>
              exists k: nat :: && BuyRun(tape, c, submittedAt, limit, k) && t == tape[k]
                               && forall i: nat :: i < k ==> !BuyRun(tape, c, submittedAt, limit, i)
  {
    var o := LimitBuy(submittedAt, limit);
    forall i: nat
      ensures Completes(tape, c, o, i) <==> BuyRun(tape, c, submittedAt, limit, i)
    {
      BuyCompletes(tape, c, submittedAt, limit, i);
    }
    var k := FillIndex(tape, c, o);
    assert k < |tape| ==> BuyRun(tape, c, submittedAt, limit, k);
  }

  lemma LimitSellFills(tape: Tape, c: Settings, submittedAt: real, limit: real)
    ensures match FillOn(tape, c, LimitSell(submittedAt, limit))
            case None => forall i: nat :: !SellRun(tape, c, submittedAt, limit, i)
            case Some(t) =>
              exists k: nat :: && SellRun(tape, c, submittedAt, limit, k) && t == tape[k]
                               && forall i: nat :: i < k ==> !SellRun(tape, c, submittedAt, limit, i)
  {
    var o := LimitSell(submittedAt, limit);
    forall i: nat
      ensures Completes(tape, c, o, i) <==> SellRun(tape, c, submittedAt, limit, i)
    {
      SellCompletes(tape, c, submittedAt, limit, i);
    }
    var k := FillIndex(tape, c, o);
    assert k < |tape| ==> SellRun(tape, c, submittedAt, limit, k);
  }

  /** A market order takes the first trade after the delay, whatever the run length. */
  lemma MarketFills(tape: Tape, c: Settings, submittedAt: real)
    ensures var k := FillIndex(tape, c, Market(submittedAt));
            && (forall i :: 0 <= i < k ==> tape[i].time - submittedAt <= c.subToFill)
            && (k < |tape| ==> tape[k].time - submittedAt > c.subToFill)
  {
    var o := Market(submittedAt);
    forall i | 0 <= i < |tape|
      ensures Completes(tape, c, o, i) <==> tape[i].time - submittedAt > c.subToFill
    {
      assert Completes(tape, c, o, i) <==> Eligible(c, o, tape[i]);
    }
  }

  // ---------- Comparing settings ----------

  /** Needing fewer trades, and accepting more of them, never delays a fill. */
  lemma EasierFillsNoLater(tape: Tape, easy: Settings, easyOrder: Order, hard: Settings, hardOrder: Order)
    requires 1 <= Needed(easy, easyOrder) <= Needed(hard, hardOrder) || Needed(hard, hardOrder) < 1
    requires forall t: Trade :: Eligible(hard, hardOrder, t) ==> Eligible(easy, easyOrder, t)
    ensures FillIndex(tape, easy, easyOrder) <= FillIndex(tape, hard, hardOrder)
  {
    var k := FillIndex(tape, hard, hardOrder);
    if k < |tape| {
      assert Completes(tape, easy, easyOrder, k);
    }
  }

  /** A higher buy limit and a lower sell limit fill no later. */
  lemma BetterLimits(tape: Tape, c: Settings, submittedAt: real, limit: real, limit': real)
    requires limit <= limit'
    ensures FillIndex(tape, c, LimitBuy(submittedAt, limit')) <= FillIndex(tape, c, LimitBuy(submittedAt, limit))
    ensures FillIndex(tape, c, LimitSell(submittedAt, limit)) <= FillIndex(tape, c, LimitSell(submittedAt, limit'))
  {
    EasierFillsNoLater(tape, c, LimitBuy(submittedAt, limit'), c, LimitBuy(submittedAt, limit));
    EasierFillsNoLater(tape, c, LimitSell(submittedAt, limit), c, LimitSell(submittedAt, limit'));
  }

  /** In particular: FAST is no later than SLOW, and a run of fewer trades no later
      than a longer one. */
  lemma FasterSettings(tape: Tape, c: Settings, o: Order, fewer: int)
    requires 1 <= fewer <= c.required
    ensures FillIndex(tape, c.(buyLimit := FAST, sellLimit := FAST), o) <= FillIndex(tape, c, o)
    ensures FillIndex(tape, c.(required := fewer), o) <= FillIndex(tape, c, o)
  {
    EasierFillsNoLater(tape, c.(buyLimit := FAST, sellLimit := FAST), o, c, o);
    EasierFillsNoLater(tape, c.(required := fewer), o, c, o);
  }
}
