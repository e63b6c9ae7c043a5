/** Bars built from a stream of items: a bar is updated in place by unconfirmed
    items and closed by a confirmed one. */
module Bars {

  datatype Item = Item(time: real, confirmed: bool, close: real)

  datatype RecordType = BAR | TRADE | CBAR

  datatype State = State(times: seq<real>, bars: seq<Item>, nextnew: bool)

  /** An item updates the last slot only after one has been appended. */
  predicate Ready(s: State) {
    s.nextnew || (s.times != [] && s.bars != [])
  }

  function TakeItem(s: State, item: Item): (r: State)
    requires Ready(s)
    ensures Ready(r)
  {
    if s.nextnew then
      State(s.times + [item.time], s.bars + [item], false)
    else
      State(s.times[|s.times| - 1 := item.time], s.bars[|s.bars| - 1 := item], item.confirmed)
  }

  function TakeAll(s: State, items: seq<Item>): (r: State)
    requires Ready(s)
    ensures Ready(r)
    decreases |items|
  {
    if items == [] then s else TakeAll(TakeItem(s, items[0]), items[1..])
  }

  const START := State([], [], true)

  class BarState {
    const rectype: RecordType
    var times: seq<real>
    var bars: seq<Item>
    var nextnew: bool

    ghost function Abs(): State
      reads this
    {
      State(times, bars, nextnew)
    }

    constructor (rectype: RecordType)
      ensures this.rectype == rectype && Abs() == START
    {
      this.rectype := rectype;
      times, bars, nextnew := [], [], true;
    }

    method PopulateIndicatorTime(item: Item)
      requires Ready(Abs())
      modifies this
      ensures rectype == CBAR ==> Abs() == TakeItem(old(Abs()), item)
      ensures rectype == BAR ==> Abs() == old(Abs()).(times := old(times) + [item.time])
      ensures rectype == TRADE ==> Abs() == old(Abs())
    {
      if rectype == BAR {
        times := times + [item.time];
      } else if rectype == CBAR {
        if nextnew {
          times := times + [item.time];
          bars := bars + [item];
          nextnew := false;
        } else if !item.confirmed {
          times := times[|times| - 1 := item.time];
          bars := bars[|bars| - 1 := item];
        } else {
          times := times[|times| - 1 := item.time];
          bars := bars[|bars| - 1 := item];
          nextnew := true;
        }
      }
    }
  }

  // ---------- Any stream ----------

  ghost predicate InStep(s: State) {
    |s.times| == |s.bars| && forall i :: 0 <= i < |s.bars| ==> s.times[i] == s.bars[i].time
  }

  /** On any stream the two lists run in step and end with the latest item. */
  lemma {:induction false} ListsStayInStep(s: State, items: seq<Item>)
    requires Ready(s) && InStep(s)
    ensures var r := TakeAll(s, items);
            && InStep(r)
            && (items != [] ==> r.bars != [] && r.bars[|r.bars| - 1] == items[|items| - 1])
    decreases |items|
  {
    if items == [] {
    } else {
      ListsStayInStep(TakeItem(s, items[0]), items[1..]);
    }
  }

  // ---------- Streams of bars ----------

  /** A bar's items: any number unconfirmed, then one confirmed. */
  predicate IsBar(items: seq<Item>) {
    items != [] && forall i :: 0 <= i < |items| ==> (items[i].confirmed <==> i == |items| - 1)
  }

  function Concat(bars: seq<seq<Item>>): seq<Item> {
    if bars == [] then [] else Concat(bars[..|bars| - 1]) + bars[|bars| - 1]
  }

  function Closings(bars: seq<seq<Item>>): (r: seq<Item>)
    requires forall b :: b in bars ==> IsBar(b)
    ensures |r| == |bars|
  {
    if bars == [] then [] else
      var last := bars[|bars| - 1];
      assert IsBar(last);
      Closings(bars[..|bars| - 1]) + [last[|last| - 1]]
  }

  lemma {:induction false} TakeAllAppend(s: State, a: seq<Item>, b: seq<Item>)
    requires Ready(s)
    ensures TakeAll(s, a + b) == TakeAll(TakeAll(s, a), b)
    decreases |a|
  {
    if a == [] {
      assert a + b == b;
    } else {
      TakeAllAppend(TakeItem(s, a[0]), a[1..], b);
      assert (a + b)[1..] == a[1..] + b;
    }
  }

  /** The rest of a bar, once its slot exists. */
  lemma {:induction false} RestOfBar(s: State, items: seq<Item>)
    requires Ready(s) && !s.nextnew && IsBar(items)
    ensures var r := TakeAll(s, items);
            r.nextnew && r.bars == s.bars[|s.bars| - 1 := items[|items| - 1]]
    decreases |items|
  {
    if |items| > 1 {
      RestOfBar(TakeItem(s, items[0]), items[1..]);
    } else {
      assert items[1..] == [];
    }
  }

  /** A bar met with `nextnew` gets its own slot; only one of a single item leaves
      that slot open. */
  lemma WholeBar(s: State, items: seq<Item>)
    requires Ready(s) && s.nextnew && IsBar(items)
    ensures var r := TakeAll(s, items);
            r.bars == s.bars + [items[|items| - 1]] && (r.nextnew <==> |items| >= 2)
  {
    var t := TakeItem(s, items[0]);
    if |items| >= 2 {
      RestOfBar(t, items[1..]);
    } else {
      assert items[1..] == [];
    }
  }

  ghost predicate UnconfirmedFirst(bars: seq<seq<Item>>) {
    forall i :: 0 <= i < |bars| - 1 ==> |bars[i]| >= 2
  }

  lemma {:induction false} BarByBar(bars: seq<seq<Item>>)
    requires forall b :: b in bars ==> IsBar(b)
    ensures var r := TakeAll(START, Concat(bars));
            && |r.bars| <= |bars|
            && (UnconfirmedFirst(bars) ==>
                  r.bars == Closings(bars) && (r.nextnew <==> bars == [] || |bars[|bars| - 1]| >= 2))
            && (!UnconfirmedFirst(bars) ==> |r.bars| < |bars|)
  {
    if bars == [] {
    } else {
      var init, last := bars[..|bars| - 1], bars[|bars| - 1];
      BarByBar(init);
      assert last in bars;
      var s := TakeAll(START, Concat(init));
      TakeAllAppend(START, Concat(init), last);
      if s.nextnew {
        WholeBar(s, last);
      } else {
        RestOfBar(s, last);
      }
      assert forall i :: 0 <= i < |init| ==> init[i] == bars[i];
      if UnconfirmedFirst(bars) {
        assert forall i :: 0 <= i < |init| ==> |init[i]| >= 2;
      }
    }
  }

  /** What is stored refines the grouping exactly when every bar before the last
      one has an unconfirmed item: a bar of one confirmed item leaves its slot open,
      and the next bar overwrites it. */
  lemma StoredBarsAreClosingsIff(bars: seq<seq<Item>>)
    requires forall b :: b in bars ==> IsBar(b)
    ensures TakeAll(START, Concat(bars)).bars == Closings(bars) <==> UnconfirmedFirst(bars)
  {
    BarByBar(bars);
  }
}
