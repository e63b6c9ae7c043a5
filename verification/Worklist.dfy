/** The worklist that grows while it is walked, and the removal loop after it. */
module Worklist {

  class Notif {
    const time: int

    constructor (time: int)
      ensures this.time == time
    {
      this.time := time;
    }
  }

  predicate Spawns(time: int) {
    time % 2 == 0 && time < 300
  }

  /** A notification time and all the times that follow from it. */
  function Chain(time: int): (r: seq<int>)
    ensures |r| >= 1
    decreases if time < 300 then 300 - time else 0
  {
    [time] + if Spawns(time) then Chain(time + 50) else []
  }

  /** In closed form: an even time under 300 is followed every 50 up to the first time
      from 300 on, any other time by nothing. */
  lemma {:induction false} ChainIs(time: int)
    ensures forall i :: 0 <= i < |Chain(time)| ==> Chain(time)[i] == time + 50 * i
    ensures var last := time + 50 * (|Chain(time)| - 1);
            if time % 2 == 0 && time < 300 then 300 <= last < 350 else last == time
    decreases if time < 300 then 300 - time else 0
  {
    if Spawns(time) {
      ChainIs(time + 50);
      assert (time + 50) % 2 == 0;
      assert forall i :: 0 < i < |Chain(time)| ==> Chain(time)[i] == Chain(time + 50)[i - 1];
    }
  }

  function Times(list: seq<Notif>): (r: seq<int>)
    ensures |r| == |list|
    ensures forall i :: 0 <= i < |r| ==> r[i] == list[i].time
  {
    seq(|list|, i requires 0 <= i < |list| => list[i].time)
  }

  function Occurrences(s: seq<int>, v: int): nat {
    if s == [] then 0 else (if s[0] == v then 1 else 0) + Occurrences(s[1..], v)
  }

  /** How often a time occurs in the chains of a list of times. */
  function Due(times: seq<int>, v: int): nat {
    if times == [] then 0 else Occurrences(Chain(times[0]), v) + Due(times[1..], v)
  }

  /** How many notifications are still to be processed. */
  function WorkLeft(times: seq<int>): nat {
    if times == [] then 0 else |Chain(times[0])| + WorkLeft(times[1..])
  }

  lemma {:induction false} OccurrencesSnoc(s: seq<int>, x: int, v: int)
    ensures Occurrences(s + [x], v) == Occurrences(s, v) + if x == v then 1 else 0
  {
    if s == [] {
      assert (s + [x])[1..] == [];
    } else {
      OccurrencesSnoc(s[1..], x, v);
      assert (s + [x])[1..] == s[1..] + [x];
    }
  }

  lemma {:induction false} WorkSnoc(times: seq<int>, x: int, v: int)
    ensures Due(times + [x], v) == Due(times, v) + Occurrences(Chain(x), v)
    ensures WorkLeft(times + [x]) == WorkLeft(times) + |Chain(x)|
  {
    if times == [] {
      assert (times + [x])[1..] == [];
    } else {
      WorkSnoc(times[1..], x, v);
      assert (times + [x])[1..] == times[1..] + [x];
    }
  }

  function Follow(time: int): seq<int> {
    if Spawns(time) then [time + 50] else []
  }

  /** Processing the head leaves as much work as there was, less the head. */
  lemma WorkStep(done: seq<int>, time: int, rest: seq<int>, v: int)
    ensures Occurrences(done, v) + Due([time] + rest, v)
            == Occurrences(done + [time], v) + Due(rest + Follow(time), v)
    ensures WorkLeft(rest + Follow(time)) < WorkLeft([time] + rest)
  {
    assert ([time] + rest)[1..] == rest;
    OccurrencesSnoc(done, time, v);
    if Spawns(time) {
      assert Chain(time)[1..] == Chain(time + 50);
      WorkSnoc(rest, time + 50, v);
    } else {
      assert Chain(time) == [time];
      assert Occurrences(Chain(time), v) == if time == v then 1 else 0;
      assert rest + Follow(time) == rest;
    }
  }

  /** What has been visited and what is still due make up what was due at first. */
  ghost predicate Accounted(done: seq<int>, left: seq<int>, start: seq<int>) {
    forall v :: Occurrences(done, v) + Due(left, v) == Due(start, v)
  }

  lemma AccountStep(done: seq<int>, time: int, rest: seq<int>, start: seq<int>)
    requires Accounted(done, [time] + rest, start)
    ensures Accounted(done + [time], rest + Follow(time), start)
    ensures WorkLeft(rest + Follow(time)) < WorkLeft([time] + rest)
  {
    forall v
      ensures Occurrences(done + [time], v) + Due(rest + Follow(time), v) == Due(start, v)
    {
      WorkStep(done, time, rest, v);
    }
    WorkStep(done, time, rest, time);
  }

  /** One turn of the walk, on the list before and after it. */
  lemma ListStep(before: seq<Notif>, after: seq<Notif>, i: nat, start: seq<int>)
    requires i < |before| && before <= after && Times(after[|before|..]) == Follow(before[i].time)
    requires Accounted(Times(before[..i]), Times(before[i..]), start)
    ensures Accounted(Times(after[..i + 1]), Times(after[i + 1..]), start)
    ensures WorkLeft(Times(after[i + 1..])) < WorkLeft(Times(before[i..]))
  {
    var time := before[i].time;
    assert Times(before[i..]) == [time] + Times(before[i + 1..]);
    AccountStep(Times(before[..i]), time, Times(before[i + 1..]), start);
    assert after[..i + 1] == before[..i] + [before[i]];
    assert Times(after[..i + 1]) == Times(before[..i]) + [time];
    assert after[i + 1..] == before[i + 1..] + after[|before|..];
    assert Times(after[i + 1..]) == Times(before[i + 1..]) + Follow(time);
  }

  class OpenOrders {
    var openOrders: seq<Notif>

    constructor (orders: seq<Notif>)
      ensures openOrders == orders
    {
      openOrders := orders;
    }

    method ProcessMessage(notif: Notif)
      modifies this
      ensures old(openOrders) <= openOrders
      ensures Times(openOrders[|old(openOrders)|..]) == Follow(notif.time)
      ensures forall n :: n in openOrders[|old(openOrders)|..] ==> fresh(n)
    {
      if notif.time % 2 == 0 && notif.time < 300 {
        var spawned := new Notif(notif.time + 50);
        openOrders := openOrders + [spawned];
        assert openOrders[|old(openOrders)|..] == [spawned];
      }
    }

    /** Python's remove: the first equal element goes. */
    method Remove(notif: Notif)
      requires notif in openOrders
      modifies this
      ensures exists i :: 0 <= i < |old(openOrders)| && old(openOrders)[i] == notif && notif !in old(openOrders)[..i]
                          && openOrders == old(openOrders)[..i] + old(openOrders)[i + 1..]
    {
      var i := 0;
      while openOrders[i] != notif
        invariant 0 <= i < |openOrders|
        invariant forall j :: 0 <= j < i ==> openOrders[j] != notif
        decreases |openOrders| - i
      {
        assert exists j :: 0 <= j < |openOrders| && openOrders[j] == notif;
        i := i + 1;
      }
      openOrders := openOrders[..i] + openOrders[i + 1..];
    }

    /** The walk over the list while it grows. It ends for every initial list, visits
        each notification that is ever on the list once and in list order, and the
        times visited are the chains of the initial times. */
    method Walk() returns (todel: seq<Notif>)
      modifies this
      ensures old(openOrders) <= openOrders == todel
      ensures forall v :: Occurrences(Times(todel), v) == Due(Times(old(openOrders)), v)
    {
      todel := [];
      var i := 0;
      while i < |openOrders|
        invariant 0 <= i <= |openOrders| && todel == openOrders[..i]
        invariant old(openOrders) <= openOrders
        invariant Accounted(Times(openOrders[..i]), Times(openOrders[i..]), Times(old(openOrders)))
        decreases WorkLeft(Times(openOrders[i..]))
      {
        ghost var before := openOrders;
        var notif := openOrders[i];
        ProcessMessage(notif);
        ListStep(before, openOrders, i, Times(old(openOrders)));
        todel := todel + [notif];
        i := i + 1;
      }
      assert openOrders[i..] == [];
    }

    /** The walk, then the removals: nothing is left on the list. */
    method Drain() returns (visited: seq<Notif>)
      modifies this
      ensures old(openOrders) <= visited
      ensures forall v :: Occurrences(Times(visited), v) == Due(Times(old(openOrders)), v)
      ensures openOrders == []
    {
      visited := Walk();
      var k := 0;
      while k < |visited|
        invariant 0 <= k <= |visited| && openOrders == visited[k..]
      {
        Remove(visited[k]);
        k := k + 1;
      }
    }
  }
}
