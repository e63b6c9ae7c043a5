/** The falling-series tests and the threshold crossings. */
module Detectors {
  import opened Outcomes
  import opened Sequences

  // ---------- Falling series ----------

  /** The first `n` values with each run of equal neighbours taken once. */
  function CollapseTo(pole: seq<real>, n: nat): (r: seq<real>)
    requires n <= |pole|
    ensures |r| <= n && (n > 0 ==> r != [] && r[|r| - 1] == pole[n - 1])
    ensures forall i :: 0 < i < |r| ==> r[i] != r[i - 1]
  {
    if n <= 1 then pole[..n]
    else if pole[n - 1] == pole[n - 2] then CollapseTo(pole, n - 1)
    else CollapseTo(pole, n - 1) + [pole[n - 1]]
  }

  function Collapse(pole: seq<real>): (r: seq<real>)
    ensures |r| <= |pole| && (pole != [] ==> r != [])
  {
    CollapseTo(pole, |pole|)
  }

  lemma {:induction false} CollapseOfPrefix(s: seq<real>, y: real, n: nat)
    requires n <= |s|
    ensures CollapseTo(s + [y], n) == CollapseTo(s, n)
  {
    if n <= 1 {
      assert (s + [y])[..n] == s[..n];
    } else {
      CollapseOfPrefix(s, y, n - 1);
    }
  }

  lemma CollapseSnoc(s: seq<real>, y: real)
    requires s != []
    ensures Collapse(s + [y]) == if y == s[|s| - 1] then Collapse(s) else Collapse(s) + [y]
  {
    CollapseOfPrefix(s, y, |s|);
  }

  /** Python's s[-n:]: a zero takes everything, a negative count drops from the
      front. */
  function LastN(s: seq<real>, n: int): seq<real> {
    if n <= 0 then s[if -n < |s| then -n else |s|..]
    else if n < |s| then s[|s| - n..] else s
  }

  predicate Falling(s: seq<real>) {
    forall i :: 0 < i < |s| ==> s[i - 1] > s[i]
  }

  function Count(pole: seq<real>, pocet: Option<int>): int {
    if pocet.Some? then pocet.value else |pole|
  }

  /** The first version looks at the last `pocet` values of the collapsed series, or
      at all of it when it is shorter; the second wants that many values. Both ask
      for pole[0] of an empty list unless the length test has answered. */
  function FallingVerdict(pole: seq<real>, pocet: Option<int>, wantAll: bool): Result<bool> {
    var n := Count(pole, pocet);
    if |pole| < n then Ok(false)
    else if pole == [] then Err(IndexError)
    else if wantAll && |Collapse(pole)| < n then Ok(false)
    else Ok(Falling(LastN(Collapse(pole), n)))
  }

  method IsFallingOptimized(pole: seq<real>, pocet: Option<int>) returns (r: Result<bool>)
    ensures r == FallingVerdict(pole, pocet, false)
  {
    var n := Count(pole, pocet);
    if |pole| < n { return Ok(false); }
    if |pole| == 0 { return Err(IndexError); }
    var newPole := CollapseByValue(pole);
    var res := AllFalling(LastN(newPole, n));
    return Ok(res);
  }

  /** The first version keeps the current value until another one comes. */
  method CollapseByValue(pole: seq<real>) returns (newPole: seq<real>)
    requires pole != []
    ensures newPole == Collapse(pole)
  {
    newPole := [];
    var currentValue := pole[0];
    for i := 1 to |pole|
      invariant currentValue == pole[i - 1]
      invariant newPole + [currentValue] == CollapseTo(pole, i)
    {
      if pole[i] == currentValue {
        continue;
      }
      newPole := newPole + [currentValue];
      currentValue := pole[i];
    }
    newPole := newPole + [currentValue];
  }

  method IsFallingOptimizedGpt(pole: seq<real>, pocet: Option<int>) returns (r: Result<bool>)
    ensures r == FallingVerdict(pole, pocet, true)
  {
    var n := Count(pole, pocet);
    if |pole| < n { return Ok(false); }
    if |pole| == 0 { return Err(IndexError); }
    var newPole := CollapseByNeighbours(pole);
    if |newPole| < n { return Ok(false); }
    var res := AllFalling(LastN(newPole, n));
    return Ok(res);
  }

  /** The second one compares neighbours. */
  method CollapseByNeighbours(pole: seq<real>) returns (newPole: seq<real>)
    requires pole != []
    ensures newPole == Collapse(pole)
  {
    newPole := [pole[0]];
    for i := 1 to |pole|
      invariant newPole == CollapseTo(pole, i)
    {
      if pole[i] != pole[i - 1] {
        newPole := newPole + [pole[i]];
      }
    }
  }

  /** The final all() over neighbouring pairs. */
  method AllFalling(s: seq<real>) returns (res: bool)
    ensures res == Falling(s)
  {
    var i := 1;
    while i < |s|
      invariant 1 <= i
      invariant forall k :: 0 < k < i && k < |s| ==> s[k - 1] > s[k]
    {
      if !(s[i - 1] > s[i]) { return false; }
      i := i + 1;
    }
    return true;
  }

  /** The two versions part exactly on a list that is long enough, collapses to
      fewer values than asked for, and falls throughout. */
  lemma VersionsPartIff(pole: seq<real>, pocet: Option<int>)
    ensures FallingVerdict(pole, pocet, false) != FallingVerdict(pole, pocet, true)
            <==> |Collapse(pole)| < Count(pole, pocet) <= |pole| && Falling(Collapse(pole))
  {
    if |Collapse(pole)| < Count(pole, pocet) {
      assert LastN(Collapse(pole), Count(pole, pocet)) == Collapse(pole);
    }
  }

  lemma {:induction false} CollapseIgnoresRepeat(a: seq<real>, x: real, b: seq<real>)
    ensures Collapse(a + [x, x] + b) == Collapse(a + [x] + b)
    decreases |b|
  {
    if b == [] {
      assert a + [x, x] + b == (a + [x]) + [x] && a + [x] + b == a + [x];
      CollapseSnoc(a + [x], x);
    } else {
      var init, y := b[..|b| - 1], b[|b| - 1];
      CollapseIgnoresRepeat(a, x, init);
      assert b == init + [y];
      Regroup(a + [x, x], init, [y]);
      Regroup(a + [x], init, [y]);
      CollapseSnoc(a + [x, x] + init, y);
      CollapseSnoc(a + [x] + init, y);
    }
  }

  /** Asked for a given number of values, the second version does not notice a
      repeated element. */
  lemma RepeatUnnoticed(a: seq<real>, x: real, b: seq<real>, pocet: int)
    ensures FallingVerdict(a + [x, x] + b, Some(pocet), true) == FallingVerdict(a + [x] + b, Some(pocet), true)
  {
    CollapseIgnoresRepeat(a, x, b);
  }

  /** The first version does, exactly when as many values are asked for as the longer
      list has, and the collapsed list falls throughout. */
  lemma RepeatNoticedByFirstIff(a: seq<real>, x: real, b: seq<real>, pocet: int)
    ensures FallingVerdict(a + [x, x] + b, Some(pocet), false) != FallingVerdict(a + [x] + b, Some(pocet), false)
            <==> pocet == |a + [x, x] + b| && Falling(Collapse(a + [x] + b))
  {
    CollapseIgnoresRepeat(a, x, b);
    assert |a + [x, x] + b| == |a + [x] + b| + 1;
    if pocet == |a + [x, x] + b| {
      assert LastN(Collapse(a + [x] + b), pocet) == Collapse(a + [x] + b);
    }
  }

  lemma {:induction false} CollapseFalls(pole: seq<real>, n: nat)
    requires n <= |pole|
    ensures Falling(CollapseTo(pole, n)) <==> forall i :: 0 < i < n ==> pole[i - 1] >= pole[i]
  {
    if n >= 2 {
      CollapseFalls(pole, n - 1);
      var before := CollapseTo(pole, n - 1);
      if pole[n - 1] != pole[n - 2] {
        FallingSnoc(before, pole[n - 1]);
      }
      assert (forall i :: 0 < i < n ==> pole[i - 1] >= pole[i])
             <==> (forall i :: 0 < i < n - 1 ==> pole[i - 1] >= pole[i]) && pole[n - 2] >= pole[n - 1];
    }
  }

  lemma FallingSnoc(s: seq<real>, x: real)
    requires s != []
    ensures Falling(s + [x]) <==> Falling(s) && s[|s| - 1] > x
  {
    var longer := s + [x];
    assert longer[|s| - 1] == s[|s| - 1] && longer[|s|] == x;
    if Falling(longer) {
      forall i | 0 < i < |s|
        ensures s[i - 1] > s[i]
      {
        assert longer[i - 1] == s[i - 1] && longer[i] == s[i];
      }
    }
  }

  lemma {:induction false} DistinctStay(pole: seq<real>, n: nat)
    requires n <= |pole| && forall i :: 0 < i < n ==> pole[i] != pole[i - 1]
    ensures CollapseTo(pole, n) == pole[..n]
  {
    if n >= 2 {
      DistinctStay(pole, n - 1);
      assert pole[n - 1] != pole[n - 2];
    }
  }

  /** Asked about the whole list, the first version says whether it never rises, the
      second whether it falls at every step. */
  lemma WholeListFalls(pole: seq<real>)
    requires pole != []
    ensures FallingVerdict(pole, None, false) == Ok(forall i :: 0 < i < |pole| ==> pole[i - 1] >= pole[i])
    ensures FallingVerdict(pole, None, true) == Ok(forall i :: 0 < i < |pole| ==> pole[i - 1] > pole[i])
  {
    var n := |pole|;
    CollapseFalls(pole, n);
    assert LastN(Collapse(pole), n) == Collapse(pole);
    if forall i :: 0 < i < n ==> pole[i] != pole[i - 1] {
      DistinctStay(pole, n);
      assert pole[..n] == pole;
    } else {
      var i :| 0 < i < n && pole[i] == pole[i - 1];
      RepeatShortens(pole, n, i);
    }
  }

  lemma {:induction false} RepeatShortens(pole: seq<real>, n: nat, i: nat)
    requires 0 < i < n <= |pole| && pole[i] == pole[i - 1]
    ensures |CollapseTo(pole, n)| < n
  {
    if i < n - 1 {
      RepeatShortens(pole, n - 1, i);
    }
  }

  lemma FallingDrop(pole: seq<real>, from: nat)
    requires from <= |pole|
    ensures Falling(pole[from..]) <==> forall i :: from < i < |pole| ==> pole[i - 1] > pole[i]
  {
    var last := pole[from..];
    assert forall i :: 0 <= i < |last| ==> last[i] == pole[from + i];
    if Falling(last) {
      forall i | from < i < |pole|
        ensures pole[i - 1] > pole[i]
      {
        assert last[i - from - 1] > last[i - from];
      }
    }
  }

  /** Where the last `n` values begin: a zero takes them all, a negative count as many
      away from the front. */
  function Begin(length: nat, n: int): (from: nat)
    ensures from <= length
  {
    if 0 < n <= length then length - n
    else if n <= 0 && -n < length then -n
    else if n <= 0 then length else 0
  }

  lemma LastNBegins(s: seq<real>, n: int)
    ensures LastN(s, n) == s[Begin(|s|, n)..]
  {
  }

  /** Without equal neighbours both say whether the last `pocet` values fall. */
  lemma LastValuesFall(pole: seq<real>, pocet: int, wantAll: bool)
    requires pocet <= |pole| != 0 && forall i :: 0 < i < |pole| ==> pole[i] != pole[i - 1]
    ensures FallingVerdict(pole, Some(pocet), wantAll)
            == Ok(forall i :: Begin(|pole|, pocet) < i < |pole| ==> pole[i - 1] > pole[i])
  {
    DistinctStay(pole, |pole|);
    assert pole[..|pole|] == pole;
    LastNBegins(pole, pocet);
    FallingDrop(pole, Begin(|pole|, pocet));
  }

  // ---------- Crossings ----------

  /** With fewer than two values the indexing fails and the answer is no. */
  predicate CrossedUp(threshold: real, list: seq<real>) {
    |list| >= 2 && threshold < list[|list| - 1] && threshold >= list[|list| - 2]
  }

  predicate CrossedDown(threshold: real, list: seq<real>) {
    |list| >= 2 && threshold > list[|list| - 1] && threshold <= list[|list| - 2]
  }

  datatype Crossing = Up | Down

  /** Crossings seen while the series is shown one value at a time. */
  function Crossings(threshold: real, series: seq<real>): seq<Crossing> {
    if series == [] then []
    else
      Crossings(threshold, series[..|series| - 1])
      + if CrossedUp(threshold, series) then [Up] else if CrossedDown(threshold, series) then [Down] else []
  }

  /** Ups less downs. */
  function Net(crossings: seq<Crossing>): int {
    if crossings == [] then 0
    else Net(crossings[..|crossings| - 1]) + if crossings[|crossings| - 1].Up? then 1 else -1
  }

  function Above(threshold: real, x: real): int {
    if x > threshold then 1 else 0
  }

  /** Moves of the series from above onto the threshold. */
  function Landings(threshold: real, series: seq<real>): nat {
    if |series| <= 1 then 0
    else
      Landings(threshold, series[..|series| - 1])
      + if series[|series| - 2] > threshold == series[|series| - 1] then 1 else 0
  }

  /** Moves of the series from the threshold to below it. */
  function Drops(threshold: real, series: seq<real>): nat {
    if |series| <= 1 then 0
    else
      Drops(threshold, series[..|series| - 1])
      + if series[|series| - 2] == threshold > series[|series| - 1] then 1 else 0
  }

  lemma NetSnoc(crossings: seq<Crossing>, c: Crossing)
    ensures Net(crossings + [c]) == Net(crossings) + if c.Up? then 1 else -1
  {
    assert (crossings + [c])[..|crossings|] == crossings;
  }

  lemma NetStep(threshold: real, series: seq<real>)
    requires series != []
    ensures Net(Crossings(threshold, series))
            == Net(Crossings(threshold, series[..|series| - 1]))
               + if CrossedUp(threshold, series) then 1 else if CrossedDown(threshold, series) then -1 else 0
  {
    var before := Crossings(threshold, series[..|series| - 1]);
    if CrossedUp(threshold, series) {
      NetSnoc(before, Up);
    } else if CrossedDown(threshold, series) {
      NetSnoc(before, Down);
    } else {
      assert Crossings(threshold, series) == before + [] == before;
    }
  }

  /** The books on which side the series is: ups less downs tell the side of the last
      value against that of the first exactly when the series lands on the threshold
      from above as often as it drops from it. */
  lemma {:induction false} CrossingsBalance(threshold: real, series: seq<real>)
    requires series != []
    ensures Net(Crossings(threshold, series))
            == Above(threshold, series[|series| - 1]) - Above(threshold, series[0])
               + Landings(threshold, series) - Drops(threshold, series)
  {
    NetStep(threshold, series);
    if |series| == 1 {
      assert Crossings(threshold, series[..0]) == [];
    } else {
      CrossingsBalance(threshold, series[..|series| - 1]);
    }
  }

  predicate Alternate(crossings: seq<Crossing>) {
    forall i :: 0 < i < |crossings| ==> crossings[i] != crossings[i - 1]
  }

  /** The side of the last value that is off the threshold, as the crossing that
      leads to it. */
  function LastSide(threshold: real, series: seq<real>): Option<Crossing> {
    if series == [] then None
    else if series[|series| - 1] > threshold then Some(Up)
    else if series[|series| - 1] < threshold then Some(Down)
    else LastSide(threshold, series[..|series| - 1])
  }

  /** The series leaves the threshold for the side it came from. */
  predicate Bounces(threshold: real, series: seq<real>) {
    && |series| >= 2 && series[|series| - 2] == threshold != series[|series| - 1]
    && LastSide(threshold, series[..|series| - 1]) == LastSide(threshold, series)
  }

  /** The series is on one side of the threshold, and once on it stays there. */
  predicate Uncrossed(threshold: real, series: seq<real>) {
    && (|| (forall i :: 0 <= i < |series| ==> series[i] >= threshold)
        || (forall i :: 0 <= i < |series| ==> series[i] <= threshold))
    && forall i, j :: 0 <= i < j < |series| && series[i] == threshold ==> series[j] == threshold
  }

  lemma OnStays(threshold: real, series: seq<real>, i: nat)
    requires i < |series| && Uncrossed(threshold, series)
    ensures series[i] == threshold ==> series[|series| - 1] == threshold
  {
  }

  lemma OffUntilNow(threshold: real, series: seq<real>)
    requires series != [] && Uncrossed(threshold, series) && series[|series| - 1] != threshold
    ensures forall i :: 0 <= i < |series| ==>
              if series[|series| - 1] > threshold then series[i] > threshold else series[i] < threshold
  {
    forall i | 0 <= i < |series|
      ensures series[i] != threshold
    {
      OnStays(threshold, series, i);
    }
  }

  lemma PrefixUncrossed(threshold: real, before: seq<real>, x: real)
    requires Uncrossed(threshold, before + [x])
    ensures Uncrossed(threshold, before)
  {
    assert forall i :: 0 <= i < |before| ==> (before + [x])[i] == before[i];
  }

  lemma UncrossedSnoc(threshold: real, before: seq<real>, x: real)
    ensures Uncrossed(threshold, before + [x])
            <==> Uncrossed(threshold, before) && !CrossedUp(threshold, before + [x]) && !CrossedDown(threshold, before + [x])
  {
    var series := before + [x];
    assert forall i :: 0 <= i < |before| ==> series[i] == before[i];
    assert series[|before|] == x;
    if Uncrossed(threshold, series) {
      PrefixUncrossed(threshold, before, x);
    }
    if before != [] && Uncrossed(threshold, before) {
      var last := before[|before| - 1];
      assert series[|series| - 2] == last;
      if last != threshold {
        OffUntilNow(threshold, before);
      }
    }
  }

  /** Nothing is counted of a series exactly as long as it is uncrossed. */
  lemma {:induction false} NoCrossingsIff(threshold: real, series: seq<real>)
    ensures Crossings(threshold, series) == [] <==> Uncrossed(threshold, series)
  {
    if series == [] {
    } else {
      var before, x := series[..|series| - 1], series[|series| - 1];
      assert series == before + [x];
      NoCrossingsIff(threshold, before);
      UncrossedSnoc(threshold, before, x);
    }
  }

  /** Each bounce of the series comes before its first crossing. */
  ghost predicate NeverBounces(threshold: real, series: seq<real>) {
    forall k :: 0 <= k < |series| && Bounces(threshold, series[..k + 1]) ==> Uncrossed(threshold, series[..k])
  }

  lemma NeverBouncesSnoc(threshold: real, series: seq<real>)
    requires series != []
    ensures var before := series[..|series| - 1];
            NeverBounces(threshold, series)
            <==> NeverBounces(threshold, before) && (Bounces(threshold, series) ==> Uncrossed(threshold, before))
  {
    var n := |series| - 1;
    var before := series[..n];
    assert series[..n + 1] == series;
    if NeverBounces(threshold, series) {
      forall k | 0 <= k < n && Bounces(threshold, before[..k + 1])
        ensures Uncrossed(threshold, before[..k])
      {
        assert before[..k + 1] == series[..k + 1] && before[..k] == series[..k];
      }
    }
    if NeverBounces(threshold, before) && (Bounces(threshold, series) ==> Uncrossed(threshold, before)) {
      forall k | 0 <= k <= n && Bounces(threshold, series[..k + 1])
        ensures Uncrossed(threshold, series[..k])
      {
        if k < n { assert before[..k + 1] == series[..k + 1] && before[..k] == series[..k]; }
      }
    }
  }

  /** Once there is a crossing, the latest one tells the side. */
  lemma {:induction false} LatestTellsSide(threshold: real, series: seq<real>)
    ensures var crossings := Crossings(threshold, series);
            crossings != [] ==> LastSide(threshold, series) == Some(crossings[|crossings| - 1])
  {
    if |series| <= 1 {
      if series != [] { assert Crossings(threshold, series[..0]) == []; }
    } else {
      LatestTellsSide(threshold, series[..|series| - 1]);
    }
  }

  lemma AlternateSnoc(crossings: seq<Crossing>, c: Crossing)
    ensures Alternate(crossings + [c]) <==> Alternate(crossings) && (crossings != [] ==> crossings[|crossings| - 1] != c)
  {
    var longer := crossings + [c];
    assert forall i :: 0 <= i < |crossings| ==> longer[i] == crossings[i];
    assert longer[|crossings|] == c;
  }

  /** A crossing that follows another is to the same side exactly when it is a bounce. */
  lemma RepeatIsBounce(threshold: real, series: seq<real>)
    requires series != []
    ensures var before, now := Crossings(threshold, series[..|series| - 1]), Crossings(threshold, series);
            before != [] ==>
              (Bounces(threshold, series) <==> now != before && now[|now| - 1] == before[|before| - 1])
  {
    LatestTellsSide(threshold, series[..|series| - 1]);
    LatestTellsSide(threshold, series);
  }

  /** Ups and downs alternate exactly when the series does not bounce off the
      threshold after its first crossing. */
  lemma {:induction false} CrossingsAlternateIff(threshold: real, series: seq<real>)
    ensures Alternate(Crossings(threshold, series)) <==> NeverBounces(threshold, series)
  {
    if series == [] {
    } else {
      var init := series[..|series| - 1];
      CrossingsAlternateIff(threshold, init);
      RepeatIsBounce(threshold, series);
      NoCrossingsIff(threshold, init);
      NeverBouncesSnoc(threshold, series);
      var before, now := Crossings(threshold, init), Crossings(threshold, series);
      if now != before {
        AlternateSnoc(before, now[|now| - 1]);
        assert now == before + [now[|now| - 1]];
      }
    }
  }

  /** A bounce after a crossing: two ups in a row. */
  lemma BounceBreaksAlternation()
    ensures Crossings(0.0, [-1.0, 1.0, 0.0, 1.0]) == [Up, Up]
    ensures !Alternate(Crossings(0.0, [-1.0, 1.0, 0.0, 1.0])) && !NeverBounces(0.0, [-1.0, 1.0, 0.0, 1.0])
  {
    var s := [-1.0, 1.0, 0.0, 1.0];
    assert s[..3] == [-1.0, 1.0, 0.0] && s[..3][..2] == [-1.0, 1.0] && s[..3][..2][..1] == [-1.0];
    assert Crossings(0.0, [-1.0]) == [] by { assert [-1.0][..0] == []; }
    assert Crossings(0.0, [-1.0, 1.0]) == [Up];
    assert Crossings(0.0, [-1.0, 1.0, 0.0]) == [Up];
    CrossingsAlternateIff(0.0, s);
    assert [Up, Up][1] == [Up, Up][0];
  }

  /** In particular when no value is on the threshold, and then the balance is kept
      too. */
  lemma OffThreshold(threshold: real, series: seq<real>)
    requires threshold !in series
    ensures Alternate(Crossings(threshold, series))
    ensures Landings(threshold, series) == Drops(threshold, series) == 0
  {
    NoTouchNoBounce(threshold, series);
    CrossingsAlternateIff(threshold, series);
  }

  lemma {:induction false} NoTouchNoBounce(threshold: real, series: seq<real>)
    requires threshold !in series
    ensures NeverBounces(threshold, series) && Landings(threshold, series) == Drops(threshold, series) == 0
  {
    if series == [] {
    } else {
      NoTouchNoBounce(threshold, series[..|series| - 1]);
    }
  }
}
