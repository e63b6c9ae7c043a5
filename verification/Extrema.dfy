/** Local maxima and minima of a series, read off the signs of its differences. */
module Extrema {

  predicate IsMaximum(s: seq<real>, i: nat)
    requires 0 < i < |s| - 1
  {
    s[i] - s[i - 1] >= 0.0 && s[i + 1] - s[i] < 0.0
  }

  predicate IsMinimum(s: seq<real>, i: nat)
    requires 0 < i < |s| - 1
  {
    s[i] - s[i - 1] <= 0.0 && s[i + 1] - s[i] > 0.0
  }

  /** np.where(mask)[0] + 1. */
  function Where(mask: seq<bool>): seq<nat> {
    if mask == [] then []
    else Where(mask[..|mask| - 1]) + if mask[|mask| - 1] then [|mask|] else []
  }

  lemma {:induction false} WhereIsExact(mask: seq<bool>)
    ensures forall i :: i in Where(mask) <==> 0 < i <= |mask| && mask[i - 1]
    ensures forall i, j :: 0 <= i < j < |Where(mask)| ==> Where(mask)[i] < Where(mask)[j]
  {
    if mask == [] {
    } else {
      var init := mask[..|mask| - 1];
      WhereIsExact(init);
      forall i | 0 <= i < |Where(init)|
        ensures Where(init)[i] < |mask|
      {
        assert Where(init)[i] in Where(init);
      }
    }
  }

  function Inner(s: seq<real>): nat {
    if |s| >= 2 then |s| - 2 else 0
  }

  function MaximumMask(s: seq<real>): seq<bool> {
    seq(Inner(s), k requires 0 <= k < Inner(s) => IsMaximum(s, k + 1))
  }

  function MinimumMask(s: seq<real>): seq<bool> {
    seq(Inner(s), k requires 0 <= k < Inner(s) => IsMinimum(s, k + 1))
  }

  function GetLocalMaxima(s: seq<real>): seq<nat> {
    if s == [] then [] else Where(MaximumMask(s))
  }

  function GetLocalMinima(s: seq<real>): seq<nat> {
    if s == [] then [] else Where(MinimumMask(s))
  }

  /** What is reported, in prices: a fall after a value that is not under the one before
      it, a rise after one that is not over it. */
  lemma ReportedAre(s: seq<real>, i: nat)
    ensures i in GetLocalMaxima(s) <==> 0 < i < |s| - 1 && s[i - 1] <= s[i] && s[i] > s[i + 1]
    ensures i in GetLocalMinima(s) <==> 0 < i < |s| - 1 && s[i - 1] >= s[i] && s[i] < s[i + 1]
  {
    WhereIsExact(MaximumMask(s));
    WhereIsExact(MinimumMask(s));
  }

  // ---------- The two lists merged ----------

  datatype Turn = Top(at: nat) | Bottom(at: nat)

  function Merge(maxima: seq<bool>, minima: seq<bool>): seq<Turn>
    requires |maxima| == |minima|
  {
    if maxima == [] then []
    else
      var last := |maxima| - 1;
      Merge(maxima[..last], minima[..last])
      + if maxima[last] then [Top(last + 1)] else if minima[last] then [Bottom(last + 1)] else []
  }

  /** The turns at positions 1 to `n`. */
  function Turns(s: seq<real>, n: nat): seq<Turn>
    requires n <= Inner(s)
  {
    Merge(MaximumMask(s)[..n], MinimumMask(s)[..n])
  }

  function Tops(turns: seq<Turn>): seq<nat> {
    if turns == [] then [] else
      Tops(turns[..|turns| - 1]) + if turns[|turns| - 1].Top? then [turns[|turns| - 1].at] else []
  }

  function Bottoms(turns: seq<Turn>): seq<nat> {
    if turns == [] then [] else
      Bottoms(turns[..|turns| - 1]) + if turns[|turns| - 1].Bottom? then [turns[|turns| - 1].at] else []
  }

  ghost predicate Alternate(turns: seq<Turn>) {
    forall i :: 0 < i < |turns| ==> turns[i].Top? != turns[i - 1].Top?
  }

  lemma SplitLast(turns: seq<Turn>, t: Turn)
    ensures Tops(turns + [t]) == Tops(turns) + if t.Top? then [t.at] else []
    ensures Bottoms(turns + [t]) == Bottoms(turns) + if t.Bottom? then [t.at] else []
  {
    assert (turns + [t])[..|turns|] == turns;
  }

  lemma {:induction false} MergeSplits(maxima: seq<bool>, minima: seq<bool>)
    requires |maxima| == |minima| && forall k :: 0 <= k < |maxima| ==> !(maxima[k] && minima[k])
    ensures Tops(Merge(maxima, minima)) == Where(maxima) && Bottoms(Merge(maxima, minima)) == Where(minima)
  {
    if maxima == [] {
    } else {
      var last := |maxima| - 1;
      MergeSplits(maxima[..last], minima[..last]);
      var before := Merge(maxima[..last], minima[..last]);
      SplitLast(before, Top(last + 1));
      SplitLast(before, Bottom(last + 1));
      assert before + [] == before;
    }
  }

  lemma TurnsStep(s: seq<real>, n: nat)
    requires n < Inner(s)
    ensures Turns(s, n + 1)
            == Turns(s, n) + if IsMaximum(s, n + 1) then [Top(n + 1)] else if IsMinimum(s, n + 1) then [Bottom(n + 1)] else []
  {
    assert MaximumMask(s)[..n + 1][..n] == MaximumMask(s)[..n];
    assert MinimumMask(s)[..n + 1][..n] == MinimumMask(s)[..n];
  }

  /** The sign of the last move before position `n`; 0 if all is flat. */
  function Direction(s: seq<real>, n: nat): int
    requires n < |s|
  {
    if n == 0 then 0
    else if s[n] > s[n - 1] then 1
    else if s[n] < s[n - 1] then -1
    else Direction(s, n - 1)
  }

  /** The series stood still at `i` and then went on as before. */
  predicate Paused(s: seq<real>, i: nat)
    requires 0 < i < |s| - 1
  {
    s[i] == s[i - 1] && s[i + 1] != s[i] && Direction(s, i + 1) == Direction(s, i)
  }

  predicate Rise(s: seq<real>, i: nat)
    requires 0 < i < |s|
  {
    s[i] > s[i - 1]
  }

  predicate Fall(s: seq<real>, i: nat)
    requires 0 < i < |s|
  {
    s[i] < s[i - 1]
  }

  predicate Flat(s: seq<real>, i: nat)
    requires 0 < i < |s|
  {
    s[i] == s[i - 1]
  }

  /** Up to position `n` the series moves strictly one way, and then stands still. */
  predicate OneWay(s: seq<real>, n: nat)
    requires n < |s|
  {
    && ((forall i :: 0 < i <= n ==> !Fall(s, i)) || (forall i :: 0 < i <= n ==> !Rise(s, i)))
    && forall i, j :: 0 < i < j <= n && Flat(s, i) ==> Flat(s, j)
  }

  lemma FlatStays(s: seq<real>, n: nat, i: nat)
    requires 0 < i <= n < |s| && OneWay(s, n)
    ensures Flat(s, i) ==> Flat(s, n)
  {
  }

  /** A last move that is not flat has only moves of its own direction before it. */
  lemma StrictUntilNow(s: seq<real>, n: nat)
    requires 0 < n < |s| && OneWay(s, n) && !Flat(s, n)
    ensures forall i :: 0 < i <= n ==> !Flat(s, i)
    ensures if Rise(s, n) then forall i :: 0 < i <= n ==> !Fall(s, i) else forall i :: 0 < i <= n ==> !Rise(s, i)
  {
    assert Rise(s, n) || Fall(s, n);
    forall i | 0 < i <= n
      ensures !Flat(s, i)
    {
      FlatStays(s, n, i);
    }
  }

  lemma OneWayShorter(s: seq<real>, n: nat)
    requires 0 < n < |s| - 1 && OneWay(s, n + 1)
    ensures OneWay(s, n) && !IsMaximum(s, n) && !IsMinimum(s, n)
  {
    FlatStays(s, n + 1, n);
    assert Fall(s, n + 1) ==> !Rise(s, n);
    assert Rise(s, n + 1) ==> !Fall(s, n);
  }

  lemma OneWayLonger(s: seq<real>, n: nat)
    requires 0 < n < |s| - 1 && OneWay(s, n) && !IsMaximum(s, n) && !IsMinimum(s, n)
    ensures OneWay(s, n + 1)
  {
    if Flat(s, n) {
      assert Flat(s, n + 1);
    } else {
      StrictUntilNow(s, n);
      assert if Rise(s, n) then !Fall(s, n + 1) else !Rise(s, n + 1);
    }
  }

  /** Nothing is reported of a series exactly as long as it goes one way. */
  lemma {:induction false} NoTurnsIff(s: seq<real>, n: nat)
    requires n <= Inner(s) && n + 1 < |s|
    ensures Turns(s, n) == [] <==> OneWay(s, n + 1)
  {
    if n == 0 {
    } else {
      NoTurnsIff(s, n - 1);
      TurnsStep(s, n - 1);
      if OneWay(s, n + 1) { OneWayShorter(s, n); }
      if Turns(s, n) == [] { OneWayLonger(s, n); }
    }
  }

  /** Each pause inside a rise or fall comes while the series still goes one way. */
  ghost predicate PausesBeforeTurns(s: seq<real>, n: nat)
    requires n <= Inner(s)
  {
    forall i :: 0 < i <= n && Paused(s, i) ==> OneWay(s, i)
  }

  lemma AlternateSnoc(turns: seq<Turn>, t: Turn)
    ensures Alternate(turns + [t]) <==> Alternate(turns) && (turns == [] || turns[|turns| - 1].Top? != t.Top?)
  {
    var all := turns + [t];
    assert forall i :: 0 <= i < |turns| ==> all[i] == turns[i];
    assert turns != [] ==> all[|turns| - 1] == turns[|turns| - 1];
    assert all[|turns|] == t;
  }

  lemma {:induction false} TurnsFollowDirection(s: seq<real>, n: nat)
    requires n <= Inner(s) && n + 1 < |s|
    ensures var turns := Turns(s, n);
            && (turns != [] ==> Direction(s, n + 1) == if turns[|turns| - 1].Top? then -1 else 1)
            && (Alternate(turns) <==> PausesBeforeTurns(s, n))
  {
    if n == 0 {
    } else {
      TurnsFollowDirection(s, n - 1);
      TurnsStep(s, n - 1);
      var before := Turns(s, n - 1);
      AlternateSnoc(before, Top(n));
      AlternateSnoc(before, Bottom(n));
      assert before + [] == before;
      NoTurnsIff(s, n - 1);
      assert PausesBeforeTurns(s, n) <==> PausesBeforeTurns(s, n - 1) && (Paused(s, n) ==> before == []);
    }
  }

  lemma {:induction false} AlternationBalances(turns: seq<Turn>)
    requires Alternate(turns)
    ensures -1 <= |Tops(turns)| - |Bottoms(turns)| <= 1
    ensures turns != [] ==> |Tops(turns)| - |Bottoms(turns)| in (if turns[|turns| - 1].Top? then {0, 1} else {-1, 0})
  {
    if turns == [] {
    } else {
      AlternationBalances(turns[..|turns| - 1]);
    }
  }

  /** The reported maxima and minima alternate exactly when the series never pauses
      inside a rise or a fall once a turn has been reported: the comparisons take
      the end of such a pause for a turn of its own. */
  lemma ExtremaAlternateIff(s: seq<real>)
    ensures var turns := Turns(s, Inner(s));
            && Tops(turns) == GetLocalMaxima(s) && Bottoms(turns) == GetLocalMinima(s)
            && (Alternate(turns) <==> PausesBeforeTurns(s, Inner(s)))
            && (Alternate(turns) ==> -1 <= |GetLocalMaxima(s)| - |GetLocalMinima(s)| <= 1)
  {
    var turns := Turns(s, Inner(s));
    assert MaximumMask(s)[..Inner(s)] == MaximumMask(s) && MinimumMask(s)[..Inner(s)] == MinimumMask(s);
    MergeSplits(MaximumMask(s), MinimumMask(s));
    if |s| >= 2 {
      TurnsFollowDirection(s, Inner(s));
    }
    if Alternate(turns) {
      AlternationBalances(turns);
    }
  }

  lemma PauseAfterTurn(s: seq<real>)
    requires |s| == 5 && s[0] < s[1] && s[1] > s[2] == s[3] > s[4]
    ensures Paused(s, 3) && !OneWay(s, 3) && !Alternate(Turns(s, Inner(s)))
  {
    assert Direction(s, 2) == -1 && Direction(s, 3) == -1 && Direction(s, 4) == -1;
    assert Rise(s, 1) && Fall(s, 2);
    ExtremaAlternateIff(s);
  }

  /** A pause inside a fall, after a turn: two maxima in a row. */
  lemma PauseBreaksAlternation()
    ensures var s := [0.0, 1.0, 0.0, 0.0, -1.0];
            Paused(s, 3) && !OneWay(s, 3) && !Alternate(Turns(s, Inner(s)))
  {
    PauseAfterTurn([0.0, 1.0, 0.0, 0.0, -1.0]);
  }

  /** Without equal neighbours they always alternate. */
  lemma DistinctNeighboursAlternate(s: seq<real>)
    requires forall i :: 0 < i < |s| ==> s[i] != s[i - 1]
    ensures Alternate(Turns(s, Inner(s)))
    ensures -1 <= |GetLocalMaxima(s)| - |GetLocalMinima(s)| <= 1
  {
    ExtremaAlternateIff(s);
  }
}
