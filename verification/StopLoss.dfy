/** The stop-loss optimizer: levels between the cost price and the stop loss, used
    up one by one as the price runs against the trade. */
module StopLoss {
  import opened Outcomes
  import opened Sequences

  datatype Direction = LONG | SHORT

  /** What one tick brings: the average cost and the stop loss, which a trade may not
      have yet, and the close. */
  datatype Tick = Tick(cost: Option<real>, stop: Option<real>, close: real)

  datatype Shot = Shot(level: real, size: real)

  predicate Priced(t: Tick) {
    t.cost.Some? && t.stop.Some?
  }

  function Distance(t: Tick): real
    requires Priced(t)
  {
    if t.cost.value >= t.stop.value then t.cost.value - t.stop.value else t.stop.value - t.cost.value
  }

  function LevelPrice(dir: Direction, level: real, t: Tick): real
    requires Priced(t)
  {
    if dir == SHORT then t.cost.value + level * Distance(t) else t.cost.value - level * Distance(t)
  }

  /** Is the price strictly beyond the level, on the losing side? */
  predicate Beyond(dir: Direction, level: real, t: Tick) {
    && Priced(t)
    && if dir == SHORT then t.close > LevelPrice(dir, level, t) else t.close < LevelPrice(dir, level, t)
  }

  /** With the stop on the losing side, a level is the share of the way from the cost to
      the stop; on the other side the way is mirrored about the cost. Level 0 is the
      cost, level 1 the stop. */
  lemma LevelIsOnTheWay(level: real, t: Tick)
    requires Priced(t)
    ensures var cost, stop := t.cost.value, t.stop.value;
            && (stop <= cost ==> LevelPrice(LONG, level, t) == (1.0 - level) * cost + level * stop)
            && (stop >= cost ==> LevelPrice(SHORT, level, t) == (1.0 - level) * cost + level * stop)
            && LevelPrice(LONG, level, t) + LevelPrice(SHORT, level, t) == 2.0 * cost
  {
  }

  /** A close on the level does not reach it. */
  lemma BeyondIsStrict(level: real, t: Tick)
    requires Priced(t)
    ensures var cost, stop := t.cost.value, t.stop.value;
            && (stop <= cost ==> (Beyond(LONG, level, t) <==> t.close < (1.0 - level) * cost + level * stop))
            && (stop >= cost ==> (Beyond(SHORT, level, t) <==> t.close > (1.0 - level) * cost + level * stop))
  {
    LevelIsOnTheWay(level, t);
  }

  function Zip(levels: seq<real>, sizes: seq<real>): (r: seq<Shot>)
    requires |levels| == |sizes|
    ensures |r| == |levels|
    ensures forall i :: 0 <= i < |r| ==> r[i] == Shot(levels[i], sizes[i])
  {
    seq(|levels|, i requires 0 <= i < |levels| => Shot(levels[i], sizes[i]))
  }

  function Levels(shots: seq<Shot>): (r: seq<real>)
    ensures |r| == |shots|
    ensures forall i :: 0 <= i < |r| ==> r[i] == shots[i].level
  {
    seq(|shots|, i requires 0 <= i < |shots| => shots[i].level)
  }

  lemma ZipTail(levels: seq<real>, sizes: seq<real>, before: seq<Shot>)
    requires |levels| == |sizes| > 0
    ensures before + Zip(levels, sizes) == (before + [Shot(levels[0], sizes[0])]) + Zip(levels[1..], sizes[1..])
  {
    assert Zip(levels, sizes) == [Shot(levels[0], sizes[0])] + Zip(levels[1..], sizes[1..]);
    Regroup(before, [Shot(levels[0], sizes[0])], Zip(levels[1..], sizes[1..]));
  }

  /** The unfired rest of zipped lists is the rest of each list. */
  lemma RestOfZip(fired: seq<Shot>, levels: seq<real>, sizes: seq<real>, allLevels: seq<real>, allSizes: seq<real>)
    requires |levels| == |sizes| && |allLevels| == |allSizes|
    requires fired + Zip(levels, sizes) == Zip(allLevels, allSizes)
    ensures levels == allLevels[|fired|..] && sizes == allSizes[|fired|..]
  {
    var all := Zip(allLevels, allSizes);
    forall i | 0 <= i < |levels|
      ensures levels[i] == allLevels[|fired| + i] && sizes[i] == allSizes[|fired| + i]
    {
      assert all[|fired| + i] == Zip(levels, sizes)[i];
    }
  }

  // ---------- Runs on one trade ----------

  /** How many levels are used up after the ticks: the next level fires on the first
      tick beyond it, and a tick fires at most one. */
  function FiredCount(dir: Direction, levels: seq<real>, ticks: seq<Tick>): (n: nat)
    ensures n <= |levels| && n <= |ticks|
  {
    if ticks == [] then 0
    else
      var n := FiredCount(dir, levels, ticks[..|ticks| - 1]);
      if n < |levels| && Beyond(dir, levels[n], ticks[|ticks| - 1]) then n + 1 else n
  }

  lemma FiredStep(dir: Direction, shots: seq<Shot>, ticks: seq<Tick>, tick: Tick)
    ensures var n := FiredCount(dir, Levels(shots), ticks);
            FiredCount(dir, Levels(shots), ticks + [tick])
            == if n < |shots| && Beyond(dir, shots[n].level, tick) then n + 1 else n
  {
    assert (ticks + [tick])[..|ticks|] == ticks;
  }

  /** The other side of the cost price. */
  function Mirror(t: Tick): Tick {
    if Priced(t)
    then Tick(t.cost, Some(2.0 * t.cost.value - t.stop.value), 2.0 * t.cost.value - t.close)
    else t
  }

  function MirrorAll(ticks: seq<Tick>): (r: seq<Tick>)
    ensures |r| == |ticks|
    ensures forall i :: 0 <= i < |r| ==> r[i] == Mirror(ticks[i])
  {
    seq(|ticks|, i requires 0 <= i < |ticks| => Mirror(ticks[i]))
  }

  lemma BeyondMirrors(level: real, t: Tick)
    ensures Beyond(SHORT, level, t) <==> Beyond(LONG, level, Mirror(t))
  {
    if Priced(t) {
      assert Distance(Mirror(t)) == Distance(t);
      assert LevelPrice(LONG, level, Mirror(t)) == t.cost.value - level * Distance(t);
    }
  }

  /** A SHORT optimizer fires exactly as a LONG one does on prices mirrored about
      the cost price, tick by tick. */
  lemma {:induction false} ShortMirrorsLong(levels: seq<real>, ticks: seq<Tick>)
    ensures FiredCount(SHORT, levels, ticks) == FiredCount(LONG, levels, MirrorAll(ticks))
  {
    if ticks == [] {
    } else {
      var init, last := ticks[..|ticks| - 1], ticks[|ticks| - 1];
      ShortMirrorsLong(levels, init);
      assert MirrorAll(ticks)[..|ticks| - 1] == MirrorAll(init);
      var n := FiredCount(SHORT, levels, init);
      if n < |levels| {
        BeyondMirrors(levels[n], last);
      }
    }
  }

  /** Every fire is beyond its own level price, and happens no earlier than the fire
      of the level before it. */
  lemma {:induction false} EachFireHasItsTick(dir: Direction, levels: seq<real>, ticks: seq<Tick>, k: nat) returns (i: nat)
    requires k < FiredCount(dir, levels, ticks)
    ensures i < |ticks| && Beyond(dir, levels[k], ticks[i])
    ensures FiredCount(dir, levels, ticks[..i]) == k && FiredCount(dir, levels, ticks[..i + 1]) == k + 1
    decreases |ticks|
  {
    var init := ticks[..|ticks| - 1];
    if k < FiredCount(dir, levels, init) {
      i := EachFireHasItsTick(dir, levels, init, k);
      assert init[..i] == ticks[..i] && init[..i + 1] == ticks[..i + 1];
    } else {
      i := |init|;
      assert ticks[..i] == init && ticks[..i + 1] == ticks;
    }
  }

  /** With a level reached on every tick, nothing is skipped: the optimizer runs
      through one level a tick until none is left. */
  lemma {:induction false} PersistentLossUsesAllLevels(dir: Direction, levels: seq<real>, ticks: seq<Tick>)
    requires forall i, k :: 0 <= i < |ticks| && 0 <= k < |levels| ==> Beyond(dir, levels[k], ticks[i])
    ensures FiredCount(dir, levels, ticks) == if |ticks| < |levels| then |ticks| else |levels|
  {
    if ticks == [] {
    } else {
      PersistentLossUsesAllLevels(dir, levels, ticks[..|ticks| - 1]);
    }
  }

  function Repeated(items: seq<real>, times: nat): (r: seq<real>)
    ensures |items| == 1 ==> |r| == times && forall i :: 0 <= i < times ==> r[i] == items[0]
  {
    if times == 0 then [] else Repeated(items, times - 1) + items
  }

  // ---------- Loading the levels ----------

  function Len(items: Option<seq<real>>): Result<nat> {
    match items
    case None => Err(TypeError)
    case Some(s) => Ok(|s|)
  }

  /** initialize_levels after its guard: one size is repeated for all levels, then the
      lengths have to agree. Gives the levels and the sizes to start from. */
  function Fitted(levels: Option<seq<real>>, sizes: Option<seq<real>>): (r: Result<Option<(seq<real>, seq<real>)>>)
    ensures r.Ok? ==> r.value.Some? && |r.value.value.0| == |r.value.value.1|
  {
    match Len(sizes)
    case Err(e) => Err(e)
    case Ok(n) =>
      match Len(levels)
      case Err(e) => Err(e)
      case Ok(m) =>
        var fitted := if n == 1 then Repeated(sizes.value, m) else sizes.value;
        if |fitted| != m then Err(Exception) else Ok(Some((levels.value, fitted)))
  }

  /** initialize_levels over the two configured values, for a guard that stops it or
      not. */
  function Initialized(stops: bool, levels: Option<seq<real>>, sizes: Option<seq<real>>)
    : Result<Option<(seq<real>, seq<real>)>>
  {
    if stops then Ok(None) else Fitted(levels, sizes)
  }

  /** The guard of the strategy block: a setting is missing. */
  predicate SettingMissing(levels: Option<seq<real>>, sizes: Option<seq<real>>) {
    levels.None? || sizes.None?
  }

  /** The guard of the first draft tests the sizes the wrong way round. */
  predicate DraftGuard(levels: Option<seq<real>>, sizes: Option<seq<real>>) {
    levels.None? || sizes.Some?
  }

  /** What the strategy block loads from the two settings. */
  function Loading(levels: Option<seq<real>>, sizes: Option<seq<real>>): Result<Option<(seq<real>, seq<real>)>> {
    Initialized(SettingMissing(levels, sizes), levels, sizes)
  }

  predicate Loads(levels: Option<seq<real>>, sizes: Option<seq<real>>) {
    Loading(levels, sizes).Ok? && Loading(levels, sizes).value.Some?
  }

  /** The pairs that a loaded trade starts with. */
  function StartOf(levels: Option<seq<real>>, sizes: Option<seq<real>>): seq<Shot>
    requires Loads(levels, sizes)
  {
    Zip(Loading(levels, sizes).value.value.0, Loading(levels, sizes).value.value.1)
  }

  /** With its guard, the strategy block loads exactly the settings that are complete
      and fit, and raises exactly on complete ones that do not. The levels are loaded
      as they are, and so are the sizes unless there is one for all levels. */
  lemma LoadsIffFitting(levels: Option<seq<real>>, sizes: Option<seq<real>>)
    ensures var r := Loading(levels, sizes);
            && (r.Ok? && r.value.Some? <==>
                levels.Some? && sizes.Some? && (|sizes.value| == 1 || |sizes.value| == |levels.value|))
            && (r.Err? <==>
                levels.Some? && sizes.Some? && |sizes.value| != 1 && |sizes.value| != |levels.value|)
            && (r.Ok? && r.value.Some? ==>
                  && r.value.value.0 == levels.value && |r.value.value.1| == |levels.value|
                  && (|sizes.value| != 1 ==> r.value.value.1 == sizes.value)
                  && (|sizes.value| == 1 ==>
                        forall i :: 0 <= i < |levels.value| ==> r.value.value.1[i] == sizes.value[0]))
  {
  }

  /** With the guard of the draft nothing is ever loaded: the settings it lets through
      have no sizes, whose length is asked for next. */
  lemma DraftNeverLoads(levels: Option<seq<real>>, sizes: Option<seq<real>>)
    ensures var r := Initialized(DraftGuard(levels, sizes), levels, sizes);
            if levels.Some? && sizes.None? then r == Err(TypeError) else r == Ok(None)
  {
  }

  // ---------- The object ----------

  /** A Python list: shared by everyone who holds it, changed in place. */
  class PyList {
    var items: seq<real>

    constructor (items: seq<real>)
      ensures this.items == items
    {
      this.items := items;
    }

    method PopFirst() returns (x: real)
      requires items != []
      modifies this
      ensures x == old(items)[0] && items == old(items)[1..]
    {
      x, items := items[0], items[1..];
    }
  }

  function Setting(list: PyList?): Option<seq<real>>
    reads list
  {
    if list == null then None else Some(list.items)
  }

  function Shots(r: Result<Option<Shot>>): seq<Shot> {
    if r.Ok? && r.value.Some? then [r.value.value] else []
  }

  /** An evaluation with one list in both places: a level that is met takes the entry
      after it as its size, and raises if there is none. */
  function SharedEval(dir: Direction, items: seq<real>, tick: Tick): (Result<Option<Shot>>, seq<real>) {
    if items == [] || !Beyond(dir, items[0], tick) then (Ok(None), items)
    else if |items| == 1 then (Err(IndexError), [])
    else (Ok(Some(Shot(items[0], items[1]))), items[2..])
  }

  class SLOptimizer {
    const direction: Direction
    var lastTrade: Option<nat>  // the trade whose levels are loaded
    var exitLevels: PyList
    var exitSizes: PyList
    ghost var initial: seq<Shot>  // the levels and sizes that trade started with
    ghost var ticks: seq<Tick>    // the ticks evaluated since
    ghost var fired: seq<Shot>    // what they fired, in order

    /** One list for the levels and the sizes. */
    ghost predicate Shared()
      reads this
    {
      exitLevels == exitSizes
    }

    /** Fired so far is a prefix of the initial pairs, and what is live is the
        matching suffix. */
    ghost predicate Paired()
      reads this, exitLevels, exitSizes
    {
      && |exitLevels.items| == |exitSizes.items|
      && fired + Zip(exitLevels.items, exitSizes.items) == initial
      && |fired| == FiredCount(direction, Levels(initial), ticks)
    }

    ghost predicate Valid()
      reads this, exitLevels, exitSizes
    {
      Shared() || Paired()
    }

    constructor (direction: Direction)
      ensures Valid() && !Shared() && fresh(exitLevels) && fresh(exitSizes)
      ensures this.direction == direction && lastTrade == None && fired == [] && ticks == [] && initial == []
    {
      this.direction := direction;
      lastTrade := None;
      exitLevels := new PyList([]);
      exitSizes := new PyList([]);
      initial, ticks, fired := [], [], [];
    }

    /** Loading: the configured list of levels, and that of sizes unless it is
        repeated, become the live lists themselves. */
    method InitializeLevels(levels: PyList?, sizes: PyList?) returns (r: Result<bool>)
      requires Valid()
      modifies this`exitLevels, this`exitSizes, this`initial, this`ticks, this`fired
      ensures Valid()
      ensures r != Ok(true) ==> unchanged(this)
      ensures r == match Loading(Setting(levels), Setting(sizes))
                   case Err(e) => Err(e)
                   case Ok(start) => Ok(start.Some?)
      ensures r == Ok(true) ==>
                && initial == StartOf(Setting(levels), Setting(sizes)) && (ticks, fired) == ([], [])
                && exitLevels == levels && (if |sizes.items| == 1 then fresh(exitSizes) else exitSizes == sizes)
    {
      if levels == null || sizes == null {
        return Ok(false);
      }
      var live: PyList := sizes;
      if |sizes.items| == 1 {
        live := new PyList(Repeated(sizes.items, |levels.items|));
      }
      if |live.items| != |levels.items| {
        return Err(Exception);
      }
      exitLevels, exitSizes := levels, live;
      initial, ticks, fired := Zip(levels.items, live.items), [], [];
      return Ok(true);
    }

    /** Makes sure that the levels of the trade are loaded, and gives its cost and stop
        loss then, nothing otherwise. */
    method GetTradeDetails(trade: nat, tick: Tick, levels: PyList?, sizes: PyList?)
      returns (r: Result<(Option<real>, Option<real>)>)
      requires Valid()
      modifies this
      ensures Valid()
      ensures lastTrade == Some(trade) <==> old(lastTrade) == Some(trade) || Loads(Setting(levels), Setting(sizes))
      ensures lastTrade != Some(trade) || old(lastTrade) == Some(trade) ==> unchanged(this)
      ensures r == if lastTrade == Some(trade) then Ok((tick.cost, tick.stop))
                   else if Loading(Setting(levels), Setting(sizes)).Err? then Err(Exception)
                   else Ok((None, None))
      ensures lastTrade == Some(trade) && old(lastTrade) != Some(trade) ==>
                && initial == StartOf(Setting(levels), Setting(sizes)) && (ticks, fired) == ([], [])
                && exitLevels == levels && (if |sizes.items| == 1 then fresh(exitSizes) else exitSizes == sizes)
    {
      if lastTrade != Some(trade) {
        var loaded := InitializeLevels(levels, sizes);
        if loaded.Err? { return Err(loaded.error); }
        if !loaded.value { return Ok((None, None)); }
        lastTrade := Some(trade);
      }
      return Ok((tick.cost, tick.stop));
    }

    method LevelMet(level: real, tick: Tick) returns (met: bool)
      requires Priced(tick)
      ensures met == Beyond(direction, level, tick)
    {
      if direction == SHORT {
        var levelPrice := tick.cost.value + level * Distance(tick);
        met := tick.close > levelPrice;
      } else {
        var levelPrice := tick.cost.value - level * Distance(tick);
        met := tick.close < levelPrice;
      }
    }

    /** The evaluation once the levels of the trade are loaded; without a cost or a stop
        loss nothing fires. */
    method EvalLoaded(tick: Tick) returns (r: Result<Option<Shot>>)
      requires Valid()
      modifies this`ticks, this`fired, exitLevels, exitSizes
      ensures Valid() && initial == old(initial) && ticks == old(ticks) + [tick]
      ensures exitLevels == old(exitLevels) && exitSizes == old(exitSizes)
      ensures Shared() ==> (r, exitLevels.items) == SharedEval(direction, old(exitLevels.items), tick)
      ensures !Shared() ==> r.Ok? && fired == old(fired) + Shots(r) && (old(fired) == [] ==> fired == Shots(r))
      ensures !Shared() ==> (r.value.Some? <==> && |old(fired)| < |initial|
                                                && Beyond(direction, initial[|old(fired)|].level, tick))
      ensures !Shared() && r.value.Some? ==>
                && old(exitLevels.items) != [] && exitLevels.items == old(exitLevels.items)[1..]
                && old(exitSizes.items) != [] && exitSizes.items == old(exitSizes.items)[1..]
      ensures r == Ok(None) ==> exitLevels.items == old(exitLevels.items) && exitSizes.items == old(exitSizes.items)
    {
      FiredStep(direction, initial, ticks, tick);
      ticks := ticks + [tick];
      if tick.cost.None? || tick.stop.None? {
        return Ok(None);
      }
      assert !Shared() ==> |initial| == |fired| + |exitLevels.items|;
      if |exitLevels.items| == 0 || |exitSizes.items| == 0 {
        return Ok(None);
      }
      if !Shared() {
        ZipTail(exitLevels.items, exitSizes.items, fired);
        assert initial[|fired|] == Shot(exitLevels.items[0], exitSizes.items[0]);
      }
      var met := LevelMet(exitLevels.items[0], tick);
      if !met {
        return Ok(None);
      }
      var level := exitLevels.PopFirst();
      if |exitSizes.items| == 0 {
        return Err(IndexError);
      }
      var size := exitSizes.PopFirst();
      fired := fired + [Shot(level, size)];
      return Ok(Some(Shot(level, size)));
    }

    /** eval_position: a trade seen for the first time loads its levels; without any,
        nothing fires; a misfit raises and leaves the optimizer as it was. */
    method EvalPosition(trade: nat, tick: Tick, levels: PyList?, sizes: PyList?) returns (r: Result<Option<Shot>>)
      requires Valid()
      modifies this, exitLevels, exitSizes, levels, sizes
      ensures Valid()
      ensures lastTrade == Some(trade) <==> old(lastTrade) == Some(trade)
                                            || Loads(old(Setting(levels)), old(Setting(sizes)))
      ensures lastTrade != Some(trade) ==>
                && unchanged(this)
                && r == if Loading(old(Setting(levels)), old(Setting(sizes))).Err? then Err(Exception) else Ok(None)
      ensures old(lastTrade) == Some(trade) ==>
                && initial == old(initial) && ticks == old(ticks) + [tick]
                && exitLevels == old(exitLevels) && exitSizes == old(exitSizes)
                && (if Shared() then (r, exitLevels.items) == SharedEval(direction, old(exitLevels.items), tick)
                    else r.Ok? && fired == old(fired) + Shots(r))
      ensures lastTrade == Some(trade) && old(lastTrade) != Some(trade) ==>
                && initial == StartOf(old(Setting(levels)), old(Setting(sizes))) && ticks == [tick]
                && exitLevels == levels && (if |old(sizes.items)| == 1 then fresh(exitSizes) else exitSizes == sizes)
                && (if Shared() then (r, exitLevels.items) == SharedEval(direction, old(levels.items), tick)
                    else r.Ok? && fired == Shots(r))
      ensures sizes != null && sizes != exitLevels && sizes != exitSizes ==> sizes.items == old(sizes.items)
    {
      var details := GetTradeDetails(trade, tick, levels, sizes);
      if details.Err? { return Err(details.error); }
      if lastTrade != Some(trade) { return Ok(None); }
      r := EvalLoaded(tick);
    }
  }

  // ---------- One trade after another ----------

  /** The sizes a trade starts with, one for all levels or one for each. */
  predicate Fit(levels: seq<real>, sizes: seq<real>) {
    |sizes| == 1 || |sizes| == |levels|
  }

  /** One more tick of a trade whose levels are loaded. */
  method ContinueTick(optimizer: SLOptimizer, trade: nat, tick: Tick, levels: PyList, sizes: PyList)
    requires optimizer.Valid() && optimizer.lastTrade == Some(trade)
    requires optimizer.exitLevels == levels && !optimizer.Shared()
    modifies optimizer, optimizer.exitLevels, optimizer.exitSizes, levels, sizes
    ensures optimizer.Valid() && optimizer.lastTrade == Some(trade)
    ensures optimizer.exitLevels == levels && optimizer.exitSizes == old(optimizer.exitSizes)
    ensures optimizer.initial == old(optimizer.initial) && optimizer.ticks == old(optimizer.ticks) + [tick]
    ensures levels != sizes && sizes != optimizer.exitSizes ==> sizes.items == old(sizes.items)
  {
    var shot := optimizer.EvalPosition(trade, tick, levels, sizes);
  }

  /** Further ticks of such a trade. */
  method ContinueTrade(optimizer: SLOptimizer, trade: nat, ticks: seq<Tick>, levels: PyList, sizes: PyList)
    requires optimizer.Valid() && optimizer.lastTrade == Some(trade) && levels != sizes
    requires optimizer.exitLevels == levels && !optimizer.Shared()
    modifies optimizer, optimizer.exitLevels, optimizer.exitSizes, levels, sizes
    ensures optimizer.Valid() && !optimizer.Shared() && optimizer.lastTrade == Some(trade)
    ensures optimizer.exitLevels == levels && optimizer.exitSizes == old(optimizer.exitSizes)
    ensures optimizer.initial == old(optimizer.initial) && optimizer.ticks == old(optimizer.ticks) + ticks
    ensures sizes != optimizer.exitSizes ==> sizes.items == old(sizes.items)
  {
    for i := 0 to |ticks|
      invariant optimizer.Valid() && !optimizer.Shared() && optimizer.lastTrade == Some(trade)
      invariant optimizer.exitLevels == levels && optimizer.exitSizes == old(optimizer.exitSizes)
      invariant optimizer.initial == old(optimizer.initial) && optimizer.ticks == old(optimizer.ticks) + ticks[..i]
      invariant sizes != optimizer.exitSizes ==> sizes.items == old(sizes.items)
    {
      ContinueTick(optimizer, trade, ticks[i], levels, sizes);
      assert ticks[..i + 1] == ticks[..i] + [ticks[i]];
    }
    assert ticks[..|ticks|] == ticks;
  }

  lemma FirstAndRest(ticks: seq<Tick>)
    requires ticks != []
    ensures [ticks[0]] + ticks[1..] == ticks
  {
  }

  /** The ticks of one trade, one after another, on the configured lists. The live
      levels are the configured list itself, so what fires is gone from the
      configuration; the sizes go with them unless there is one for all levels. */
  method RunTrade(optimizer: SLOptimizer, trade: nat, ticks: seq<Tick>, levels: PyList, sizes: PyList)
    requires optimizer.Valid() && optimizer.lastTrade != Some(trade) && levels != sizes
    requires Fit(levels.items, sizes.items) && ticks != []
    modifies optimizer, optimizer.exitLevels, optimizer.exitSizes, levels, sizes
    ensures optimizer.Valid() && !optimizer.Shared() && optimizer.lastTrade == Some(trade)
    ensures optimizer.exitLevels == levels && (optimizer.exitSizes == sizes || fresh(optimizer.exitSizes))
    ensures var k := FiredCount(optimizer.direction, old(levels.items), ticks);
            && |optimizer.fired| == k
            && levels.items == old(levels.items)[k..]
            && sizes.items == if |old(sizes.items)| == 1 then old(sizes.items) else old(sizes.items)[k..]
  {
    ghost var start, configured := levels.items, sizes.items;
    ghost var fitted := if |configured| == 1 then Repeated(configured, |start|) else configured;
    LoadsIffFitting(Some(start), Some(configured));
    var shot := optimizer.EvalPosition(trade, ticks[0], levels, sizes);
    assert optimizer.initial == Zip(start, fitted) && Levels(optimizer.initial) == start;
    ContinueTrade(optimizer, trade, ticks[1..], levels, sizes);
    FirstAndRest(ticks);
    RestOfZip(optimizer.fired, levels.items, optimizer.exitSizes.items, start, fitted);
  }

  /** Two trades on the same settings: the levels that fired in the first are missing
      in the second, which runs on the rest. */
  method SecondTradeRunsOnTheRest(dir: Direction, first: seq<Tick>, second: seq<Tick>, levels: PyList, sizes: PyList)
    returns (optimizer: SLOptimizer)
    requires levels != sizes && Fit(levels.items, sizes.items) && first != [] && second != []
    modifies levels, sizes
    ensures optimizer.Valid()
    ensures var k := FiredCount(dir, old(levels.items), first);
            |optimizer.fired| == FiredCount(dir, old(levels.items)[k..], second)
  {
    optimizer := new SLOptimizer(dir);
    RunTrade(optimizer, 1, first, levels, sizes);
    RunTrade(optimizer, 2, second, levels, sizes);
  }
}
