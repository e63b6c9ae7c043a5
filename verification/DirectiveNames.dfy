/** What the names of directives ask for, ending by ending, and what one directive on
    its own compiles to. */
module DirectiveNames {
  import opened Outcomes
  import opened Directives

  // ---------- Endings ----------

  lemma EndsAt(s: string, ending: string, k: nat)
    requires EndsWith(s, ending) && 1 <= k <= |ending|
    ensures s[|s| - k] == ending[|ending| - k]
  {
    assert s[|s| - |ending|..][|ending| - k] == s[|s| - k];
  }

  lemma EndOf(pre: string, ending: string)
    ensures EndsWith(pre + ending, ending)
  {
  }

  /** A name has one ending only, if the two differ in the `k`-th letter from the end. */
  lemma OneEnding(pre: string, ending: string, other: string, k: nat)
    requires 1 <= k <= |ending| && k <= |other| && ending[|ending| - k] != other[|other| - k]
    ensures EndsWith(pre + ending, ending) && !EndsWith(pre + ending, other)
  {
    EndOf(pre, ending);
    EndsAt(pre + ending, ending, k);
    if EndsWith(pre + ending, other) { EndsAt(pre + ending, other, k); }
  }

  lemma LevelEndings(pre: string)
    ensures ActionOf(pre + "above") == Some(Plain(IsAbove))
    ensures ActionOf(pre + "below") == Some(Plain(IsBelow))
  {
    EndOf(pre, "above");
    OneEnding(pre, "below", "above", 1);
  }

  /** Not one of the first four endings. */
  lemma LaterEnding(pre: string, ending: string)
    requires |ending| >= 1 && ending[|ending| - 1] !in {'e', 'w', 'g'}
    ensures EndsWith(pre + ending, ending)
    ensures !EndsWith(pre + ending, "above") && !EndsWith(pre + ending, "below")
    ensures !EndsWith(pre + ending, "falling") && !EndsWith(pre + ending, "rising")
  {
    OneEnding(pre, ending, "above", 1);
    OneEnding(pre, ending, "below", 1);
    OneEnding(pre, ending, "falling", 1);
    OneEnding(pre, ending, "rising", 1);
  }

  lemma CrossedDownEnding(pre: string)
    ensures ActionOf(pre + "crossed_down") == Some(Plain(CrossedDown))
  {
    LaterEnding(pre, "crossed_down");
  }

  lemma CrossedUpEnding(pre: string)
    ensures ActionOf(pre + "crossed_up") == Some(Plain(CrossedUp))
  {
    LaterEnding(pre, "crossed_up");
    OneEnding(pre, "crossed_up", "crossed_down", 1);
  }

  /** Not one of the first six. */
  lemma LastEnding(pre: string, ending: string)
    requires |ending| >= 1 && ending[|ending| - 1] in {'d', 'a', 'v'}
    ensures EndsWith(pre + ending, ending)
    ensures !EndsWith(pre + ending, "above") && !EndsWith(pre + ending, "below")
    ensures !EndsWith(pre + ending, "falling") && !EndsWith(pre + ending, "rising")
    ensures !EndsWith(pre + ending, "crossed_down") && !EndsWith(pre + ending, "crossed_up")
  {
    LaterEnding(pre, ending);
    OneEnding(pre, ending, "crossed_down", 1);
    OneEnding(pre, ending, "crossed_up", 1);
  }

  lemma CrossedEnding(pre: string)
    ensures ActionOf(pre + "crossed") == Some(CrossedEither)
  {
    LastEnding(pre, "crossed");
  }

  lemma PivotAEnding(pre: string)
    ensures ActionOf(pre + "pivot_a") == Some(Plain(PivotA))
  {
    LastEnding(pre, "pivot_a");
    OneEnding(pre, "pivot_a", "crossed", 1);
  }

  lemma PivotVEnding(pre: string)
    ensures ActionOf(pre + "pivot_v") == Some(Plain(PivotV))
  {
    LastEnding(pre, "pivot_v");
    OneEnding(pre, "pivot_v", "crossed", 1);
    OneEnding(pre, "pivot_v", "pivot_a", 1);
  }

  predicate AfterNot(pre: string) {
    |pre| >= 4 && pre[|pre| - 4..] == "not_"
  }

  lemma NotBefore(pre: string, ending: string, negated: string)
    requires negated == "not_" + ending
    ensures EndsWith(pre + ending, negated) <==> AfterNot(pre)
  {
    var s := pre + ending;
    if |pre| >= 4 {
      var last := pre[|pre| - 4..];
      assert s[|s| - |negated|..] == last + ending;
      assert (last + ending)[..4] == last && negated[..4] == "not_";
    }
  }

  lemma NegatedNames()
    ensures "not_falling" == "not_" + "falling" && "not_rising" == "not_" + "rising"
  {
  }

  lemma FallingName(name: string)
    requires !EndsWith(name, "above") && !EndsWith(name, "below") && EndsWith(name, "falling")
    ensures ActionOf(name) == Some(if EndsWith(name, "not_falling") then Negated(IsFalling) else Plain(IsFalling))
  {
  }

  lemma FallingEndings(pre: string)
    ensures ActionOf(pre + "falling") == Some(if AfterNot(pre) then Negated(IsFalling) else Plain(IsFalling))
  {
    NegatedNames();
    OneEnding(pre, "falling", "above", 1);
    OneEnding(pre, "falling", "below", 1);
    NotBefore(pre, "falling", "not_falling");
    FallingName(pre + "falling");
  }

  lemma RisingName(name: string)
    requires !EndsWith(name, "above") && !EndsWith(name, "below") && !EndsWith(name, "falling")
    requires EndsWith(name, "rising")
    ensures ActionOf(name) == Some(if EndsWith(name, "not_rising") then Negated(IsRising) else Plain(IsRising))
  {
  }

  lemma RisingEndings(pre: string)
    ensures ActionOf(pre + "rising") == Some(if AfterNot(pre) then Negated(IsRising) else Plain(IsRising))
  {
    NegatedNames();
    OneEnding(pre, "rising", "above", 1);
    OneEnding(pre, "rising", "below", 1);
    OneEnding(pre, "rising", "falling", 4);
    NotBefore(pre, "rising", "not_rising");
    RisingName(pre + "rising");
  }

  lemma HoldsAsAsked(market: Market, name: string, ind: string, value: Value, action: Action)
    requires ActionOf(name) == Some(action)
    ensures Holds(market, Directive(ind, name, value)) <==> Answer(market, action, ind, value)
  {
  }

  /** Endings in "above" and "below". */
  lemma LevelsAsk(market: Market, pre: string, ind: string, value: Value)
    ensures Holds(market, Directive(ind, pre + "above", value)) <==> market(ind, IsAbove, value)
    ensures Holds(market, Directive(ind, pre + "below", value)) <==> market(ind, IsBelow, value)
  {
    LevelEndings(pre);
    HoldsAsAsked(market, pre + "above", ind, value, Plain(IsAbove));
    HoldsAsAsked(market, pre + "below", ind, value, Plain(IsBelow));
  }

  lemma CrossingsAsk(market: Market, pre: string, ind: string, value: Value)
    ensures Holds(market, Directive(ind, pre + "crossed_down", value)) <==> market(ind, CrossedDown, value)
    ensures Holds(market, Directive(ind, pre + "crossed_up", value)) <==> market(ind, CrossedUp, value)
    ensures Holds(market, Directive(ind, pre + "crossed", value))
            <==> market(ind, CrossedDown, value) || market(ind, CrossedUp, value)
  {
    CrossedDownEnding(pre);
    CrossedUpEnding(pre);
    CrossedEnding(pre);
    HoldsAsAsked(market, pre + "crossed_down", ind, value, Plain(CrossedDown));
    HoldsAsAsked(market, pre + "crossed_up", ind, value, Plain(CrossedUp));
    HoldsAsAsked(market, pre + "crossed", ind, value, CrossedEither);
  }

  lemma PivotsAsk(market: Market, pre: string, ind: string, value: Value)
    ensures Holds(market, Directive(ind, pre + "pivot_a", value)) <==> market(ind, PivotA, value)
    ensures Holds(market, Directive(ind, pre + "pivot_v", value)) <==> market(ind, PivotV, value)
  {
    PivotAEnding(pre);
    PivotVEnding(pre);
    HoldsAsAsked(market, pre + "pivot_a", ind, value, Plain(PivotA));
    HoldsAsAsked(market, pre + "pivot_v", ind, value, Plain(PivotV));
  }

  /** "falling" and "rising" are turned round after "not_". */
  lemma TrendsAsk(market: Market, pre: string, ind: string, value: Value)
    ensures Holds(market, Directive(ind, pre + "falling", value)) <==> market(ind, IsFalling, value) != AfterNot(pre)
    ensures Holds(market, Directive(ind, pre + "rising", value)) <==> market(ind, IsRising, value) != AfterNot(pre)
  {
    FallingEndings(pre);
    RisingEndings(pre);
    HoldsAsAsked(market, pre + "falling", ind, value, if AfterNot(pre) then Negated(IsFalling) else Plain(IsFalling));
    HoldsAsAsked(market, pre + "rising", ind, value, if AfterNot(pre) then Negated(IsRising) else Plain(IsRising));
  }

  const ENDINGS := {
    "above", "below", "falling", "rising", "crossed_down", "crossed_up", "crossed", "pivot_a", "pivot_v"}

  lemma SplitEnd(name: string, ending: string) returns (pre: string)
    requires EndsWith(name, ending)
    ensures name == pre + ending
  {
    pre := name[..|name| - |ending|];
  }

  lemma EndingOf(name: string) returns (pre: string, ending: string)
    requires ActionOf(name).Some?
    ensures ending in ENDINGS && name == pre + ending
  {
    ending := if EndsWith(name, "above") then "above"
              else if EndsWith(name, "below") then "below"
              else if EndsWith(name, "falling") then "falling"
              else if EndsWith(name, "rising") then "rising"
              else if EndsWith(name, "crossed_down") then "crossed_down"
              else if EndsWith(name, "crossed_up") then "crossed_up"
              else if EndsWith(name, "crossed") then "crossed"
              else if EndsWith(name, "pivot_a") then "pivot_a"
              else "pivot_v";
    pre := SplitEnd(name, ending);
  }

  /** A name with none of these endings adds no condition. */
  lemma OtherNamesAskNothing(ds: seq<Directive>, d: Directive, market: Market, str: Printer)
    requires forall pre, ending :: ending in ENDINGS ==> d.name != pre + ending
    ensures Conditions(ds + [d], market, str) == Conditions(ds, market, str)
  {
    if Recognised(d) {
      var pre, ending := EndingOf(d.name);
    }
    assert (ds + [d])[..|ds|] == ds;
  }

  // ---------- One directive ----------

  /** One indicator with one free-standing option. */
  function Single(ind: string, option: string, value: Value): Indicators {
    [(ind, [(option, value)])]
  }

  lemma FlattenedSingle(group: string, ind: string, option: string, value: Value, prefix: string)
    requires group in {"AND", "OR"} && option !in {"AND", "OR"}
    ensures Flattened(group, Single(ind, option, value), prefix)
            == if group == "OR" && prefix <= option then [Directive(ind, option, value)] else []
  {
    var settings := [(option, value)];
    assert settings[..0] == [] && Single(ind, option, value)[..0] == [];
    assert OfSettings(group, ind, [], prefix) == [];
    assert OfSettings(group, ind, settings, prefix) == OfOption(group, ind, option, value, prefix);
  }

  lemma ConditionsOfSingle(d: Directive, market: Market, str: Printer)
    ensures AnyTrue(Conditions([d], market, str)) <==> Holds(market, d)
  {
    assert [d][..0] == [];
    assert Conditions([], market, str) == map[];
    if Holds(market, d) {
      assert Conditions([d], market, str)[Key(str, d)];
    }
  }

  lemma NoConditions(market: Market, str: Printer)
    ensures Conditions([], market, str) == map[]
  {
  }

  lemma BuyIsNotDont(option: string)
    ensures !("buy_if" <= option && "dont_buy_if" <= option)
  {
    assert "buy_if" <= option ==> option[0] == 'b';
    assert "dont_buy_if" <= option ==> option[0] == 'd';
  }

  lemma SingleOr(ind: string, option: string, value: Value, prefix: string, market: Market, str: Printer)
    requires option !in {"AND", "OR"}
    ensures AnyTrue(Conditions(Flattened("OR", Single(ind, option, value), prefix), market, str))
            <==> prefix <= option && Holds(market, Directive(ind, option, value))
    ensures Conditions(Flattened("AND", Single(ind, option, value), prefix), market, str) == map[]
  {
    FlattenedSingle("OR", ind, option, value, prefix);
    FlattenedSingle("AND", ind, option, value, prefix);
    ConditionsOfSingle(Directive(ind, option, value), market, str);
    NoConditions(market, str);
  }

  /** A configuration of one free-standing directive whose name begins with "buy_if"
      gives a signal exactly when the directive holds; with any other name it gives
      none. */
  lemma SingleSignals(ind: string, option: string, value: Value, market: Market, str: Printer)
    requires option !in {"AND", "OR"}
    ensures BuySignal(map[], Single(ind, option, value), market, str)
            <==> "buy_if" <= option && Holds(market, Directive(ind, option, value))
  {
    SignalDecides(map[], Single(ind, option, value), market, str);
    SingleOr(ind, option, value, "dont_buy_if", market, str);
    SingleOr(ind, option, value, "buy_if", market, str);
    BuyIsNotDont(option);
  }
}
