/** The directive compiler: nested indicator settings are flattened to a work
    dictionary, the work dictionary becomes a condition dictionary, and the
    condition dictionary is evaluated to a signal. */
module Directives {
  import opened Outcomes

  // ---------- Configuration ----------

  datatype Value = Num(n: real) | Name(name: string) | Dict(items: Settings)

  /** A dictionary, as its items in order. */
  type Settings = seq<(string, Value)>

  /** Settings by indicator name. */
  type Indicators = seq<(string, Settings)>

  datatype Directive = Directive(ind: string, name: string, value: Value)

  datatype WorkDict = WorkDict(ands: seq<Directive>, ors: seq<Directive>)

  predicate StartsWith(s: string, prefix: string) {
    prefix <= s
  }

  predicate EndsWith(s: string, suffix: string) {
    |suffix| <= |s| && s[|s| - |suffix|..] == suffix
  }

  // ---------- Flattening ----------

  function Items(value: Value): Settings {
    if value.Dict? then value.items else []
  }

  function Members(ind: string, items: Settings, prefix: string): seq<Directive> {
    if items == [] then []
    else
      var before, (key, val) := Members(ind, items[..|items| - 1], prefix), items[|items| - 1];
      if StartsWith(key, prefix) then before + [Directive(ind, key, val)] else before
  }

  /** The directives that one option contributes to a group. */
  function OfOption(group: string, ind: string, option: string, value: Value, prefix: string): seq<Directive> {
    (if group == "OR" && StartsWith(option, prefix) then [Directive(ind, option, value)] else [])
    + if option == group then Members(ind, Items(value), prefix) else []
  }

  function OfSettings(group: string, ind: string, settings: Settings, prefix: string): seq<Directive> {
    if settings == [] then []
    else
      var (option, value) := settings[|settings| - 1];
      OfSettings(group, ind, settings[..|settings| - 1], prefix) + OfOption(group, ind, option, value, prefix)
  }

  function Flattened(group: string, indicators: Indicators, prefix: string): seq<Directive> {
    if indicators == [] then []
    else
      var (ind, settings) := indicators[|indicators| - 1];
      Flattened(group, indicators[..|indicators| - 1], prefix) + OfSettings(group, ind, settings, prefix)
  }

  predicate WellFormedOption(o: (string, Value)) {
    o.0 in {"AND", "OR"} ==> o.1.Dict?
  }

  predicate WellFormedSettings(settings: Settings) {
    forall j :: 0 <= j < |settings| ==> WellFormedOption(settings[j])
  }

  predicate WellFormed(indicators: Indicators) {
    forall i :: 0 <= i < |indicators| ==> WellFormedSettings(indicators[i].1)
  }

  /** The loop over the options inside an AND or OR section. */
  method AppendMembers(list: seq<Directive>, ind: string, items: Settings, prefix: string) returns (r: seq<Directive>)
    ensures r == list + Members(ind, items, prefix)
  {
    r := list;
    for k := 0 to |items|
      invariant r == list + Members(ind, items[..k], prefix)
    {
      assert items[..k + 1][..k] == items[..k];
      if StartsWith(items[k].0, prefix) {
        r := r + [Directive(ind, items[k].0, items[k].1)];
      }
    }
    assert items[..|items|] == items;
  }

  /** One option: free-standing, an AND section, or an OR section. A section that
      is not a dictionary has no items() and raises. */
  method AppendOption(ands: seq<Directive>, ors: seq<Directive>, ind: string, option: string, value: Value, prefix: string)
    returns (r: Result<WorkDict>)
    ensures r == if WellFormedOption((option, value))
                 then Ok(WorkDict(ands + OfOption("AND", ind, option, value, prefix),
                                  ors + OfOption("OR", ind, option, value, prefix)))
                 else Err(AttributeError)
  {
    var newAnds, newOrs := ands, ors;
    if StartsWith(option, prefix) {
      newOrs := newOrs + [Directive(ind, option, value)];
    }
    if option == "AND" {
      if !value.Dict? { return Err(AttributeError); }
      newAnds := AppendMembers(newAnds, ind, value.items, prefix);
    }
    if option == "OR" {
      if !value.Dict? { return Err(AttributeError); }
      newOrs := AppendMembers(newOrs, ind, value.items, prefix);
    }
    assert |"AND"| == 3 && |"OR"| == 2;
    assert newAnds == ands + OfOption("AND", ind, option, value, prefix);
    assert newOrs == ors + OfOption("OR", ind, option, value, prefix);
    return Ok(WorkDict(newAnds, newOrs));
  }

  /** The loop over the options of one indicator. */
  method AppendSettings(work: WorkDict, ind: string, settings: Settings, prefix: string) returns (r: Result<WorkDict>)
    ensures r == if WellFormedSettings(settings)
                 then Ok(WorkDict(work.ands + OfSettings("AND", ind, settings, prefix),
                                  work.ors + OfSettings("OR", ind, settings, prefix)))
                 else Err(AttributeError)
  {
    var ands, ors := work.ands, work.ors;
    for j := 0 to |settings|
      invariant ands == work.ands + OfSettings("AND", ind, settings[..j], prefix)
      invariant ors == work.ors + OfSettings("OR", ind, settings[..j], prefix)
      invariant forall i :: 0 <= i < j ==> WellFormedOption(settings[i])
    {
      var (option, value) := settings[j];
      OfSettingsStep("AND", ind, settings, j, prefix, work.ands);
      OfSettingsStep("OR", ind, settings, j, prefix, work.ors);
      var step := AppendOption(ands, ors, ind, option, value, prefix);
      if step.Err? { return Err(step.error); }
      ands, ors := step.value.ands, step.value.ors;
    }
    assert settings[..|settings|] == settings;
    return Ok(WorkDict(ands, ors));
  }

  lemma OfSettingsStep(group: string, ind: string, settings: Settings, j: nat, prefix: string, list: seq<Directive>)
    requires j < |settings|
    ensures var (option, value) := settings[j];
            list + OfSettings(group, ind, settings[..j + 1], prefix)
            == (list + OfSettings(group, ind, settings[..j], prefix)) + OfOption(group, ind, option, value, prefix)
  {
    assert settings[..j + 1][..j] == settings[..j];
  }

  lemma FlattenedStep(group: string, indicators: Indicators, i: nat, prefix: string)
    requires i < |indicators|
    ensures Flattened(group, indicators[..i + 1], prefix)
            == Flattened(group, indicators[..i], prefix) + OfSettings(group, indicators[i].0, indicators[i].1, prefix)
  {
    assert indicators[..i + 1][..i] == indicators[..i];
  }

  /** The work dictionary of the first `i` indicators. */
  function WorkOf(indicators: Indicators, i: nat, prefix: string): WorkDict
    requires i <= |indicators|
  {
    WorkDict(Flattened("AND", indicators[..i], prefix), Flattened("OR", indicators[..i], prefix))
  }

  method AppendIndicator(work: WorkDict, indicators: Indicators, i: nat, prefix: string) returns (r: Result<WorkDict>)
    requires i < |indicators| && work == WorkOf(indicators, i, prefix)
    ensures r == if WellFormedSettings(indicators[i].1) then Ok(WorkOf(indicators, i + 1, prefix)) else Err(AttributeError)
  {
    var (ind, settings) := indicators[i];
    FlattenedStep("AND", indicators, i, prefix);
    FlattenedStep("OR", indicators, i, prefix);
    r := AppendSettings(work, ind, settings, prefix);
  }

  method GetWorkDictWithDirective(indicators: Indicators, prefix: string) returns (r: Result<WorkDict>)
    ensures r == if WellFormed(indicators)
                 then Ok(WorkDict(Flattened("AND", indicators, prefix), Flattened("OR", indicators, prefix)))
                 else Err(AttributeError)
  {
    var work := WorkDict([], []);
    for i := 0 to |indicators|
      invariant work == WorkOf(indicators, i, prefix)
      invariant forall k :: 0 <= k < i ==> WellFormedSettings(indicators[k].1)
    {
      var step := AppendIndicator(work, indicators, i, prefix);
      if step.Err? { return Err(step.error); }
      work := step.value;
    }
    assert indicators[..|indicators|] == indicators;
    return Ok(work);
  }

  /** Read straight off the configuration: the directive belongs to the group if it
      is free-standing (then OR) or listed in the group's own section. */
  ghost predicate Configured(group: string, indicators: Indicators, prefix: string, d: Directive) {
    StartsWith(d.name, prefix) && exists entry :: entry in indicators && ConfiguredIn(group, entry, d)
  }

  ghost predicate ConfiguredIn(group: string, entry: (string, Settings), d: Directive) {
    entry.0 == d.ind && exists option :: option in entry.1 && ConfiguredAs(group, option, d)
  }

  predicate ConfiguredAs(group: string, option: (string, Value), d: Directive) {
    || (group == "OR" && option == (d.name, d.value))
    || (option.0 == group && (d.name, d.value) in Items(option.1))
  }

  lemma {:induction false} MembersMean(ind: string, items: Settings, prefix: string, d: Directive)
    ensures d in Members(ind, items, prefix) <==> d.ind == ind && StartsWith(d.name, prefix) && (d.name, d.value) in items
  {
    if items == [] {
    } else {
      var init, last := items[..|items| - 1], items[|items| - 1];
      MembersMean(ind, init, prefix, d);
      assert items == init + [last];
      assert Directive(ind, last.0, last.1) == d <==> d.ind == ind && last == (d.name, d.value);
    }
  }

  lemma {:induction false} OfSettingsMean(group: string, entry: (string, Settings), prefix: string, d: Directive)
    ensures d in OfSettings(group, entry.0, entry.1, prefix)
            <==> StartsWith(d.name, prefix) && ConfiguredIn(group, entry, d)
    decreases |entry.1|
  {
    var (ind, settings) := entry;
    if settings == [] {
    } else {
      var init, last := settings[..|settings| - 1], settings[|settings| - 1];
      OfSettingsMean(group, (ind, init), prefix, d);
      MembersMean(ind, Items(last.1), prefix, d);
      assert settings == init + [last];
      assert d in OfOption(group, ind, last.0, last.1, prefix)
             <==> StartsWith(d.name, prefix) && d.ind == ind && ConfiguredAs(group, last, d);
      assert ConfiguredIn(group, entry, d)
             <==> ConfiguredIn(group, (ind, init), d) || (d.ind == ind && ConfiguredAs(group, last, d));
    }
  }

  /** Flattening loses nothing and adds nothing. */
  lemma {:induction false} FlatteningMeans(group: string, indicators: Indicators, prefix: string, d: Directive)
    ensures d in Flattened(group, indicators, prefix) <==> Configured(group, indicators, prefix, d)
  {
    if indicators == [] {
    } else {
      var init, last := indicators[..|indicators| - 1], indicators[|indicators| - 1];
      FlatteningMeans(group, init, prefix, d);
      OfSettingsMean(group, last, prefix, d);
      assert indicators == init + [last];
      assert Configured(group, indicators, prefix, d)
             <==> Configured(group, init, prefix, d) || (StartsWith(d.name, prefix) && ConfiguredIn(group, last, d));
    }
  }

  // ---------- Conditions ----------

  /** The primitive tests on an indicator's series. */
  datatype Test = IsAbove | IsBelow | IsFalling | IsRising | CrossedDown | CrossedUp | PivotA | PivotV

  /** Answers every test; stands for the indicator series at one moment. */
  type Market = (string, Test, Value) -> bool

  /** str() of a configured value. */
  type Printer = Value -> string

  datatype Action = Plain(test: Test) | Negated(test: Test) | CrossedEither

  /** What the ending of a directive's name asks for. */
  function ActionOf(name: string): Option<Action> {
    if EndsWith(name, "above") then Some(Plain(IsAbove))
    else if EndsWith(name, "below") then Some(Plain(IsBelow))
    else if EndsWith(name, "falling") then
      if EndsWith(name, "not_falling") then Some(Negated(IsFalling)) else Some(Plain(IsFalling))
    else if EndsWith(name, "rising") then
      if EndsWith(name, "not_rising") then Some(Negated(IsRising)) else Some(Plain(IsRising))
    else if EndsWith(name, "crossed_down") then Some(Plain(CrossedDown))
    else if EndsWith(name, "crossed_up") then Some(Plain(CrossedUp))
    else if EndsWith(name, "crossed") then Some(CrossedEither)
    else if EndsWith(name, "pivot_a") then Some(Plain(PivotA))
    else if EndsWith(name, "pivot_v") then Some(Plain(PivotV))
    else None
  }

  predicate Recognised(d: Directive) {
    ActionOf(d.name).Some?
  }

  predicate Answer(market: Market, action: Action, ind: string, value: Value) {
    match action
    case Plain(test) => market(ind, test, value)
    case Negated(test) => !market(ind, test, value)
    case CrossedEither => market(ind, CrossedDown, value) || market(ind, CrossedUp, value)
  }

  predicate Holds(market: Market, d: Directive) {
    Recognised(d) && Answer(market, ActionOf(d.name).value, d.ind, d.value)
  }

  function Key(str: Printer, d: Directive): string {
    d.name + "_" + d.ind + "_" + str(d.value)
  }

  /** The condition dictionary: a later directive with the same key overwrites an
      earlier one, and a name with no known ending adds nothing. */
  function Conditions(ds: seq<Directive>, market: Market, str: Printer): map<string, bool> {
    if ds == [] then map[]
    else
      var before, d := Conditions(ds[..|ds| - 1], market, str), ds[|ds| - 1];
      if Recognised(d) then before[Key(str, d) := Holds(market, d)] else before
  }

  method CreateConditionsFromDirectives(ds: seq<Directive>, market: Market, str: Printer) returns (cond: map<string, bool>)
    ensures cond == Conditions(ds, market, str)
  {
    cond := map[];
    for i := 0 to |ds|
      invariant cond == Conditions(ds[..i], market, str)
    {
      var d := ds[i];
      assert ds[..i + 1][..i] == ds[..i];
      if Recognised(d) {
        cond := cond[Key(str, d) := Holds(market, d)];
      }
    }
    assert ds[..|ds|] == ds;
  }

  /** Directives that share a key ask the same question. */
  ghost predicate KeysSound(ds: seq<Directive>, str: Printer) {
    forall a, b :: a in ds && b in ds && Recognised(a) && Recognised(b) && Key(str, a) == Key(str, b) ==>
                     ActionOf(a.name) == ActionOf(b.name) && a.ind == b.ind && a.value == b.value
  }

  /** Every recognised directive finds its own answer in the dictionary. */
  ghost predicate OwnAnswers(ds: seq<Directive>, market: Market, str: Printer) {
    forall d :: d in ds && Recognised(d) ==>
      Key(str, d) in Conditions(ds, market, str) && Conditions(ds, market, str)[Key(str, d)] == Holds(market, d)
  }

  /** Every answer in the dictionary is the answer of a directive with that key. */
  lemma {:induction false} AnswersAreOwned(ds: seq<Directive>, market: Market, str: Printer)
    ensures forall key :: key in Conditions(ds, market, str) ==>
              exists d :: d in ds && Recognised(d) && Key(str, d) == key && Conditions(ds, market, str)[key] == Holds(market, d)
  {
    if ds == [] {
    } else {
      var init, last := ds[..|ds| - 1], ds[|ds| - 1];
      AnswersAreOwned(init, market, str);
      assert last in ds && forall d :: d in init ==> d in ds;
    }
  }

  lemma {:induction false} KeysArePresent(ds: seq<Directive>, market: Market, str: Printer)
    ensures forall d :: d in ds && Recognised(d) ==> Key(str, d) in Conditions(ds, market, str)
  {
    if ds == [] {
    } else {
      var init, last := ds[..|ds| - 1], ds[|ds| - 1];
      KeysArePresent(init, market, str);
      assert ds == init + [last];
    }
  }

  lemma SoundKeysOwnAnswers(ds: seq<Directive>, market: Market, str: Printer)
    requires KeysSound(ds, str)
    ensures OwnAnswers(ds, market, str)
  {
    var cond := Conditions(ds, market, str);
    KeysArePresent(ds, market, str);
    AnswersAreOwned(ds, market, str);
    forall d | d in ds && Recognised(d)
      ensures cond[Key(str, d)] == Holds(market, d)
    {
      var other :| other in ds && Recognised(other) && Key(str, other) == Key(str, d)
                   && cond[Key(str, d)] == Holds(market, other);
      assert ActionOf(other.name) == ActionOf(d.name) && other.ind == d.ind && other.value == d.value;
    }
  }

  lemma SameKeySameName(a: Directive, b: Directive, str: Printer)
    requires Key(str, a) == Key(str, b) && a.ind == b.ind && a.value == b.value
    ensures a.name == b.name
  {
    var tail := "_" + a.ind + "_" + str(a.value);
    assert Key(str, a) == a.name + tail && Key(str, b) == b.name + tail;
    assert |a.name| == |b.name|;
    assert a.name == Key(str, a)[..|a.name|] && b.name == Key(str, b)[..|b.name|];
  }

  /** A market that answers every test at one indicator and value with `yes` and
      every other test with `no`. */
  function AnswersAt(at: string, of: Value, yes: bool, no: bool): Market {
    (ind: string, test: Test, value: Value) => if ind == at && value == of then yes else no
  }

  /** Two directives on different indicators or values can be told apart. */
  lemma Separate(a: Directive, b: Directive) returns (market: Market)
    requires Recognised(a) && Recognised(b) && (a.ind != b.ind || a.value != b.value)
    ensures Holds(market, a) && !Holds(market, b)
  {
    var askA, askB := ActionOf(a.name).value, ActionOf(b.name).value;
    market := AnswersAt(a.ind, a.value, !askA.Negated?, askB.Negated?);
    assert Answer(market, askA, a.ind, a.value);
    assert !Answer(market, askB, b.ind, b.value);
  }

  /** In every market. */
  ghost predicate AlwaysOwnAnswers(ds: seq<Directive>, str: Printer) {
    forall market :: OwnAnswers(ds, market, str)
  }

  /** Two different questions under one key: in some market one of them finds the
      answer of another. */
  lemma ClashMisleads(ds: seq<Directive>, a: Directive, b: Directive, str: Printer) returns (market: Market)
    requires a in ds && b in ds && Recognised(a) && Recognised(b) && Key(str, a) == Key(str, b)
    requires a.ind != b.ind || a.value != b.value
    ensures !OwnAnswers(ds, market, str)
  {
    market := Separate(a, b);
  }

  lemma OneKeyOneQuestion(ds: seq<Directive>, a: Directive, b: Directive, str: Printer)
    requires AlwaysOwnAnswers(ds, str)
    requires a in ds && b in ds && Recognised(a) && Recognised(b) && Key(str, a) == Key(str, b)
    ensures a.name == b.name && a.ind == b.ind && a.value == b.value
  {
    if a.ind != b.ind || a.value != b.value {
      var market := ClashMisleads(ds, a, b, str);
    }
    SameKeySameName(a, b, str);
  }

  lemma SoundIfOwnAnswers(ds: seq<Directive>, str: Printer)
    requires AlwaysOwnAnswers(ds, str)
    ensures KeysSound(ds, str)
  {
    forall a, b | a in ds && b in ds && Recognised(a) && Recognised(b) && Key(str, a) == Key(str, b)
      ensures ActionOf(a.name) == ActionOf(b.name) && a.ind == b.ind && a.value == b.value
    {
      OneKeyOneQuestion(ds, a, b, str);
    }
  }

  lemma OwnAnswersIfSound(ds: seq<Directive>, str: Printer)
    requires KeysSound(ds, str)
    ensures AlwaysOwnAnswers(ds, str)
  {
    forall market
      ensures OwnAnswers(ds, market, str)
    {
      SoundKeysOwnAnswers(ds, market, str);
    }
  }

  /** When the dictionary is right: the directives keep their own answers in every
      market if and only if those that share a key ask the same question. */
  lemma ConditionsMean(ds: seq<Directive>, str: Printer)
    ensures KeysSound(ds, str) <==> AlwaysOwnAnswers(ds, str)
  {
    if KeysSound(ds, str) {
      OwnAnswersIfSound(ds, str);
    }
    if AlwaysOwnAnswers(ds, str) {
      SoundIfOwnAnswers(ds, str);
    }
  }

  /** The directive at `i` is the last recognised one of its key. */
  ghost predicate KeptAt(ds: seq<Directive>, str: Printer, i: nat) {
    && i < |ds| && Recognised(ds[i])
    && forall j :: i < j < |ds| && Recognised(ds[j]) ==> Key(str, ds[j]) != Key(str, ds[i])
  }

  lemma KeptSnoc(ds: seq<Directive>, last: Directive, str: Printer, i: nat)
    requires i < |ds|
    ensures KeptAt(ds + [last], str, i)
            <==> KeptAt(ds, str, i) && !(Recognised(last) && Key(str, last) == Key(str, ds[i]))
    ensures KeptAt(ds + [last], str, |ds|) <==> Recognised(last)
  {
    var longer := ds + [last];
    assert longer[|ds|] == last && forall j :: 0 <= j < |ds| ==> longer[j] == ds[j];
  }

  /** Whatever the keys: the dictionary holds the answers of the kept directives ... */
  lemma {:induction false} KeptAreAnswered(ds: seq<Directive>, market: Market, str: Printer, i: nat)
    requires KeptAt(ds, str, i)
    ensures Key(str, ds[i]) in Conditions(ds, market, str)
    ensures Conditions(ds, market, str)[Key(str, ds[i])] == Holds(market, ds[i])
    decreases |ds|
  {
    var n := |ds| - 1;
    if i < n {
      var init, last := ds[..n], ds[n];
      assert ds == init + [last];
      KeptSnoc(init, last, str, i);
      KeptAreAnswered(init, market, str, i);
    }
  }

  /** ... and only those. */
  lemma {:induction false} AnsweredIsKept(ds: seq<Directive>, market: Market, str: Printer, key: string) returns (i: nat)
    requires key in Conditions(ds, market, str)
    ensures KeptAt(ds, str, i) && Key(str, ds[i]) == key
  {
    var n := |ds| - 1;
    var init, last := ds[..n], ds[n];
    assert ds == init + [last];
    if Recognised(last) && Key(str, last) == key {
      i := n;
    } else {
      i := AnsweredIsKept(init, market, str, key);
      KeptSnoc(init, last, str, i);
    }
  }

  // ---------- Evaluation ----------

  datatype CondDict = CondDict(
    singles: map<string, bool>, andGroup: Option<map<string, bool>>, orGroup: Option<map<string, bool>>)

  predicate AnyTrue(m: map<string, bool>) {
    exists key :: key in m && m[key]
  }

  predicate AllTrue(m: map<string, bool>) {
    forall key :: key in m ==> m[key]
  }

  /** What the groups say: some single condition, or a non-empty AND group whose
      members all hold, or some member of the OR group. */
  predicate GroupsHold(c: CondDict) {
    || AnyTrue(c.singles)
    || (c.andGroup.Some? && c.andGroup.value != map[] && AllTrue(c.andGroup.value))
    || (c.orGroup.Some? && AnyTrue(c.orGroup.value))
  }

  /** The answers of a group, in the order a loop over its keys collects them. */
  method CollectAnswers(group: map<string, bool>) returns (ret: seq<bool>)
    ensures (exists i :: 0 <= i < |ret| && ret[i]) <==> AnyTrue(group)
    ensures (forall i :: 0 <= i < |ret| ==> ret[i]) <==> AllTrue(group)
  {
    ret := [];
    var keys := group.Keys;
    while keys != {}
      invariant keys <= group.Keys
      invariant (exists i :: 0 <= i < |ret| && ret[i]) <==> (exists key :: key in group && key !in keys && group[key])
      invariant (forall i :: 0 <= i < |ret| ==> ret[i]) <==> (forall key :: key in group && key !in keys ==> group[key])
      decreases keys
    {
      var key :| key in keys;
      ghost var before := ret;
      ret := ret + [group[key]];
      assert ret[|before|] == group[key] && forall i :: 0 <= i < |before| ==> ret[i] == before[i];
      keys := keys - {key};
    }
  }

  method Any(ret: seq<bool>) returns (r: bool)
    ensures r <==> exists i :: 0 <= i < |ret| && ret[i]
  {
    for i := 0 to |ret|
      invariant forall k :: 0 <= k < i ==> !ret[k]
    {
      if ret[i] { return true; }
    }
    return false;
  }

  method All(ret: seq<bool>) returns (r: bool)
    ensures r <==> forall i :: 0 <= i < |ret| ==> ret[i]
  {
    for i := 0 to |ret|
      invariant forall k :: 0 <= k < i ==> ret[k]
    {
      if !ret[i] { return false; }
    }
    return true;
  }

  /** The evaluator of the strategies: an empty group is skipped. */
  method EvalCondDict(c: CondDict) returns (r: bool)
    ensures r == GroupsHold(c)
  {
    var ret := [];
    if c.andGroup.Some? && |c.andGroup.value| > 0 {
      ret := CollectAnswers(c.andGroup.value);
      var all := All(ret);
      if all { return true; }
    }
    if c.orGroup.Some? && |c.orGroup.value| > 0 {
      ret := CollectAnswers(c.orGroup.value);
      var any := Any(ret);
      if any { return true; }
    }
    ret := CollectAnswers(c.singles);
    r := Any(ret);
  }

  /** An earlier evaluator: its AND loop leaves the flag unset when the group is
      empty, and reading it raises. */
  method EvalCondDictUnguarded(c: CondDict) returns (r: Result<bool>)
    ensures r == if !AnyTrue(c.singles) && c.andGroup == Some(map[]) then Err(UnboundLocalError) else Ok(GroupsHold(c))
  {
    var keys := c.singles.Keys;
    while keys != {}
      invariant keys <= c.singles.Keys
      invariant forall key :: key in c.singles && key !in keys ==> !c.singles[key]
      decreases keys
    {
      var key :| key in keys;
      if c.singles[key] { return Ok(true); }
      keys := keys - {key};
    }
    if c.andGroup.Some? {
      var group := c.andGroup.value;
      var ret := None;
      keys := group.Keys;
      while keys != {}
        invariant keys <= group.Keys
        invariant forall key :: key in group && key !in keys ==> group[key]
        invariant ret == if keys == group.Keys then None else Some(true)
        decreases keys
      {
        var key :| key in keys;
        ret := Some(group[key]);
        if !group[key] { break; }
        keys := keys - {key};
      }
      if ret.None? {
        assert group.Keys == {};
        return Err(UnboundLocalError);
      }
      if ret.value { return Ok(true); }
    }
    if c.orGroup.Some? {
      var group := c.orGroup.value;
      keys := group.Keys;
      while keys != {}
        invariant keys <= group.Keys
        invariant forall key :: key in group && key !in keys ==> !group[key]
        decreases keys
      {
        var key :| key in keys;
        if group[key] { return Ok(true); }
        keys := keys - {key};
      }
    }
    return Ok(false);
  }

  function OnlyOr(conditions: map<string, bool>): CondDict {
    CondDict(map[], None, Some(conditions))
  }

  function OnlyAnd(conditions: map<string, bool>): CondDict {
    CondDict(map[], Some(conditions), None)
  }

  // ---------- The buy signal ----------

  /** The stages of the buy decision after the general preconditions. */
  function ConfiguredSignal(indicators: Indicators, market: Market, str: Printer): bool {
    if GroupsHold(OnlyOr(Conditions(Flattened("OR", indicators, "dont_buy_if"), market, str))) then false
    else if GroupsHold(OnlyOr(Conditions(Flattened("OR", indicators, "buy_if"), market, str))) then true
    else GroupsHold(OnlyAnd(Conditions(Flattened("AND", indicators, "buy_if"), market, str)))
  }

  /** The whole decision. `general` holds the general preconditions, which come with
      empty AND and OR groups. */
  function BuySignal(general: map<string, bool>, indicators: Indicators, market: Market, str: Printer): bool {
    !GroupsHold(CondDict(general, Some(map[]), Some(map[]))) && ConfiguredSignal(indicators, market, str)
  }

  method ConditionsMet(general: map<string, bool>, indicators: Indicators, market: Market, str: Printer)
    returns (r: Result<bool>)
    ensures WellFormed(indicators) ==> r == Ok(BuySignal(general, indicators, market, str))
    ensures !WellFormed(indicators) ==> r == if AnyTrue(general) then Ok(false) else Err(AttributeError)
  {
    var result := EvalCondDict(CondDict(general, Some(map[]), Some(map[])));
    if result { return Ok(false); }
    var dontBuy := GetWorkDictWithDirective(indicators, "dont_buy_if");
    if dontBuy.Err? { return Err(dontBuy.error); }
    var precond := CreateConditionsFromDirectives(dontBuy.value.ors, market, str);
    result := EvalCondDict(OnlyOr(precond));
    if result { return Ok(false); }
    var buyIf := GetWorkDictWithDirective(indicators, "buy_if");
    assert buyIf.Ok?;  // the same settings flattened above
    var orCond := CreateConditionsFromDirectives(buyIf.value.ors, market, str);
    result := EvalCondDict(OnlyOr(orCond));
    if result { return Ok(true); }
    var andCond := CreateConditionsFromDirectives(buyIf.value.ands, market, str);
    result := EvalCondDict(OnlyAnd(andCond));
    return Ok(result);
  }

  /** What the configuration means, without flattening or dictionaries. */
  ghost predicate Means(general: map<string, bool>, indicators: Indicators, market: Market) {
    && !AnyTrue(general)
    && !SomeHolds("OR", indicators, "dont_buy_if", market)
    && (SomeHolds("OR", indicators, "buy_if", market) || AllHold(indicators, "buy_if", market))
  }

  ghost predicate SomeHolds(group: string, indicators: Indicators, prefix: string, market: Market) {
    exists d :: Configured(group, indicators, prefix, d) && Holds(market, d)
  }

  ghost predicate AllHold(indicators: Indicators, prefix: string, market: Market) {
    && (exists d :: Configured("AND", indicators, prefix, d) && Recognised(d))
    && forall d :: Configured("AND", indicators, prefix, d) && Recognised(d) ==> Holds(market, d)
  }

  ghost predicate NoClashes(indicators: Indicators, str: Printer) {
    && KeysSound(Flattened("OR", indicators, "dont_buy_if"), str)
    && KeysSound(Flattened("OR", indicators, "buy_if"), str)
    && KeysSound(Flattened("AND", indicators, "buy_if"), str)
  }

  lemma AnswerHolds(ds: seq<Directive>, market: Market, str: Printer) returns (d: Directive)
    requires AnyTrue(Conditions(ds, market, str))
    ensures d in ds && Recognised(d) && Holds(market, d)
  {
    var cond := Conditions(ds, market, str);
    AnswersAreOwned(ds, market, str);
    var key :| key in cond && cond[key];
    d :| d in ds && Recognised(d) && Key(str, d) == key && cond[key] == Holds(market, d);
  }

  lemma OrGroupMeans(indicators: Indicators, prefix: string, market: Market, str: Printer)
    requires KeysSound(Flattened("OR", indicators, prefix), str)
    ensures AnyTrue(Conditions(Flattened("OR", indicators, prefix), market, str))
            <==> SomeHolds("OR", indicators, prefix, market)
  {
    var ds := Flattened("OR", indicators, prefix);
    var cond := Conditions(ds, market, str);
    SoundKeysOwnAnswers(ds, market, str);
    if SomeHolds("OR", indicators, prefix, market) {
      var d :| Configured("OR", indicators, prefix, d) && Holds(market, d);
      FlatteningMeans("OR", indicators, prefix, d);
      assert cond[Key(str, d)];
    }
    if AnyTrue(cond) {
      var d := AnswerHolds(ds, market, str);
      FlatteningMeans("OR", indicators, prefix, d);
    }
  }

  lemma AndConditionsMean(ds: seq<Directive>, market: Market, str: Printer)
    requires KeysSound(ds, str)
    ensures var cond := Conditions(ds, market, str);
            cond != map[] && AllTrue(cond)
            <==> (exists d :: d in ds && Recognised(d)) && forall d :: d in ds && Recognised(d) ==> Holds(market, d)
  {
    var cond := Conditions(ds, market, str);
    SoundKeysOwnAnswers(ds, market, str);
    AnswersAreOwned(ds, market, str);
    if cond != map[] {
      assert cond.Keys != {};
      var key :| key in cond;
    }
  }

  lemma AndGroupMeans(indicators: Indicators, prefix: string, market: Market, str: Printer)
    requires KeysSound(Flattened("AND", indicators, prefix), str)
    ensures var cond := Conditions(Flattened("AND", indicators, prefix), market, str);
            cond != map[] && AllTrue(cond) <==> AllHold(indicators, prefix, market)
  {
    var ds := Flattened("AND", indicators, prefix);
    AndConditionsMean(ds, market, str);
    forall d
      ensures d in ds <==> Configured("AND", indicators, prefix, d)
    {
      FlatteningMeans("AND", indicators, prefix, d);
    }
  }

  /** The decision over the three condition dictionaries. */
  predicate Decide(general: map<string, bool>, dontBuy: map<string, bool>,
                   orCond: map<string, bool>, andCond: map<string, bool>)
  {
    !AnyTrue(general) && !AnyTrue(dontBuy) && (AnyTrue(orCond) || (andCond != map[] && AllTrue(andCond)))
  }

  lemma SignalDecides(general: map<string, bool>, indicators: Indicators, market: Market, str: Printer)
    ensures BuySignal(general, indicators, market, str)
            <==> Decide(general, Conditions(Flattened("OR", indicators, "dont_buy_if"), market, str),
                        Conditions(Flattened("OR", indicators, "buy_if"), market, str),
                        Conditions(Flattened("AND", indicators, "buy_if"), market, str))
  {
  }

  /** Compilation preserves meaning: unless two different conditions print to the
      same key, the compiled signal is what the configuration says. */
  lemma CompilationPreservesMeaning(general: map<string, bool>, indicators: Indicators, market: Market, str: Printer)
    requires NoClashes(indicators, str)
    ensures BuySignal(general, indicators, market, str) <==> Means(general, indicators, market)
  {
    SignalDecides(general, indicators, market, str);
    OrGroupMeans(indicators, "dont_buy_if", market, str);
    OrGroupMeans(indicators, "buy_if", market, str);
    AndGroupMeans(indicators, "buy_if", market, str);
  }

  ghost predicate SomeKeptHolds(ds: seq<Directive>, market: Market, str: Printer) {
    exists i :: 0 <= i < |ds| && KeptAt(ds, str, i) && Holds(market, ds[i])
  }

  ghost predicate AllKeptHold(ds: seq<Directive>, market: Market, str: Printer) {
    && (exists i :: 0 <= i < |ds| && KeptAt(ds, str, i))
    && forall i :: 0 <= i < |ds| && KeptAt(ds, str, i) ==> Holds(market, ds[i])
  }

  lemma KeptDecideOr(ds: seq<Directive>, market: Market, str: Printer)
    ensures AnyTrue(Conditions(ds, market, str)) <==> SomeKeptHolds(ds, market, str)
  {
    var cond := Conditions(ds, market, str);
    if SomeKeptHolds(ds, market, str) {
      var i :| 0 <= i < |ds| && KeptAt(ds, str, i) && Holds(market, ds[i]);
      KeptAreAnswered(ds, market, str, i);
      assert cond[Key(str, ds[i])];
    }
    if AnyTrue(cond) {
      var key :| key in cond && cond[key];
      var i := AnsweredIsKept(ds, market, str, key);
      KeptAreAnswered(ds, market, str, i);
    }
  }

  lemma KeptDecideAnd(ds: seq<Directive>, market: Market, str: Printer)
    ensures Conditions(ds, market, str) != map[] && AllTrue(Conditions(ds, market, str)) <==> AllKeptHold(ds, market, str)
  {
    var cond := Conditions(ds, market, str);
    forall i | 0 <= i < |ds| && KeptAt(ds, str, i)
      ensures Key(str, ds[i]) in cond && cond[Key(str, ds[i])] == Holds(market, ds[i])
    {
      KeptAreAnswered(ds, market, str, i);
    }
    forall key | key in cond
      ensures exists i :: 0 <= i < |ds| && KeptAt(ds, str, i) && Key(str, ds[i]) == key
    {
      var i := AnsweredIsKept(ds, market, str, key);
    }
    if cond != map[] {
      assert cond.Keys != {};
      var key :| key in cond;
    }
  }

  /** What the compiled signal is, for every configuration: what it would mean with
      each directive struck out whose key a later one has. */
  lemma SignalMeansKept(general: map<string, bool>, indicators: Indicators, market: Market, str: Printer)
    ensures BuySignal(general, indicators, market, str)
            <==> && !AnyTrue(general)
                 && !SomeKeptHolds(Flattened("OR", indicators, "dont_buy_if"), market, str)
                 && (|| SomeKeptHolds(Flattened("OR", indicators, "buy_if"), market, str)
                     || AllKeptHold(Flattened("AND", indicators, "buy_if"), market, str))
  {
    SignalDecides(general, indicators, market, str);
    KeptDecideOr(Flattened("OR", indicators, "dont_buy_if"), market, str);
    KeptDecideOr(Flattened("OR", indicators, "buy_if"), market, str);
    KeptDecideAnd(Flattened("AND", indicators, "buy_if"), market, str);
  }

  // ---------- More directives ----------

  lemma MoreAnswers(a: seq<Directive>, b: seq<Directive>, market: Market, str: Printer)
    requires KeysSound(b, str) && forall d :: d in a ==> d in b
    ensures AnyTrue(Conditions(a, market, str)) ==> AnyTrue(Conditions(b, market, str))
  {
    if AnyTrue(Conditions(a, market, str)) {
      var d := AnswerHolds(a, market, str);
      SoundKeysOwnAnswers(b, market, str);
      assert Conditions(b, market, str)[Key(str, d)];
    }
  }

  /** The two configurations flatten to the same list. */
  predicate SameList(group: string, prefix: string, a: Indicators, b: Indicators) {
    Flattened(group, a, prefix) == Flattened(group, b, prefix)
  }

  ghost predicate MoreDirectives(group: string, prefix: string, a: Indicators, b: Indicators) {
    forall d :: Configured(group, a, prefix, d) ==> Configured(group, b, prefix, d)
  }

  lemma MoreIsMore(prefix: string, a: Indicators, b: Indicators, market: Market, str: Printer)
    requires MoreDirectives("OR", prefix, a, b) && KeysSound(Flattened("OR", b, prefix), str)
    ensures AnyTrue(Conditions(Flattened("OR", a, prefix), market, str)) ==>
              AnyTrue(Conditions(Flattened("OR", b, prefix), market, str))
  {
    forall d | d in Flattened("OR", a, prefix)
      ensures d in Flattened("OR", b, prefix)
    {
      FlatteningMeans("OR", a, prefix, d);
      FlatteningMeans("OR", b, prefix, d);
    }
    MoreAnswers(Flattened("OR", a, prefix), Flattened("OR", b, prefix), market, str);
  }

  /** More OR directives never take a signal away, and more dont-buy directives
      never create one, if the longer list is free of clashes and the others are the
      same. */
  lemma SignalIsMonotone(general: map<string, bool>, a: Indicators, b: Indicators, market: Market, str: Printer)
    requires SameList("AND", "buy_if", a, b)
    ensures SameList("OR", "dont_buy_if", a, b) && MoreDirectives("OR", "buy_if", a, b)
            && KeysSound(Flattened("OR", b, "buy_if"), str) ==>
              (BuySignal(general, a, market, str) ==> BuySignal(general, b, market, str))
    ensures SameList("OR", "buy_if", a, b) && MoreDirectives("OR", "dont_buy_if", a, b)
            && KeysSound(Flattened("OR", b, "dont_buy_if"), str) ==>
              (BuySignal(general, b, market, str) ==> BuySignal(general, a, market, str))
  {
    if MoreDirectives("OR", "buy_if", a, b) && KeysSound(Flattened("OR", b, "buy_if"), str) {
      MoreIsMore("buy_if", a, b, market, str);
    }
    if MoreDirectives("OR", "dont_buy_if", a, b) && KeysSound(Flattened("OR", b, "dont_buy_if"), str) {
      MoreIsMore("dont_buy_if", a, b, market, str);
    }
  }

  // ---------- A clash ----------

  /** An indicator with one free-standing directive: buy if it is above `value`. */
  function Asks(ind: string, value: Value): (string, Settings) {
    (ind, [("buy_if_above", value)])
  }

  function Asked(ind: string, value: Value): Directive {
    Directive(ind, "buy_if_above", value)
  }

  const FIRST := Asked("x", Name("y_z"))
  const SECOND := Asked("x_y", Name("z"))

  /** Indicator "x" is to be over "y_z", or indicator "x_y" over "z". */
  const CLASHING: Indicators := [Asks("x", Name("y_z")), Asks("x_y", Name("z"))]

  lemma FlattenedOfTwo(group: string, p: (string, Settings), q: (string, Settings), prefix: string)
    ensures Flattened(group, [p, q], prefix) == OfSettings(group, p.0, p.1, prefix) + OfSettings(group, q.0, q.1, prefix)
  {
    assert [p, q][..1] == [p] && [p][..0] == [];
    assert Flattened(group, [p], prefix) == OfSettings(group, p.0, p.1, prefix);
  }

  lemma OneOption(group: string, ind: string, value: Value, prefix: string)
    requires group in {"AND", "OR"} && prefix in {"buy_if", "dont_buy_if"}
    ensures OfSettings(group, ind, Asks(ind, value).1, prefix)
            == if group == "OR" && prefix == "buy_if" then [Asked(ind, value)] else []
  {
    var settings := Asks(ind, value).1;
    assert settings[..0] == [];
    assert "buy_if_above"[..6] == "buy_if" && "buy_if_above"[0] != "dont_buy_if"[0];
    assert |"buy_if_above"| == 12 && |"AND"| == 3 && |"OR"| == 2;
  }

  lemma TwoOptions(group: string, p: string, v: Value, q: string, w: Value, prefix: string)
    requires group in {"AND", "OR"} && prefix in {"buy_if", "dont_buy_if"}
    ensures Flattened(group, [Asks(p, v), Asks(q, w)], prefix)
            == if group == "OR" && prefix == "buy_if" then [Asked(p, v), Asked(q, w)] else []
  {
    OneOption(group, p, v, prefix);
    OneOption(group, q, w, prefix);
    FlattenedOfTwo(group, Asks(p, v), Asks(q, w), prefix);
  }

  lemma ClashFlattened(group: string, prefix: string)
    requires group in {"AND", "OR"} && prefix in {"buy_if", "dont_buy_if"}
    ensures Flattened(group, CLASHING, prefix) == if group == "OR" && prefix == "buy_if" then [FIRST, SECOND] else []
  {
    TwoOptions(group, "x", Name("y_z"), "x_y", Name("z"), prefix);
  }

  lemma ClashConditions(market: Market, str: Printer)
    requires str(Name("y_z")) == "y_z" && str(Name("z")) == "z"
    ensures Recognised(FIRST) && ActionOf(FIRST.name) == Some(Plain(IsAbove))
    ensures Key(str, FIRST) == Key(str, SECOND)
    ensures Conditions([FIRST, SECOND], market, str) == map[Key(str, SECOND) := Holds(market, SECOND)]
  {
    assert EndsWith("buy_if_above", "above");
    assert Key(str, FIRST) == "buy_if_above_x_y_z" == Key(str, SECOND);
    ConditionsOfTwo(FIRST, SECOND, market, str);
  }

  lemma ConditionsOfTwo(a: Directive, b: Directive, market: Market, str: Printer)
    requires Recognised(a) && Recognised(b) && Key(str, a) == Key(str, b)
    ensures Conditions([a, b], market, str) == map[Key(str, b) := Holds(market, b)]
  {
    assert [a, b][..1] == [a] && [a][..0] == [];
    assert Conditions([a], market, str) == map[Key(str, a) := Holds(market, a)];
  }

  lemma ClashMeans(market: Market)
    requires market("x", IsAbove, Name("y_z"))
    ensures Means(map[], CLASHING, market)
  {
    assert EndsWith("buy_if_above", "above");
    assert Holds(market, FIRST);
    ClashFlattened("OR", "buy_if");
    ClashFlattened("OR", "dont_buy_if");
    FlatteningMeans("OR", CLASHING, "buy_if", FIRST);
    assert FIRST in [FIRST, SECOND];
    forall d
      ensures !Configured("OR", CLASHING, "dont_buy_if", d)
    {
      FlatteningMeans("OR", CLASHING, "dont_buy_if", d);
    }
  }

  lemma ClashCompiles(market: Market, str: Printer)
    requires str(Name("y_z")) == "y_z" && str(Name("z")) == "z"
    requires !market("x_y", IsAbove, Name("z"))
    ensures !BuySignal(map[], CLASHING, market, str)
  {
    ClashFlattened("OR", "buy_if");
    ClashFlattened("AND", "buy_if");
    ClashConditions(market, str);
    assert Conditions([], market, str) == map[];
  }

  /** A clash does lose a signal: both directives print to one key, the first one
      holds and the second does not, and the configuration, which means "buy", compiles
      to no signal. */
  lemma ClashLosesSignal(market: Market, str: Printer)
    requires str(Name("y_z")) == "y_z" && str(Name("z")) == "z"
    requires market("x", IsAbove, Name("y_z")) && !market("x_y", IsAbove, Name("z"))
    ensures Means(map[], CLASHING, market) && !BuySignal(map[], CLASHING, market, str)
  {
    ClashMeans(market);
    ClashCompiles(market, str);
  }
}
