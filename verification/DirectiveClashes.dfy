/** Directives that share a key: exactly when striking out the earlier ones leaves the
    meaning of a group as it was. */
module DirectiveClashes {
  import opened Directives

  // ---------- Questions ----------

  /** What a recognised directive asks, without its name. */
  datatype Question = Question(ind: string, action: Action, value: Value)

  predicate Answered(market: Market, q: Question) {
    Answer(market, q.action, q.ind, q.value)
  }

  /** The action is satisfied if this test comes out this way. */
  predicate SatisfiedBy(action: Action, test: Test, outcome: bool) {
    match action
    case Plain(asked) => test == asked && outcome
    case Negated(asked) => test == asked && !outcome
    case CrossedEither => test in {CrossedDown, CrossedUp} && outcome
  }

  predicate About(action: Action, test: Test) {
    SatisfiedBy(action, test, true) || SatisfiedBy(action, test, false)
  }

  /** Only falling and rising have a negated form. */
  predicate Askable(action: Action) {
    action.Negated? ==> action.test in {IsFalling, IsRising}
  }

  lemma OutcomeAnswers(market: Market, q: Question, test: Test)
    requires SatisfiedBy(q.action, test, market(q.ind, test, q.value))
    ensures Answered(market, q)
  {
  }

  lemma AnswerHasOutcome(market: Market, q: Question) returns (test: Test)
    requires Answered(market, q)
    ensures SatisfiedBy(q.action, test, market(q.ind, test, q.value))
  {
    match q.action
    case Plain(asked) => test := asked;
    case Negated(asked) => test := asked;
    case CrossedEither => test := if market(q.ind, CrossedDown, q.value) then CrossedDown else CrossedUp;
  }

  /** A question of the set is satisfied by this outcome. */
  ghost predicate Offered(kept: set<Question>, ind: string, value: Value, test: Test, outcome: bool) {
    exists q :: q in kept && q.ind == ind && q.value == value && SatisfiedBy(q.action, test, outcome)
  }

  /** Both outcomes of one test are asked for: falling and not falling, say. */
  ghost predicate Opposed(kept: set<Question>) {
    exists ind, value, test :: Offered(kept, ind, value, test, true) && Offered(kept, ind, value, test, false)
  }

  // ---------- OR groups ----------

  ghost predicate SomeAnswered(questions: set<Question>, market: Market) {
    exists q :: q in questions && Answered(market, q)
  }

  /** Every outcome that satisfies the question satisfies a kept one. */
  ghost predicate CoveredInOr(kept: set<Question>, q: Question) {
    forall test, outcome :: SatisfiedBy(q.action, test, outcome) ==> Offered(kept, q.ind, q.value, test, outcome)
  }

  ghost predicate HarmlessInOr(kept: set<Question>, all: set<Question>) {
    Opposed(kept) || forall q :: q in all ==> CoveredInOr(kept, q)
  }

  lemma OfferedIsAnswered(kept: set<Question>, market: Market, ind: string, value: Value, test: Test)
    requires Offered(kept, ind, value, test, market(ind, test, value))
    ensures SomeAnswered(kept, market)
  {
    var q :| q in kept && q.ind == ind && q.value == value && SatisfiedBy(q.action, test, market(ind, test, value));
    OutcomeAnswers(market, q, test);
  }

  lemma OpposedIsAnswered(kept: set<Question>, market: Market)
    requires Opposed(kept)
    ensures SomeAnswered(kept, market)
  {
    var ind, value, test :| Offered(kept, ind, value, test, true) && Offered(kept, ind, value, test, false);
    OfferedIsAnswered(kept, market, ind, value, test);
  }

  lemma HarmlessOrMeans(kept: set<Question>, all: set<Question>, market: Market)
    requires kept <= all && HarmlessInOr(kept, all)
    ensures SomeAnswered(kept, market) <==> SomeAnswered(all, market)
  {
    if Opposed(kept) {
      OpposedIsAnswered(kept, market);
    } else if SomeAnswered(all, market) {
      var q :| q in all && Answered(market, q);
      var test := AnswerHasOutcome(market, q);
      assert CoveredInOr(kept, q);
      OfferedIsAnswered(kept, market, q.ind, q.value, test);
    }
  }

  /** One test has this outcome, and every other one an outcome nobody asks for. */
  ghost function Refusing(kept: set<Question>, q: Question, asked: Test, outcome: bool): Market {
    (ind: string, test: Test, value: Value) =>
      if ind == q.ind && value == q.value && test == asked then outcome
      else Offered(kept, ind, value, test, false)
  }

  lemma RefusingAnswersNone(kept: set<Question>, q: Question, asked: Test, outcome: bool)
    requires !Opposed(kept) && !Offered(kept, q.ind, q.value, asked, outcome)
    ensures !SomeAnswered(kept, Refusing(kept, q, asked, outcome))
  {
    var market := Refusing(kept, q, asked, outcome);
    if SomeAnswered(kept, market) {
      var k :| k in kept && Answered(market, k);
      var test := AnswerHasOutcome(market, k);
      assert Offered(kept, k.ind, k.value, test, market(k.ind, test, k.value));
      assert false;
    }
  }

  lemma UncoveredIsLost(kept: set<Question>, all: set<Question>, q: Question) returns (market: Market)
    requires q in all && !CoveredInOr(kept, q) && !Opposed(kept)
    ensures SomeAnswered(all, market) && !SomeAnswered(kept, market)
  {
    var test, outcome :| SatisfiedBy(q.action, test, outcome) && !Offered(kept, q.ind, q.value, test, outcome);
    market := Refusing(kept, q, test, outcome);
    RefusingAnswersNone(kept, q, test, outcome);
    OutcomeAnswers(market, q, test);
  }

  // ---------- AND groups ----------

  ghost predicate AllAnswered(questions: set<Question>, market: Market) {
    forall q :: q in questions ==> Answered(market, q)
  }

  /** A kept question about the same series asks no less. */
  ghost predicate CoveredInAnd(kept: set<Question>, q: Question) {
    exists k :: k in kept && AsksNoLess(k, q)
  }

  ghost predicate AsksNoLess(k: Question, q: Question) {
    && k.ind == q.ind && k.value == q.value
    && forall test, outcome :: SatisfiedBy(k.action, test, outcome) ==> SatisfiedBy(q.action, test, outcome)
  }

  ghost predicate HarmlessInAnd(kept: set<Question>, all: set<Question>) {
    Opposed(kept) || forall q :: q in all ==> CoveredInAnd(kept, q)
  }

  lemma OpposedContradict(kept: set<Question>, market: Market)
    requires Opposed(kept) && forall q :: q in kept ==> Askable(q.action)
    ensures !AllAnswered(kept, market)
  {
    var ind, value, test :| Offered(kept, ind, value, test, true) && Offered(kept, ind, value, test, false);
    var yes :| yes in kept && yes.ind == ind && yes.value == value && SatisfiedBy(yes.action, test, true);
    var no :| no in kept && no.ind == ind && no.value == value && SatisfiedBy(no.action, test, false);
    assert Askable(no.action);
    assert !(Answered(market, yes) && Answered(market, no));
  }

  lemma NarrowerIsAnswered(k: Question, q: Question, market: Market)
    requires AsksNoLess(k, q) && Answered(market, k)
    ensures Answered(market, q)
  {
    var test := AnswerHasOutcome(market, k);
    OutcomeAnswers(market, q, test);
  }

  lemma HarmlessAndMeans(kept: set<Question>, all: set<Question>, market: Market)
    requires kept <= all && HarmlessInAnd(kept, all) && forall q :: q in kept ==> Askable(q.action)
    ensures AllAnswered(kept, market) <==> AllAnswered(all, market)
  {
    if Opposed(kept) {
      OpposedContradict(kept, market);
    } else if AllAnswered(kept, market) {
      forall q | q in all
        ensures Answered(market, q)
      {
        var k :| k in kept && AsksNoLess(k, q);
        NarrowerIsAnswered(k, q, market);
      }
    }
  }

  lemma AboutIfSatisfied(action: Action, test: Test, outcome: bool)
    requires SatisfiedBy(action, test, outcome)
    ensures About(action, test) && !SatisfiedBy(action, test, !outcome)
  {
  }

  /** No outcome satisfies the question; other tests come out as they are asked for. */
  ghost function Failing(kept: set<Question>, q: Question): Market {
    (ind: string, test: Test, value: Value) =>
      if ind == q.ind && value == q.value && About(q.action, test)
      then !SatisfiedBy(q.action, test, true)
      else Offered(kept, ind, value, test, true)
  }

  lemma FailingFails(kept: set<Question>, q: Question)
    ensures !Answered(Failing(kept, q), q)
  {
    var market := Failing(kept, q);
    if Answered(market, q) {
      var test := AnswerHasOutcome(market, q);
      AboutIfSatisfied(q.action, test, market(q.ind, test, q.value));
      assert false;
    }
  }

  /** An outcome that satisfies the one question, and not the other one if they are
      about the same series. */
  lemma OutcomeApart(k: Question, q: Question) returns (test: Test, outcome: bool)
    requires !AsksNoLess(k, q)
    ensures SatisfiedBy(k.action, test, outcome)
    ensures k.ind == q.ind && k.value == q.value ==> !SatisfiedBy(q.action, test, outcome)
  {
    if k.ind == q.ind && k.value == q.value {
      test, outcome :| SatisfiedBy(k.action, test, outcome) && !SatisfiedBy(q.action, test, outcome);
    } else {
      match k.action
      case Plain(asked) => test, outcome := asked, true;
      case Negated(asked) => test, outcome := asked, false;
      case CrossedEither => test, outcome := CrossedUp, true;
    }
  }

  lemma FailingAnswersKept(kept: set<Question>, q: Question, k: Question)
    requires k in kept && !AsksNoLess(k, q) && !Opposed(kept)
    ensures Answered(Failing(kept, q), k)
  {
    var market := Failing(kept, q);
    var test, outcome := OutcomeApart(k, q);
    assert Offered(kept, k.ind, k.value, test, outcome);
    assert !Offered(kept, k.ind, k.value, test, !outcome);
    OutcomeAnswers(market, k, test);
  }

  lemma UncoveredIsIgnored(kept: set<Question>, all: set<Question>, q: Question) returns (market: Market)
    requires q in all && !CoveredInAnd(kept, q) && !Opposed(kept)
    ensures !AllAnswered(all, market) && AllAnswered(kept, market)
  {
    market := Failing(kept, q);
    FailingFails(kept, q);
    forall k | k in kept
      ensures Answered(market, k)
    {
      FailingAnswersKept(kept, q, k);
    }
  }

  // ---------- Groups of directives ----------

  function QuestionOf(d: Directive): Question
    requires Recognised(d)
  {
    Question(d.ind, ActionOf(d.name).value, d.value)
  }

  lemma ActionsAreAskable(name: string)
    ensures ActionOf(name).Some? ==> Askable(ActionOf(name).value)
  {
  }

  /** All that a list of directives asks. */
  ghost function AskedBy(ds: seq<Directive>): set<Question> {
    set d | d in ds && Recognised(d) :: QuestionOf(d)
  }

  /** What is asked by the directives kept in the dictionary. */
  ghost function KeptOf(ds: seq<Directive>, str: Printer): set<Question> {
    set i | 0 <= i < |ds| && KeptAt(ds, str, i) :: QuestionOf(ds[i])
  }

  lemma KeptIsAsked(ds: seq<Directive>, str: Printer)
    ensures KeptOf(ds, str) <= AskedBy(ds)
    ensures forall q :: q in AskedBy(ds) ==> Askable(q.action)
  {
    forall q | q in KeptOf(ds, str)
      ensures q in AskedBy(ds)
    {
      var i :| 0 <= i < |ds| && KeptAt(ds, str, i) && QuestionOf(ds[i]) == q;
      assert ds[i] in ds;
    }
    forall q | q in AskedBy(ds)
      ensures Askable(q.action)
    {
      var d :| d in ds && Recognised(d) && QuestionOf(d) == q;
      ActionsAreAskable(d.name);
    }
  }

  /** The compiled OR group answers as its directives mean, in every market. */
  ghost predicate OrKeepsMeaning(ds: seq<Directive>, str: Printer) {
    forall market :: AnyTrue(Conditions(ds, market, str)) <==> SomeAnswered(AskedBy(ds), market)
  }

  lemma CompiledOr(ds: seq<Directive>, market: Market, str: Printer)
    ensures AnyTrue(Conditions(ds, market, str)) <==> SomeAnswered(KeptOf(ds, str), market)
  {
    KeptDecideOr(ds, market, str);
    if SomeKeptHolds(ds, market, str) {
      var i :| 0 <= i < |ds| && KeptAt(ds, str, i) && Holds(market, ds[i]);
      assert QuestionOf(ds[i]) in KeptOf(ds, str);
    }
  }

  /** An OR group keeps its meaning in every market exactly when what the kept
      directives ask covers each struck-out one, or leaves no market out anyway. */
  lemma OrKeepsMeaningIff(ds: seq<Directive>, str: Printer)
    ensures OrKeepsMeaning(ds, str) <==> HarmlessInOr(KeptOf(ds, str), AskedBy(ds))
  {
    var kept, all := KeptOf(ds, str), AskedBy(ds);
    KeptIsAsked(ds, str);
    if HarmlessInOr(kept, all) {
      forall market
        ensures AnyTrue(Conditions(ds, market, str)) <==> SomeAnswered(all, market)
      {
        CompiledOr(ds, market, str);
        HarmlessOrMeans(kept, all, market);
      }
    } else {
      var q :| q in all && !CoveredInOr(kept, q);
      var market := UncoveredIsLost(kept, all, q);
      CompiledOr(ds, market, str);
    }
  }

  predicate AndAnswer(cond: map<string, bool>) {
    cond != map[] && AllTrue(cond)
  }

  /** The compiled AND group answers as its directives mean, in every market. */
  ghost predicate AndKeepsMeaning(ds: seq<Directive>, str: Printer) {
    forall market ::
      AndAnswer(Conditions(ds, market, str)) <==> AskedBy(ds) != {} && AllAnswered(AskedBy(ds), market)
  }

  lemma NothingAskedNothingKept(ds: seq<Directive>, market: Market, str: Printer)
    ensures KeptOf(ds, str) == {} <==> AskedBy(ds) == {}
  {
    KeptIsAsked(ds, str);
    if AskedBy(ds) != {} {
      var q :| q in AskedBy(ds);
      var d :| d in ds && Recognised(d) && QuestionOf(d) == q;
      KeysArePresent(ds, market, str);
      var i := AnsweredIsKept(ds, market, str, Key(str, d));
      assert QuestionOf(ds[i]) in KeptOf(ds, str);
    }
  }

  lemma CompiledAnd(ds: seq<Directive>, market: Market, str: Printer)
    ensures AndAnswer(Conditions(ds, market, str))
            <==> AskedBy(ds) != {} && AllAnswered(KeptOf(ds, str), market)
  {
    KeptDecideAnd(ds, market, str);
    NothingAskedNothingKept(ds, market, str);
    forall i | 0 <= i < |ds| && KeptAt(ds, str, i)
      ensures QuestionOf(ds[i]) in KeptOf(ds, str) && (Holds(market, ds[i]) <==> Answered(market, QuestionOf(ds[i])))
    {
    }
    if KeptOf(ds, str) != {} {
      var q :| q in KeptOf(ds, str);
    }
  }

  /** An AND group keeps its meaning in every market exactly when some kept directive
      asks no less than each struck-out one, or the kept ones contradict each other. */
  lemma AndKeepsMeaningIff(ds: seq<Directive>, str: Printer)
    ensures AndKeepsMeaning(ds, str) <==> HarmlessInAnd(KeptOf(ds, str), AskedBy(ds))
  {
    var kept, all := KeptOf(ds, str), AskedBy(ds);
    KeptIsAsked(ds, str);
    if HarmlessInAnd(kept, all) {
      forall market
        ensures AndAnswer(Conditions(ds, market, str)) <==> all != {} && AllAnswered(all, market)
      {
        CompiledAnd(ds, market, str);
        HarmlessAndMeans(kept, all, market);
      }
    } else {
      var q :| q in all && !CoveredInAnd(kept, q);
      var market := UncoveredIsIgnored(kept, all, q);
      CompiledAnd(ds, market, str);
    }
  }

  // ---------- The signal ----------

  ghost predicate HarmlessOrGroup(indicators: Indicators, prefix: string, str: Printer) {
    var ds := Flattened("OR", indicators, prefix);
    HarmlessInOr(KeptOf(ds, str), AskedBy(ds))
  }

  ghost predicate HarmlessAndGroup(indicators: Indicators, prefix: string, str: Printer) {
    var ds := Flattened("AND", indicators, prefix);
    HarmlessInAnd(KeptOf(ds, str), AskedBy(ds))
  }

  lemma AskedIsConfigured(group: string, indicators: Indicators, prefix: string, q: Question)
    ensures q in AskedBy(Flattened(group, indicators, prefix))
            <==> exists d :: Configured(group, indicators, prefix, d) && Recognised(d) && QuestionOf(d) == q
  {
    forall d
      ensures d in Flattened(group, indicators, prefix) <==> Configured(group, indicators, prefix, d)
    {
      FlatteningMeans(group, indicators, prefix, d);
    }
  }

  lemma OrGroupHolds(indicators: Indicators, prefix: string, market: Market, str: Printer)
    ensures HarmlessOrGroup(indicators, prefix, str) ==>
              (AnyTrue(Conditions(Flattened("OR", indicators, prefix), market, str))
               <==> SomeHolds("OR", indicators, prefix, market))
  {
    var ds := Flattened("OR", indicators, prefix);
    OrKeepsMeaningIff(ds, str);
    assert HarmlessOrGroup(indicators, prefix, str) ==> OrKeepsMeaning(ds, str);
    if SomeAnswered(AskedBy(ds), market) {
      var q :| q in AskedBy(ds) && Answered(market, q);
      AskedIsConfigured("OR", indicators, prefix, q);
    }
    if SomeHolds("OR", indicators, prefix, market) {
      var d :| Configured("OR", indicators, prefix, d) && Holds(market, d);
      AskedIsConfigured("OR", indicators, prefix, QuestionOf(d));
    }
  }

  lemma AllAskedHold(indicators: Indicators, prefix: string, market: Market)
    ensures var all := AskedBy(Flattened("AND", indicators, prefix));
            all != {} && AllAnswered(all, market) <==> AllHold(indicators, prefix, market)
  {
    var all := AskedBy(Flattened("AND", indicators, prefix));
    forall q
      ensures q in all <==> exists d :: Configured("AND", indicators, prefix, d) && Recognised(d) && QuestionOf(d) == q
    {
      AskedIsConfigured("AND", indicators, prefix, q);
    }
    forall d | Configured("AND", indicators, prefix, d) && Recognised(d)
      ensures QuestionOf(d) in all && (Holds(market, d) <==> Answered(market, QuestionOf(d)))
    {
    }
    if all != {} {
      var q :| q in all;
    }
  }

  /** So the compiled signal is what the configuration says also with clashes, as long
      as they are harmless in each of its three groups. */
  lemma HarmlessClashesKeepMeaning(general: map<string, bool>, indicators: Indicators, market: Market, str: Printer)
    requires HarmlessOrGroup(indicators, "dont_buy_if", str)
    requires HarmlessOrGroup(indicators, "buy_if", str) && HarmlessAndGroup(indicators, "buy_if", str)
    ensures BuySignal(general, indicators, market, str) <==> Means(general, indicators, market)
  {
    SignalDecides(general, indicators, market, str);
    OrGroupHolds(indicators, "dont_buy_if", market, str);
    OrGroupHolds(indicators, "buy_if", market, str);
    AndKeepsMeaningIff(Flattened("AND", indicators, "buy_if"), str);
    assert AndKeepsMeaning(Flattened("AND", indicators, "buy_if"), str);
    AllAskedHold(indicators, "buy_if", market);
  }
}
