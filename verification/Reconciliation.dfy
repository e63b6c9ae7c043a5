/** Consolidation in the limit-sell strategy: every Nth bar the single take-profit
    sell order (`limitka`) and the pending-buy dictionary are repaired against the
    broker's open orders. */
module Reconciliation {
  import opened Outcomes
  import opened Pricing
  import opened Orders
  import opened Sequences

  datatype Config = Config(maxpozic: int, defModeFrom: Option<real>, profit: real, defProfit: Option<real>,
                           consolidationBarCount: int)

  datatype Call =
    | Cancel(id: nat)
    | SellLimit(price: real, size: int)
    | Replace(id: nat, price: real, size: int)

  /** The strategy's variables, and the broker's open orders in listing order. */
  datatype State = State(
    positions: int, avgp: real,
    limitka: Option<nat>, limitkaPrice: Option<real>,
    pendingbuys: map<nat, real>, jevylozeno: int,
    book: Book, nextId: nat)

  function LimitkaPrice(cfg: Config, positions: int, avgp: real): real {
    var defProfit := match cfg.defProfit { case Some(v) => v case None => cfg.profit };
    Price2Dec(avgp + if IsDefensive(positions, cfg.maxpozic, cfg.defModeFrom) then defProfit else cfg.profit, 2)
  }

  // ---------- What a consolidation does ----------

  /** The book after a cancel for every sell but the first; the broker refuses those
      in `refused`. `found` says that the first has been seen. */
  function KeepFirstSell(book: Book, found: bool, refused: set<nat>): Book {
    if book == [] then []
    else if book[0].side != SELL then [book[0]] + KeepFirstSell(book[1..], found, refused)
    else if found && book[0].id !in refused then KeepFirstSell(book[1..], true, refused)
    else [book[0]] + KeepFirstSell(book[1..], true, refused)
  }

  function CancelCalls(book: Book, found: bool): seq<Call> {
    if book == [] then []
    else if book[0].side != SELL then CancelCalls(book[1..], found)
    else if found then [Cancel(book[0].id)] + CancelCalls(book[1..], true)
    else CancelCalls(book[1..], true)
  }

  /** What follows the walk over the orders: create the missing sell, or replace
      one with the wrong quantity or price, or leave things alone. A refused call
      changes nothing at the broker; a replaced order keeps the price the walk
      read in `limitkaPrice`. */
  function Repair(s: State, first: Option<Order>, price: real, accept: bool): (State, seq<Call>) {
    if s.positions > 0 && first.None? then
      (if accept then
         s.(limitka := Some(s.nextId), limitkaPrice := Some(price),
            book := s.book + [Order(s.nextId, SELL, LIMIT, price, s.positions, 0)], nextId := s.nextId + 1)
       else s.(limitka := None, limitkaPrice := None),
       [SellLimit(price, s.positions)])
    else if first.Some? && s.positions > 0
            && (s.positions != first.value.Remaining() || first.value.limitPrice != price) then
      (if accept then
         s.(limitka := Some(s.nextId),
            book := Without(s.book, {first.value.id}) + [Order(s.nextId, SELL, LIMIT, price, s.positions, 0)],
            nextId := s.nextId + 1)
       else s,
       [Replace(first.value.id, price, s.positions)])
    else (s, [])
  }

  function FirstSell(book: Book): Option<Order> {
    if Sells(book) == [] then None else Some(Sells(book)[0])
  }

  /** What the walk over the orders leaves for the repair. */
  function Walked(s: State, positions: int, avgp: real, refused: set<nat>): State {
    var first := FirstSell(s.book);
    s.(positions := positions, avgp := avgp, book := KeepFirstSell(s.book, false, refused),
       limitka := if first.Some? then Some(first.value.id) else None,
       limitkaPrice := if first.Some? then Some(first.value.limitPrice) else None)
  }

  /** A due consolidation. `positions` and `avgp` are what the broker reports; it takes
      the sell or the replacement if `accept`, and the cancels but for `refused`. */
  function Consolidate(cfg: Config, s: State, positions: int, avgp: real, accept: bool, refused: set<nat>)
    : (State, seq<Call>)
  {
    var (repaired, calls) := Repair(Walked(s, positions, avgp, refused), FirstSell(s.book),
                                    LimitkaPrice(cfg, positions, avgp), accept);
    (repaired.(pendingbuys := PendingOf(s.book), jevylozeno := if |PendingOf(s.book)| > 0 then 1 else 0),
     CancelCalls(s.book, false) + calls)
  }

  // ---------- Properties ----------

  ghost predicate WellKept(book: Book, nextId: nat) {
    DistinctIds(book) && forall o :: o in book ==> o.id < nextId
  }

  /** At most one open sell; and, with shares held, exactly one, for all of them
      at the take-profit price. */
  predicate Settled(book: Book, positions: int, price: real) {
    && |Sells(book)| <= 1
    && (positions > 0 ==> |Sells(book)| == 1 && Sells(book)[0].Remaining() == positions && Sells(book)[0].limitPrice == price)
  }

  /** The orders of a book that have one of the given ids. */
  function Among(book: Book, ids: set<nat>): Book {
    if book == [] then []
    else if book[0].id in ids then [book[0]] + Among(book[1..], ids)
    else Among(book[1..], ids)
  }

  /** The sells after the first whose cancels are refused. */
  function Extra(book: Book, refused: set<nat>): Book {
    if Sells(book) == [] then [] else Among(Sells(book)[1..], refused)
  }

  lemma {:induction false} KeepFirstSellEffect(book: Book, found: bool, refused: set<nat>)
    ensures Sells(KeepFirstSell(book, found, refused))
            == if found then Among(Sells(book), refused)
               else if Sells(book) == [] then [] else [Sells(book)[0]] + Extra(book, refused)
    ensures NonSells(KeepFirstSell(book, found, refused)) == NonSells(book)
  {
    if book == [] {
    } else {
      KeepFirstSellEffect(book[1..], found, refused);
      KeepFirstSellEffect(book[1..], true, refused);
      assert book == [book[0]] + book[1..];
    }
  }

  lemma {:induction false} NoCancelNoChange(book: Book, found: bool, refused: set<nat>)
    ensures CancelCalls(book, found) == [] <==> |Sells(book)| <= (if found then 0 else 1)
    ensures CancelCalls(book, found) == [] ==> KeepFirstSell(book, found, refused) == book
  {
    if book == [] {
    } else {
      NoCancelNoChange(book[1..], found, refused);
      NoCancelNoChange(book[1..], true, refused);
      assert book == [book[0]] + book[1..];
    }
  }

  lemma {:induction false} KeepFirstSellIds(book: Book, found: bool, refused: set<nat>)
    ensures forall o :: o in KeepFirstSell(book, found, refused) ==> o in book
    ensures DistinctIds(book) ==> DistinctIds(KeepFirstSell(book, found, refused))
  {
    if book == [] {
    } else {
      KeepFirstSellIds(book[1..], found, refused);
      KeepFirstSellIds(book[1..], true, refused);
      assert book == [book[0]] + book[1..];
      assert DistinctIds(book) ==> forall o :: o in book[1..] ==> o.id != book[0].id;
      var kept := KeepFirstSell(book[1..], found || book[0].side == SELL, refused);
      assert DistinctIds(book) ==> DistinctIds(kept);
      assert forall o :: o in kept ==> o in book[1..];
      assert KeepFirstSell(book, found, refused) == kept || KeepFirstSell(book, found, refused) == [book[0]] + kept;
    }
  }

  lemma OthersDiffer(sells: Book, sell: Order, others: Book)
    requires DistinctIds(sells) && sells == [sell] + others
    ensures forall o :: o in others ==> o.id != sell.id
  {
    forall i | 0 <= i < |others|
      ensures others[i].id != sell.id
    {
      assert sells[0] == sell && sells[i + 1] == others[i];
    }
  }

  lemma NonSellsDiffer(book: Book, sell: Order)
    requires DistinctIds(book) && sell in book && sell.side == SELL
    ensures forall o :: o in NonSells(book) ==> o.id != sell.id
  {
    SellsMembers(book);
  }

  lemma WithoutOneSell(book: Book, sell: Order, others: Book)
    requires DistinctIds(book) && Sells(book) == [sell] + others
    ensures Sells(Without(book, {sell.id})) == others && NonSells(Without(book, {sell.id})) == NonSells(book)
  {
    SellsWithout(book, {sell.id});
    assert sell in book && sell.side == SELL by {
      SellsMembers(book);
      assert sell in Sells(book);
    }
    SellsDistinct(book);
    OthersDiffer(Sells(book), sell, others);
    NonSellsDiffer(book, sell);
    WithoutAbsent(others, {sell.id});
    WithoutAbsent(NonSells(book), {sell.id});
    assert ([sell] + others)[1..] == others;
  }

  lemma {:induction false} SellsDistinct(book: Book)
    requires DistinctIds(book)
    ensures DistinctIds(Sells(book))
  {
    if book == [] {
    } else {
      SellsDistinct(book[1..]);
      SellsMembers(book[1..]);
      assert forall o :: o in book[1..] ==> o.id != book[0].id;
    }
  }

  lemma AppendSell(book: Book, nextId: nat, sell: Order)
    requires WellKept(book, nextId) && sell.id == nextId && sell.side == SELL
    ensures WellKept(book + [sell], nextId + 1)
    ensures Sells(book + [sell]) == Sells(book) + [sell] && NonSells(book + [sell]) == NonSells(book)
  {
    SellsAppend(book, [sell]);
    NonSellsAppend(book, [sell]);
    assert [sell][1..] == [];
  }

  /** `limitka` names an open sell for all shares at the price. */
  ghost predicate NamesTheSell(s: State, price: real) {
    exists o :: o in Sells(s.book) && s.limitka == Some(o.id) && o.Remaining() == s.positions && o.limitPrice == price
  }

  /** An accepted repair: with shares held it leaves the right sell, and the sells it
      did not touch. */
  lemma RepairMeans(s: State, first: Option<Order>, extra: Book, price: real)
    requires WellKept(s.book, s.nextId)
    requires Sells(s.book) == (if first.Some? then [first.value] + extra else []) && (first.None? ==> extra == [])
    requires s.limitka == if first.Some? then Some(first.value.id) else None
    ensures var t := Repair(s, first, price, true).0;
            && WellKept(t.book, t.nextId)
            && NonSells(t.book) == NonSells(s.book)
            && |Sells(t.book)| == (if s.positions > 0 || first.Some? then 1 else 0) + |extra|
            && (s.positions > 0 ==> NamesTheSell(t, price))
            && (s.positions <= 0 ==> t == s)
  {
    var sell := Order(s.nextId, SELL, LIMIT, price, s.positions, 0);
    var t := Repair(s, first, price, true).0;
    if t != s {
      if first.None? {
        AppendSell(s.book, s.nextId, sell);
      } else {
        WithoutOneSell(s.book, first.value, extra);
        WithoutKeepsRest(s.book, {first.value.id});
        AppendSell(Without(s.book, {first.value.id}), s.nextId, sell);
      }
      assert sell in Sells(t.book);
    } else if first.Some? {
      assert first.value in Sells(s.book);
    }
  }

  lemma WalkLeaves(s: State, positions: int, avgp: real, refused: set<nat>)
    requires WellKept(s.book, s.nextId)
    ensures var w, first := Walked(s, positions, avgp, refused), FirstSell(s.book);
            && WellKept(w.book, w.nextId) && NonSells(w.book) == NonSells(s.book)
            && Sells(w.book) == if first.Some? then [first.value] + Extra(s.book, refused) else []
  {
    KeepFirstSellEffect(s.book, false, refused);
    KeepFirstSellIds(s.book, false, refused);
  }

  lemma SettledIff(s: State, first: Option<Order>, extra: Book, price: real)
    requires WellKept(s.book, s.nextId)
    requires Sells(s.book) == (if first.Some? then [first.value] + extra else []) && (first.None? ==> extra == [])
    requires s.limitka == if first.Some? then Some(first.value.id) else None
    ensures Settled(Repair(s, first, price, true).0.book, s.positions, price) <==> extra == []
  {
    RepairMeans(s, first, extra, price);
    var t := Repair(s, first, price, true).0;
    if s.positions > 0 {
      var o :| o in Sells(t.book) && o.Remaining() == s.positions && o.limitPrice == price;
    }
  }

  /** One due consolidation, over any book, with a broker that accepts the sell or the
      replacement: the other orders stay as they are and in order; with shares held
      `limitka` names a sell for all of them at the take-profit price; the sells are
      settled exactly when no cancel of an extra sell is refused; `pendingbuys` is
      what the book holds afterwards, and `jevylozeno` says whether that is
      anything. */
  lemma ConsolidationSettles(cfg: Config, s: State, positions: int, avgp: real, refused: set<nat>)
    requires WellKept(s.book, s.nextId)
    ensures var t := Consolidate(cfg, s, positions, avgp, true, refused).0;
            && (positions > 0 ==> NamesTheSell(t, LimitkaPrice(cfg, positions, avgp)))
            && (Settled(t.book, positions, LimitkaPrice(cfg, positions, avgp)) <==> Extra(s.book, refused) == [])
            && NonSells(t.book) == NonSells(s.book)
            && t.pendingbuys == PendingOf(t.book)
            && (t.jevylozeno == 1 <==> t.pendingbuys != map[])
            && WellKept(t.book, t.nextId)
  {
    var w := Walked(s, positions, avgp, refused);
    WalkLeaves(s, positions, avgp, refused);
    RepairMeans(w, FirstSell(s.book), Extra(s.book, refused), LimitkaPrice(cfg, positions, avgp));
    SettledIff(w, FirstSell(s.book), Extra(s.book, refused), LimitkaPrice(cfg, positions, avgp));
    SameBuys(s.book, Consolidate(cfg, s, positions, avgp, true, refused).0.book);
  }

  lemma SameBuys(a: Book, b: Book)
    requires DistinctIds(a) && DistinctIds(b) && NonSells(a) == NonSells(b)
    ensures PendingOf(a) == PendingOf(b)
  {
    SellsMembers(a);
    SellsMembers(b);
    forall o: Order | o.IsLimitBuy()
      ensures o in a <==> o in b
    {
      assert o in NonSells(a) <==> o in NonSells(b);
    }
    PendingOfSameBuys(a, b);
  }

  /** A consolidation calls the broker exactly when the sells are not settled, and
      a silent one leaves the book alone. */
  lemma SilentIffSettled(cfg: Config, s: State, positions: int, avgp: real, accept: bool, refused: set<nat>)
    ensures var (t, calls) := Consolidate(cfg, s, positions, avgp, accept, refused);
            && (calls == [] <==> Settled(s.book, positions, LimitkaPrice(cfg, positions, avgp)))
            && (calls == [] ==> t.book == s.book)
  {
    NoCancelNoChange(s.book, false, refused);
  }

  lemma SilentKeeps(cfg: Config, s: State, accept: bool, refused: set<nat>)
    requires Settled(s.book, s.positions, LimitkaPrice(cfg, s.positions, s.avgp))
    requires s.limitka == if Sells(s.book) == [] then None else Some(Sells(s.book)[0].id)
    requires s.pendingbuys == PendingOf(s.book) && s.jevylozeno == if |PendingOf(s.book)| > 0 then 1 else 0
    ensures var u := Consolidate(cfg, s, s.positions, s.avgp, accept, refused).0;
            && u == s.(limitkaPrice := u.limitkaPrice)
            && (s.positions > 0 ==> u.limitkaPrice == Some(LimitkaPrice(cfg, s.positions, s.avgp)))
  {
    NoCancelNoChange(s.book, false, refused);
  }

  lemma RepairNames(s: State, first: Option<Order>, price: real)
    requires WellKept(s.book, s.nextId)
    requires Sells(s.book) == (if first.Some? then [first.value] else [])
    requires s.limitka == if first.Some? then Some(first.value.id) else None
    ensures var t := Repair(s, first, price, true).0;
            && t.positions == s.positions && t.avgp == s.avgp
            && t.limitka == if Sells(t.book) == [] then None else Some(Sells(t.book)[0].id)
  {
    RepairMeans(s, first, [], price);
    var t := Repair(s, first, price, true).0;
    if s.positions > 0 {
      var o :| o in Sells(t.book) && t.limitka == Some(o.id);
    }
  }

  lemma SettledNames(cfg: Config, s: State, positions: int, avgp: real, refused: set<nat>)
    requires WellKept(s.book, s.nextId) && Extra(s.book, refused) == []
    ensures var t := Consolidate(cfg, s, positions, avgp, true, refused).0;
            && t.positions == positions && t.avgp == avgp
            && t.limitka == (if Sells(t.book) == [] then None else Some(Sells(t.book)[0].id))
  {
    WalkLeaves(s, positions, avgp, refused);
    RepairNames(Walked(s, positions, avgp, refused), FirstSell(s.book), LimitkaPrice(cfg, positions, avgp));
  }

  /** Repeated at once it is silent exactly when no cancel was refused the first time,
      and then the only variable it can still change is `limitkaPrice`, which a
      replacement leaves stale. */
  lemma SecondConsolidationIsSilent(cfg: Config, s: State, positions: int, avgp: real, refused: set<nat>,
                                    accept: bool, refused': set<nat>)
    requires WellKept(s.book, s.nextId)
    ensures var t := Consolidate(cfg, s, positions, avgp, true, refused).0;
            var (u, calls) := Consolidate(cfg, t, positions, avgp, accept, refused');
            && (calls == [] <==> Extra(s.book, refused) == [])
            && (calls == [] ==> u == t.(limitkaPrice := u.limitkaPrice))
            && (calls == [] && positions > 0 ==> u.limitkaPrice == Some(LimitkaPrice(cfg, positions, avgp)))
  {
    var t := Consolidate(cfg, s, positions, avgp, true, refused).0;
    ConsolidationSettles(cfg, s, positions, avgp, refused);
    SilentIffSettled(cfg, t, positions, avgp, accept, refused');
    if Extra(s.book, refused) == [] {
      SettledNames(cfg, s, positions, avgp, refused);
      SilentKeeps(cfg, t, accept, refused');
    }
  }

  /** The price field really is stale after a replacement: it is the take-profit price
      exactly when no replacement was needed for the price. */
  lemma PriceFieldAgreesIff(cfg: Config, s: State, positions: int, avgp: real, refused: set<nat>)
    requires WellKept(s.book, s.nextId) && positions > 0
    ensures var t, price := Consolidate(cfg, s, positions, avgp, true, refused).0, LimitkaPrice(cfg, positions, avgp);
            && NamesTheSell(t, price)
            && (t.limitkaPrice == Some(price) <==> Sells(s.book) == [] || Sells(s.book)[0].limitPrice == price)
  {
    ConsolidationSettles(cfg, s, positions, avgp, refused);
  }

  /** A refused repair leaves the first sell of the book as it was, named by `limitka`,
      beside the extra ones whose cancels are refused too; the next accepted
      consolidation starts from there. */
  lemma RefusedRepair(cfg: Config, s: State, positions: int, avgp: real, refused: set<nat>)
    requires WellKept(s.book, s.nextId)
    ensures var t := Consolidate(cfg, s, positions, avgp, false, refused).0;
            && Sells(t.book) == (if Sells(s.book) == [] then [] else [Sells(s.book)[0]] + Extra(s.book, refused))
            && t.limitka == (if Sells(t.book) == [] then None else Some(Sells(t.book)[0].id))
            && NonSells(t.book) == NonSells(s.book)
            && WellKept(t.book, t.nextId)
  {
    WalkLeaves(s, positions, avgp, refused);
  }

  // ---------- The take-profit price ----------

  function ModeProfit(cfg: Config, positions: int): real {
    if InDefence(positions, cfg.maxpozic, cfg.defModeFrom) && cfg.defProfit.Some? then cfg.defProfit.value
    else cfg.profit
  }

  lemma LimitkaOverCost(cfg: Config, positions: int, avgp: real)
    ensures LimitkaPrice(cfg, positions, avgp) == avgp + ModeProfit(cfg, positions)
  {
    DefenceIs(positions, cfg.maxpozic, cfg.defModeFrom);
  }

  /** With shares held, an accepted consolidation leaves `limitka` naming a sell for all
      of them at the average price plus the profit of the mode. */
  lemma NamedSellIsOverCost(cfg: Config, s: State, positions: int, avgp: real, refused: set<nat>)
    requires WellKept(s.book, s.nextId) && positions > 0
    ensures var t := Consolidate(cfg, s, positions, avgp, true, refused).0;
            exists o :: o in t.book && t.limitka == Some(o.id) && o.side == SELL && o.Remaining() == positions
                        && o.limitPrice == avgp + ModeProfit(cfg, positions)
  {
    var t := Consolidate(cfg, s, positions, avgp, true, refused).0;
    ConsolidationSettles(cfg, s, positions, avgp, refused);
    LimitkaOverCost(cfg, positions, avgp);
    var price := avgp + ModeProfit(cfg, positions);
    var o :| o in Sells(t.book) && t.limitka == Some(o.id) && o.Remaining() == t.positions && o.limitPrice == price;
    SellsMembers(t.book);
  }

  predicate AsksForSell(call: Call, price: real, size: int) {
    match call
    case Cancel(_) => true
    case SellLimit(p, n) => p == price && n == size
    case Replace(_, p, n) => p == price && n == size
  }

  lemma {:induction false} CancelsOnly(book: Book, found: bool)
    ensures forall call :: call in CancelCalls(book, found) ==> call.Cancel?
  {
    if book == [] {
    } else {
      CancelsOnly(book[1..], found);
      CancelsOnly(book[1..], true);
    }
  }

  /** Whatever the broker answers: every sell and every replacement that is sent is for
      the whole position, at the average price plus the profit of the mode, which is
      over the average for positive profits. */
  lemma CallsAreOverCost(cfg: Config, s: State, positions: int, avgp: real, accept: bool, refused: set<nat>)
    ensures forall call :: call in Consolidate(cfg, s, positions, avgp, accept, refused).1 ==>
              && (call.Cancel? || positions > 0)
              && AsksForSell(call, avgp + ModeProfit(cfg, positions), positions)
    ensures cfg.profit > 0.0 && (cfg.defProfit.Some? ==> cfg.defProfit.value > 0.0) ==>
              avgp + ModeProfit(cfg, positions) > avgp
  {
    CancelsOnly(s.book, false);
    LimitkaOverCost(cfg, positions, avgp);
  }

  // ---------- The walk over the orders ----------

  /** The variables of the walk. */
  datatype Walk = Walk(book: Book, calls: seq<Call>, limitka: Option<nat>, limitkaPrice: Option<real>,
                       limitkaQty: int, pendingbuys: map<nat, real>)

  function Visit(w: Walk, o: Order, refused: set<nat>): Walk {
    if o.side == SELL && w.limitka.Some? then
      w.(book := if o.id in refused then w.book else Without(w.book, {o.id}), calls := w.calls + [Cancel(o.id)])
    else if o.side == SELL then
      w.(limitka := Some(o.id), limitkaPrice := Some(o.limitPrice), limitkaQty := o.Remaining())
    else if o.IsLimitBuy() then
      w.(pendingbuys := w.pendingbuys[o.id := o.limitPrice])
    else w
  }

  function VisitAll(w: Walk, orders: Book, refused: set<nat>): Walk
    decreases |orders|
  {
    if orders == [] then w else VisitAll(Visit(w, orders[0], refused), orders[1..], refused)
  }

  /** The three fields name the given order, or none. */
  predicate Names(o: Option<Order>, limitka: Option<nat>, limitkaPrice: Option<real>, limitkaQty: int) {
    match o
    case None => limitka == None && limitkaPrice == None
    case Some(o) => limitka == Some(o.id) && limitkaPrice == Some(o.limitPrice) && limitkaQty == o.Remaining()
  }

  lemma {:induction false} VisitAllBook(w: Walk, kept: Book, left: Book, refused: set<nat>)
    requires w.book == kept + left && DistinctIds(w.book)
    ensures var r, found := VisitAll(w, left, refused), w.limitka.Some?;
            && r.book == kept + KeepFirstSell(left, found, refused)
            && r.calls == w.calls + CancelCalls(left, found)
    decreases |left|
  {
    if left == [] {
    } else {
      var o, rest := left[0], left[1..];
      var keep := if o.side == SELL && w.limitka.Some? && o.id !in refused then kept else kept + [o];
      assert left == [o] + rest;
      VisitOne(w, kept, o, rest, refused);
      VisitAllBook(Visit(w, o, refused), keep, rest, refused);
      Regroup(kept, [o], KeepFirstSell(rest, w.limitka.Some? || o.side == SELL, refused));
      Regroup(w.calls, [Cancel(o.id)], CancelCalls(rest, true));
    }
  }

  lemma {:induction false} VisitAllFields(orderlist: Book, w: Walk, seen: Book, left: Book, refused: set<nat>)
    requires orderlist == seen + left && w.pendingbuys == PendingOf(seen)
    requires w.limitka.None? ==> w.limitkaPrice == None
    ensures var r, found := VisitAll(w, left, refused), w.limitka.Some?;
            && r.pendingbuys == PendingOf(orderlist)
            && (found ==> (r.limitka, r.limitkaPrice, r.limitkaQty) == (w.limitka, w.limitkaPrice, w.limitkaQty))
            && (!found ==> Names(FirstSell(left), r.limitka, r.limitkaPrice, r.limitkaQty))
    decreases |left|
  {
    if left == [] {
      assert seen + left == seen;
    } else {
      var o, rest := left[0], left[1..];
      assert seen + left == (seen + [o]) + rest;
      assert (seen + [o])[..|seen|] == seen;
      VisitAllFields(orderlist, Visit(w, o, refused), seen + [o], rest, refused);
    }
  }

  /** Walking the listed orders while cancelling from the book comes to the same as
      the functions above say of the list. `seen` and `left` are the two parts of
      the list; `kept` is what the book still has of the first. */
  lemma VisitAllMeans(orderlist: Book, w: Walk, seen: Book, kept: Book, left: Book, refused: set<nat>)
    requires orderlist == seen + left && w.book == kept + left && DistinctIds(w.book)
    requires w.pendingbuys == PendingOf(seen)
    requires w.limitka.None? ==> w.limitkaPrice == None
    ensures var r, found := VisitAll(w, left, refused), w.limitka.Some?;
            && r.book == kept + KeepFirstSell(left, found, refused)
            && r.calls == w.calls + CancelCalls(left, found)
            && r.pendingbuys == PendingOf(orderlist)
            && (found ==> (r.limitka, r.limitkaPrice, r.limitkaQty) == (w.limitka, w.limitkaPrice, w.limitkaQty))
            && (!found ==> Names(FirstSell(left), r.limitka, r.limitkaPrice, r.limitkaQty))
  {
    VisitAllBook(w, kept, left, refused);
    VisitAllFields(orderlist, w, seen, left, refused);
  }

  lemma VisitOne(w: Walk, kept: Book, o: Order, rest: Book, refused: set<nat>)
    requires w.book == kept + ([o] + rest) && DistinctIds(w.book)
    ensures var keep := if o.side == SELL && w.limitka.Some? && o.id !in refused then kept else kept + [o];
            Visit(w, o, refused).book == keep + rest && DistinctIds(keep + rest)
  {
    Regroup(kept, [o], rest);
    DistinctAround(kept, o, rest);
    CancelAt(kept, o, rest);
  }

  // ---------- The object ----------

  class LimitSellStrategy {
    const cfg: Config
    var positions: int
    var avgp: real
    var limitka: Option<nat>
    var limitkaPrice: Option<real>
    var pendingbuys: map<nat, real>
    var jevylozeno: int
    // the broker's side
    var book: Book
    var nextId: nat
    var calls: seq<Call>

    ghost function Abs(): State
      reads this
    {
      State(positions, avgp, limitka, limitkaPrice, pendingbuys, jevylozeno, book, nextId)
    }

    constructor (cfg: Config, book: Book, nextId: nat)
      ensures this.cfg == cfg && this.book == book && this.nextId == nextId && calls == []
      ensures limitka == None && limitkaPrice == None && pendingbuys == map[] && jevylozeno == 0
    {
      this.cfg, this.book, this.nextId, calls := cfg, book, nextId, [];
      positions, avgp := 0, 0.0;
      limitka, limitkaPrice, pendingbuys, jevylozeno := None, None, map[], 0;
    }

    /** One call on a bar. `newPositions` and `newAvgp` are the broker's report;
        `accept` says whether it takes the sell or the replacement, `refused` which
        cancels it does not. */
    method Consolidation(index: int, newPositions: int, newAvgp: real, accept: bool, refused: set<nat>)
      requires cfg.consolidationBarCount > 0 && DistinctIds(book)
      modifies this
      ensures index % cfg.consolidationBarCount != 0 ==> Abs() == old(Abs()) && calls == old(calls)
      ensures index % cfg.consolidationBarCount == 0 ==>
                var (t, made) := Consolidate(cfg, old(Abs()), newPositions, newAvgp, accept, refused);
                Abs() == t && calls == old(calls) + made
    {
      if index % cfg.consolidationBarCount == 0 {
        ConsolidateNow(newPositions, newAvgp, accept, refused);
      }
    }

    method ConsolidateNow(newPositions: int, newAvgp: real, accept: bool, refused: set<nat>)
      requires DistinctIds(book)
      modifies this
      ensures var (t, made) := Consolidate(cfg, old(Abs()), newPositions, newAvgp, accept, refused);
              Abs() == t && calls == old(calls) + made
    {
      ghost var s := Abs();
      var orderlist := book;
      positions, avgp := newPositions, newAvgp;
      var pendingbuysNew, limitkaQty := WalkOrders(orderlist, refused);
      ghost var walked := Abs();
      assert walked == Walked(s, newPositions, newAvgp, refused);
      RepairLimitka(limitkaQty, accept, FirstSell(orderlist));
      if pendingbuysNew != pendingbuys {
        pendingbuys := pendingbuysNew;
      }
      jevylozeno := if |pendingbuys| > 0 then 1 else 0;
    }

    /** The loop over the open orders: keeps the first sell, cancels the others,
        collects the limit buys. */
    method WalkOrders(orderlist: Book, refused: set<nat>) returns (pendingbuysNew: map<nat, real>, limitkaQty: int)
      requires book == orderlist && DistinctIds(orderlist)
      modifies this`limitka, this`limitkaPrice, this`book, this`calls
      ensures book == KeepFirstSell(orderlist, false, refused)
      ensures calls == old(calls) + CancelCalls(orderlist, false)
      ensures pendingbuysNew == PendingOf(orderlist)
      ensures Names(FirstSell(orderlist), limitka, limitkaPrice, limitkaQty)
    {
      limitka, limitkaPrice, limitkaQty, pendingbuysNew := None, None, 0, map[];
      var limitkaFound := false;
      ghost var start := Walk(book, calls, None, None, 0, map[]);
      for i := 0 to |orderlist|
        invariant limitkaFound == limitka.Some?
        invariant VisitAll(Walk(book, calls, limitka, limitkaPrice, limitkaQty, pendingbuysNew), orderlist[i..], refused)
                  == VisitAll(start, orderlist, refused)
      {
        var o := orderlist[i];
        assert orderlist[i..][1..] == orderlist[i + 1..];
        if o.side == SELL {
          if limitkaFound {
            if o.id !in refused { book := Without(book, {o.id}); }
            calls := calls + [Cancel(o.id)];
            continue;
          }
          limitkaFound, limitka, limitkaPrice := true, Some(o.id), Some(o.limitPrice);
          limitkaQty := o.qty - o.filled;
        }
        if o.side == BUY && o.kind == LIMIT {
          pendingbuysNew := pendingbuysNew[o.id := o.limitPrice];
        }
      }
      VisitAllMeans(orderlist, start, [], [], orderlist, refused);
    }

    /** After the walk: create, replace or leave the sell. */
    method RepairLimitka(limitkaQty: int, accept: bool, ghost first: Option<Order>)
      requires Names(first, limitka, limitkaPrice, limitkaQty)
      modifies this`limitka, this`limitkaPrice, this`book, this`nextId, this`calls
      ensures var (t, made) := Repair(old(Abs()), first, LimitkaPrice(cfg, positions, avgp), accept);
              Abs() == t && calls == old(calls) + made
    {
      var price := LimitkaPrice(cfg, positions, avgp);
      if positions > 0 && limitka.None? {
        calls := calls + [SellLimit(price, positions)];
        limitkaPrice := Some(price);
        if accept {
          book := book + [Order(nextId, SELL, LIMIT, price, positions, 0)];
          limitka, nextId := Some(nextId), nextId + 1;
        } else {
          limitka, limitkaPrice := None, None;
        }
      } else if limitka.Some? && positions > 0 && (positions != limitkaQty || limitkaPrice.value != price) {
        calls := calls + [Replace(limitka.value, price, positions)];
        if accept {
          book := Without(book, {limitka.value}) + [Order(nextId, SELL, LIMIT, price, positions, 0)];
          limitka, nextId := Some(nextId), nextId + 1;
        }
      }
    }
  }

  lemma DistinctAround(before: Book, o: Order, after: Book)
    requires DistinctIds(before + [o] + after)
    ensures forall p :: p in before || p in after ==> p.id != o.id
    ensures DistinctIds(before + after)
  {
    var all := before + [o] + after;
    assert all[|before|] == o;
    assert forall i :: 0 <= i < |before| ==> all[i] == before[i];
    assert forall i :: 0 <= i < |after| ==> all[|before| + 1 + i] == after[i];
    assert forall i :: |before| <= i < |before + after| ==> (before + after)[i] == all[i + 1];
  }

  lemma CancelAt(before: Book, o: Order, after: Book)
    requires forall p :: p in before || p in after ==> p.id != o.id
    ensures Without(before + [o] + after, {o.id}) == before + after
  {
    WithoutAppend(before + [o], after, {o.id});
    WithoutAppend(before, [o], {o.id});
    assert Without([o], {o.id}) == [];
    WithoutAbsent(before, {o.id});
    WithoutAbsent(after, {o.id});
  }
}
