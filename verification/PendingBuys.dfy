/** `pendingbuys`: how long it is what the broker's book holds, ids and prices, and
    when it is given up. */
module PendingBuys {
  import opened Pricing
  import opened Orders
  import opened Strategy
  import opened LadderOrders
  import opened StrategyRuns

  /** Every open order is in the dictionary with its price, and nothing else is. */
  ghost predicate Lists(pending: map<nat, real>, book: Book) {
    && (forall o :: o in book ==> o.id in pending && pending[o.id] == o.limitPrice)
    && (forall id :: id in pending ==> exists o :: o in book && o.id == id)
  }

  ghost predicate Mirrored(s: State) {
    WellFormed(s) && Lists(s.pendingbuys, s.orders)
  }

  lemma RebuiltLists(book: Book, nextId: nat)
    requires OpenBuys(book, nextId)
    ensures Lists(PendingOf(book), book)
  {
    PendingOfIsLimitBuys(book);
  }

  // ---------- One step ----------

  lemma LadderMirrors(cfg: Config, s: State, e: Event)
    requires cfg.Valid() && Mirrored(s) && Lays(cfg, s, e)
    ensures Mirrored(Apply(cfg, s, e))
  {
    var placed := Placed(cfg, s, e.lastPrice, e.refused);
    LadderStep(cfg, s, e);
    LadderIs(cfg, s, e.lastPrice, e.bar.index, e.refused);
    LadderKeeps(cfg, s, e.lastPrice, e.refused);
    OrdersOfIds(LimitRungs(cfg, s, e.lastPrice), LimitFrom(cfg, s), e.refused);
    OrdersOfMeans(LimitRungs(cfg, s, e.lastPrice), LimitFrom(cfg, s), e.refused);
    PendingOfIsLimitBuys(placed);
    AppendLists(s.pendingbuys, s.orders, PendingOf(placed), placed);
  }

  lemma AppendLists(m: map<nat, real>, book: Book, m': map<nat, real>, more: Book)
    requires Lists(m, book) && Lists(m', more)
    requires forall o, p :: o in book && p in more ==> o.id != p.id
    ensures Lists(m + m', book + more)
  {
    forall id | id in m + m'
      ensures exists o :: o in book + more && o.id == id
    {
      if id in m' {
        var o :| o in more && o.id == id;
        assert o in book + more;
      } else {
        var o :| o in book && o.id == id;
        assert o in book + more;
      }
    }
  }

  lemma CancelMirrors(s: State, cancelled: set<nat>)
    requires Mirrored(s)
    ensures Mirrored(CancelPending(s, cancelled)) <==> AllCancelled(s, cancelled)
  {
    CancelTracks(s, cancelled);
    CancelKeeps(s, cancelled);
    var t := CancelPending(s, cancelled);
    if t.orders != [] { assert t.orders[0] in t.orders; }
  }

  lemma PhaseMirrors(cfg: Config, s: State, e: Event)
    requires cfg.Valid() && Mirrored(s) && IsPhase(e)
    ensures Mirrored(ApplyPhase(cfg, s, e)) <==> CancelsTaken(s, e)
  {
    PhaseKeeps(cfg, s, e);
    if Lays(cfg, s, e) {
      LadderMirrors(cfg, s, e);
    } else if e.ConsolidationPhase? {
      RebuiltLists(s.orders, s.nextId);
    } else if e.PendingPhase? && GivesUp(s, e.cancel, e.lastPrice) {
      CancelMirrors(s, e.cancelled);
    }
  }

  lemma LeftAfterDrop(book: Book, k: nat, o: Order)
    requires k < |book| && DistinctIds(book)
    ensures o in book[..k] + book[k + 1..] <==> o in book && o.id != book[k].id
  {
    var left := book[..k] + book[k + 1..];
    if o in book && o.id != book[k].id {
      var i :| 0 <= i < |book| && book[i] == o;
      assert left[if i < k then i else i - 1] == o;
    }
  }

  /** An order that is gone, and the rest of the dictionary. */
  lemma LessOne(pending: map<nat, real>, book: Book, gone: Order, left: Book)
    requires Lists(pending, book) && gone in book
    requires forall o :: o in left <==> o in book && o.id != gone.id
    ensures Lists(pending - {gone.id}, left) && !Lists(pending, left)
  {
    forall id | id in pending - {gone.id}
      ensures exists o :: o in left && o.id == id
    {
      var o :| o in book && o.id == id;
      assert o in left;
    }
  }

  lemma DropLists(pending: map<nat, real>, book: Book, k: nat)
    requires k < |book| && Lists(pending, book) && DistinctIds(book)
    ensures Lists(pending - {book[k].id}, book[..k] + book[k + 1..])
    ensures !Lists(pending, book[..k] + book[k + 1..])
  {
    forall o
      ensures o in book[..k] + book[k + 1..] <==> o in book && o.id != book[k].id
    {
      LeftAfterDrop(book, k, o);
    }
    LessOne(pending, book, book[k], book[..k] + book[k + 1..]);
  }

  lemma PartLists(pending: map<nat, real>, book: Book, k: nat, qty: int)
    requires k < |book| && Lists(pending, book)
    ensures Lists(pending, book[k := Partly(book[k], qty)])
  {
    var after := book[k := Partly(book[k], qty)];
    assert book[k] in book;
    forall id | id in pending
      ensures exists o :: o in after && o.id == id
    {
      var o :| o in book && o.id == id;
      var i :| 0 <= i < |book| && book[i] == o;
      assert after[i] in after;
    }
  }

  lemma ClosedIsAbsent(s: State, id: nat)
    requires Mirrored(s) && Closed(s, id)
    ensures s.pendingbuys - {id} == s.pendingbuys
  {
    assert id in s.pendingbuys ==> exists o :: o in s.orders && o.id == id;
  }

  lemma WithoutOrderLists(s: State, k: nat)
    requires k < |s.orders| && Mirrored(s)
    ensures var left := WithoutOrder(s, k).orders;
            Lists(s.pendingbuys - {s.orders[k].id}, left) && !Lists(s.pendingbuys, left)
  {
    DropLists(s.pendingbuys, s.orders, k);
  }

  lemma EndEffect(s: State, e: Event)
    requires Enabled(s, e) && EndsOrder(e)
    ensures var t := ApplyBuyUpdate(s, e);
            && t.orders == WithoutOrder(s, e.k).orders
            && t.pendingbuys == if e.Lapse? then s.pendingbuys else s.pendingbuys - {s.orders[e.k].id}
  {
  }

  lemma MirroredMeans(t: State, pending: map<nat, real>, book: Book)
    requires WellFormed(t) && t.pendingbuys == pending && t.orders == book
    ensures Mirrored(t) <==> Lists(pending, book)
  {
  }

  lemma EndMirrors(s: State, e: Event)
    requires Enabled(s, e) && Mirrored(s) && EndsOrder(e)
    ensures Mirrored(ApplyBuyUpdate(s, e)) <==> !e.Lapse?
  {
    var left := WithoutOrder(s, e.k).orders;
    WithoutOrderLists(s, e.k);
    EndKeeps(s, e);
    EndEffect(s, e);
    MirroredMeans(ApplyBuyUpdate(s, e), ApplyBuyUpdate(s, e).pendingbuys, left);
  }

  lemma OtherUpdateMirrors(cfg: Config, s: State, e: Event)
    requires cfg.Valid() && Enabled(s, e) && Mirrored(s)
    requires !IsPhase(e) && !IsSellUpdate(e) && !EndsOrder(e)
    ensures Mirrored(ApplyBuyUpdate(s, e))
  {
    BuyUpdateKeeps(cfg, s, e);
    match e
    case PartFill(k, qty, _) => PartLists(s.pendingbuys, s.orders, k, qty);
    case Notice(id) => ClosedIsAbsent(s, id);
    case MarketFill(id, _, _) => ClosedIsAbsent(s, id);
    case MarketDrop(id, _) => ClosedIsAbsent(s, id);
    case MarketPart(_, _) =>
  }

  lemma SellUpdateMirrors(cfg: Config, s: State, e: Event)
    requires cfg.Valid() && Enabled(s, e) && Mirrored(s) && IsSellUpdate(e)
    ensures Mirrored(ApplySellUpdate(cfg, s, e)) <==> CancelsTaken(s, e)
  {
    SellKeeps(cfg, s, e);
    SoldSame(s, e);
    match e
    case SellPart(_) => NotedSame(cfg, Sold(s, e), PARTIAL_FILL, Unknown);
    case SellWhole(report, cancelled) =>
      NotedSame(cfg, Sold(s, e), FILL, report);
      CancelMirrors(SellNoted(cfg, Sold(s, e), FILL, report), cancelled);
    case SellCancel(report, cancelled) =>
      NotedSame(cfg, Sold(s, e), CANCELED, report);
      CancelMirrors(SellNoted(cfg, Sold(s, e), CANCELED, report), cancelled);
  }

  /** A step takes `pendingbuys` away from the book exactly when a cancel is refused in
      it, or an order ends with a status that no notification handles. */
  lemma StepMirrors(cfg: Config, s: State, e: Event)
    requires cfg.Valid() && Enabled(s, e) && Mirrored(s)
    ensures Mirrored(Apply(cfg, s, e)) <==> CancelsTaken(s, e) && !e.Lapse?
  {
    if IsPhase(e) {
      PhaseMirrors(cfg, s, e);
    } else if IsSellUpdate(e) {
      SellUpdateMirrors(cfg, s, e);
    } else if EndsOrder(e) {
      EndMirrors(s, e);
    } else {
      OtherUpdateMirrors(cfg, s, e);
    }
  }

  /** A due consolidation brings it back, whatever it was before. */
  lemma ConsolidationMirrors(cfg: Config, s: State, e: Event)
    requires cfg.Valid() && WellFormed(s) && e.ConsolidationPhase? && Due(cfg, e)
    ensures Mirrored(Apply(cfg, s, e))
  {
    ConsolidationKeeps(cfg, s, e.index, e.report);
    RebuiltLists(s.orders, s.nextId);
  }

  // ---------- Runs ----------

  ghost predicate AlwaysMirrored(cfg: Config, s: State, es: seq<Event>)
    requires cfg.Valid() && Legal(cfg, s, es)
    decreases |es|
  {
    Mirrored(s) && (es != [] ==> AlwaysMirrored(cfg, Apply(cfg, s, es[0]), es[1..]))
  }

  ghost predicate AlwaysTaken(cfg: Config, s: State, es: seq<Event>)
    requires cfg.Valid() && Legal(cfg, s, es)
    decreases |es|
  {
    es != [] ==> CancelsTaken(s, es[0]) && !es[0].Lapse? && AlwaysTaken(cfg, Apply(cfg, s, es[0]), es[1..])
  }

  /** `pendingbuys` holds the ids and prices of exactly the open limit buys in every
      state of a run if and only if no cancel of the run is refused and no order of
      it lapses. */
  lemma {:induction false} MirroredIff(cfg: Config, s: State, es: seq<Event>)
    requires cfg.Valid() && Legal(cfg, s, es) && Mirrored(s)
    ensures AlwaysMirrored(cfg, s, es) <==> AlwaysTaken(cfg, s, es)
    decreases |es|
  {
    if es == [] {
    } else {
      StepMirrors(cfg, s, es[0]);
      if Mirrored(Apply(cfg, s, es[0])) {
        MirroredIff(cfg, Apply(cfg, s, es[0]), es[1..]);
      }
    }
  }

  // ---------- Giving up ----------

  lemma {:induction false} SomeDearest(pending: map<nat, real>) returns (id: nat)
    requires pending != map[]
    ensures IsDearest(pending, id)
    decreases pending.Keys
  {
    assert pending.Keys != {};
    var first :| first in pending;
    var rest := pending - {first};
    assert forall other :: other in pending ==> other == first || other in rest;
    id := first;
    if rest != map[] {
      assert first !in rest.Keys && rest.Keys < pending.Keys;
      var other := SomeDearest(rest);
      if pending[other] >= pending[first] { id := other; }
    }
  }

  lemma LimitRises(p: real, q: real, ticks: real)
    requires p <= q && ticks >= 0.0
    ensures p + Scaled(p, ticks) <= q + Scaled(q, ticks)
  {
    if q > 30.0 {
      ScaleReal(if p <= 30.0 then 30.0 else p, q, ticks);
      assert 30.0 * ticks / 30.0 == ticks;
    }
  }

  lemma ScaleReal(a: real, b: real, c: real)
    requires a <= b && c >= 0.0
    ensures a * c / 30.0 <= b * c / 30.0
  {
    assert (b - a) * c >= 0.0;
  }

  /** The price is over this pending buy by more than the scaled ticks. */
  ghost predicate PassedBy(s: State, lastPrice: real, id: nat)
    requires id in s.pendingbuys
  {
    lastPrice > s.pendingbuys[id] + Scaled(s.pendingbuys[id], s.ticks2reset)
  }

  lemma RanAwayFromAll(s: State, lastPrice: real)
    requires s.pendingbuys != map[] && s.ticks2reset >= 0.0
    ensures RanAway(s, lastPrice) <==> forall id :: id in s.pendingbuys ==> PassedBy(s, lastPrice, id)
  {
    var dearest := SomeDearest(s.pendingbuys);
    var top := s.pendingbuys[dearest];
    TickIsScaled(top, s.ticks2reset);
    forall id | id in s.pendingbuys
      ensures s.pendingbuys[id] + Scaled(s.pendingbuys[id], s.ticks2reset) <= top + Scaled(top, s.ticks2reset)
    {
      LimitRises(s.pendingbuys[id], top, s.ticks2reset);
    }
  }

  /** The pending buys are given up, all of them at once, exactly when the directives
      say so or the price has passed every one of them by `ticks2reset`. */
  lemma GivenUpIff(cfg: Config, s: State, e: Event)
    requires cfg.Valid() && e.PendingPhase? && s.pendingbuys != map[] && s.ticks2reset >= 0.0
    ensures Apply(cfg, s, e).pendingbuys == map[]
            <==> e.cancel || forall id :: id in s.pendingbuys ==> PassedBy(s, e.lastPrice, id)
    ensures Apply(cfg, s, e).pendingbuys != map[] ==> Apply(cfg, s, e) == s
  {
    RanAwayFromAll(s, e.lastPrice);
  }
}
