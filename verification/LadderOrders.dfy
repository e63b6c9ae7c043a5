/** What one ladder adds to the book, in closed form: the orders the broker accepted,
    whichever those are, and the quantity they are for. */
module LadderOrders {
  import opened Pricing
  import opened Orders
  import opened Ladder
  import opened Sequences
  import opened Strategy

  function Offer(rung: Rung, id: nat): Order {
    Order(id, BUY, LIMIT, rung.price, rung.qty, 0)
  }

  /** Rung `i` is offered under id `first + i`. */
  function OrdersOf(rungs: seq<Rung>, first: nat, refused: set<nat>): Book {
    if rungs == [] then []
    else
      var n := |rungs| - 1;
      var before := OrdersOf(rungs[..n], first, refused);
      if first + n in refused then before else before + [Offer(rungs[n], first + n)]
  }

  lemma {:induction false} OrdersOfIds(rungs: seq<Rung>, first: nat, refused: set<nat>)
    ensures forall o :: o in OrdersOf(rungs, first, refused) ==> first <= o.id < first + |rungs|
    ensures DistinctIds(OrdersOf(rungs, first, refused))
  {
    if rungs == [] {
    } else {
      OrdersOfIds(rungs[..|rungs| - 1], first, refused);
    }
  }

  /** The book holds rung `i` under its id exactly when that id is not refused. */
  lemma {:induction false} OrdersOfMeans(rungs: seq<Rung>, first: nat, refused: set<nat>)
    ensures forall o :: o in OrdersOf(rungs, first, refused)
                        <==> first <= o.id < first + |rungs| && o.id !in refused && o == Offer(rungs[o.id - first], o.id)
  {
    if rungs == [] {
    } else {
      var n := |rungs| - 1;
      OrdersOfMeans(rungs[..n], first, refused);
      forall o: Order
        ensures o in OrdersOf(rungs, first, refused)
                <==> first <= o.id < first + |rungs| && o.id !in refused && o == Offer(rungs[o.id - first], o.id)
      {
        assert first <= o.id < first + n ==> rungs[..n][o.id - first] == rungs[o.id - first];
      }
    }
  }

  ghost predicate NoneRefused(first: nat, n: nat, refused: set<nat>) {
    forall id :: first <= id < first + n ==> id !in refused
  }

  lemma {:induction false} OrdersOfQty(rungs: seq<Rung>, first: nat, refused: set<nat>)
    requires forall r :: r in rungs ==> r.qty > 0
    ensures 0 <= OpenQty(OrdersOf(rungs, first, refused)) <= TotalQty(rungs)
    ensures OpenQty(OrdersOf(rungs, first, refused)) == TotalQty(rungs) <==> NoneRefused(first, |rungs|, refused)
  {
    if rungs == [] {
    } else {
      var n := |rungs| - 1;
      OrdersOfQty(rungs[..n], first, refused);
      var before := OrdersOf(rungs[..n], first, refused);
      OpenQtySnoc(before, Order(first + n, BUY, LIMIT, rungs[n].price, rungs[n].qty, 0));
      assert NoneRefused(first, n + 1, refused) <==> NoneRefused(first, n, refused) && first + n !in refused;
    }
  }

  lemma OpenQtySnoc(book: Book, o: Order)
    ensures OpenQty(book + [o]) == OpenQty(book) + o.Remaining()
  {
    OpenQtyAppend(book, [o]);
    assert [o][1..] == [];
  }

  /** The state after `placed` was accepted out of `n` offers. */
  function With(s: State, placed: Book, n: nat): State {
    s.(orders := s.orders + placed, pendingbuys := s.pendingbuys + PendingOf(placed), nextId := s.nextId + n)
  }

  lemma WithNone(s: State)
    ensures With(s, [], 0) == s
  {
    assert s.pendingbuys + map[] == s.pendingbuys && s.orders + [] == s.orders;
  }

  lemma PendingSnoc(pending: map<nat, real>, placed: Book, o: Order)
    requires o.IsLimitBuy()
    ensures pending + PendingOf(placed + [o]) == (pending + PendingOf(placed))[o.id := o.limitPrice]
  {
    assert (placed + [o])[..|placed|] == placed;
  }

  lemma PlaceOneIs(cfg: Config, s: State, placed: Book, n: nat, rung: Rung, refused: set<nat>)
    requires s.positions < cfg.maxpozic
    ensures PlaceLimit(cfg, With(s, placed, n), rung, refused)
            == With(s, if s.nextId + n in refused then placed else placed + [Offer(rung, s.nextId + n)], n + 1)
  {
    if s.nextId + n !in refused {
      PendingSnoc(s.pendingbuys, placed, Offer(rung, s.nextId + n));
      Regroup(s.orders, placed, [Offer(rung, s.nextId + n)]);
    }
  }

  lemma {:induction false} PlaceAllIs(cfg: Config, s: State, rungs: seq<Rung>, refused: set<nat>)
    requires s.positions < cfg.maxpozic
    ensures PlaceAll(cfg, s, rungs, refused) == With(s, OrdersOf(rungs, s.nextId, refused), |rungs|)
  {
    if rungs == [] {
      WithNone(s);
    } else {
      var n := |rungs| - 1;
      var before := OrdersOf(rungs[..n], s.nextId, refused);
      var after := if s.nextId + n in refused then before else before + [Offer(rungs[n], s.nextId + n)];
      assert PlaceAll(cfg, s, rungs[..n], refused) == With(s, before, n) by {
        PlaceAllIs(cfg, s, rungs[..n], refused);
      }
      assert PlaceAll(cfg, s, rungs, refused) == With(s, after, n + 1) by {
        PlaceOneIs(cfg, s, before, n, rungs[n], refused);
      }
      assert OrdersOf(rungs, s.nextId, refused) == after;
    }
  }

  lemma {:induction false} PlaceAllCons(cfg: Config, s: State, r: Rung, rungs: seq<Rung>, refused: set<nat>)
    ensures PlaceAll(cfg, s, [r] + rungs, refused) == PlaceAll(cfg, PlaceLimit(cfg, s, r, refused), rungs, refused)
  {
    if rungs == [] {
      assert [r][..0] == [];
      assert [r] + rungs == [r];
    } else {
      var n := |rungs| - 1;
      PlaceAllCons(cfg, s, r, rungs[..n], refused);
      assert ([r] + rungs)[..n + 1] == [r] + rungs[..n];
    }
  }

  // ---------- One ladder ----------

  /** The limit orders a ladder offers, and the id of the first of them. */
  function LimitRungs(cfg: Config, s: State, lastPrice: real): seq<Rung>
    requires cfg.Valid()
  {
    if FirstAtMarket(cfg, s) then LaterRungs(cfg, s, lastPrice)
    else [Rung(Price2Dec(lastPrice, 2), cfg.chunk)] + LaterRungs(cfg, s, lastPrice)
  }

  function LimitFrom(cfg: Config, s: State): nat {
    if FirstAtMarket(cfg, s) then s.nextId + 1 else s.nextId
  }

  function MarketQty(cfg: Config, s: State, refused: set<nat>): int
    requires cfg.Valid()
  {
    if FirstAtMarket(cfg, s) && s.nextId !in refused then QtyMultiplier(cfg, s) * cfg.chunk else 0
  }

  function Placed(cfg: Config, s: State, lastPrice: real, refused: set<nat>): Book
    requires cfg.Valid()
  {
    OrdersOf(LimitRungs(cfg, s, lastPrice), LimitFrom(cfg, s), refused)
  }

  /** What a ladder adds, in shares. */
  function LadderQty(cfg: Config, s: State, lastPrice: real, refused: set<nat>): int
    requires cfg.Valid()
  {
    MarketQty(cfg, s, refused) + OpenQty(Placed(cfg, s, lastPrice, refused))
  }

  function AfterMarket(cfg: Config, s: State, refused: set<nat>): State
    requires cfg.Valid()
  {
    Tuned(cfg, s).(openBuy := s.openBuy + MarketQty(cfg, s, refused), nextId := LimitFrom(cfg, s))
  }

  /** A ladder adds a market buy to the outstanding ones, and the accepted orders to
      the book and to `pendingbuys`. */
  lemma LadderIs(cfg: Config, s: State, lastPrice: real, index: int, refused: set<nat>)
    requires cfg.Valid() && s.positions < cfg.maxpozic
    ensures LayLadder(cfg, s, lastPrice, index, refused)
            == With(AfterMarket(cfg, s, refused), Placed(cfg, s, lastPrice, refused), |LimitRungs(cfg, s, lastPrice)|)
               .(blockbuy := 1, jevylozeno := 1, lastbuyindex := index)
  {
    var later, start, begun := LaterRungs(cfg, s, lastPrice), Price2Dec(lastPrice, 2), AfterMarket(cfg, s, refused);
    if FirstAtMarket(cfg, s) {
      assert FirstBuy(cfg, Tuned(cfg, s), start, refused) == begun;
      PlaceAllIs(cfg, begun, later, refused);
    } else {
      assert begun == Tuned(cfg, s);
      PlaceAllCons(cfg, begun, Rung(start, cfg.chunk), later, refused);
      PlaceAllIs(cfg, begun, [Rung(start, cfg.chunk)] + later, refused);
    }
  }

  lemma LimitRungsPositive(cfg: Config, s: State, lastPrice: real)
    requires cfg.Valid()
    ensures forall r :: r in LimitRungs(cfg, s, lastPrice) ==> r.qty > 0
  {
    Conservation(cfg.chunk, Curve(cfg, s), Price2Dec(lastPrice, 2), CurveSteps(cfg, s));
  }

  /** The orders of a ladder fall: on a curve whose steps are not negative, the
      accepted order with the higher id has the lower price, and none is over the
      last price, which is what the first limit order of one chunk is at. */
  lemma LadderFalls(cfg: Config, s: State, lastPrice: real, refused: set<nat>)
    requires cfg.Valid()
    requires forall i :: 0 <= i < CurveSteps(cfg, s) ==> Curve(cfg, s)[i] >= 0.0
    ensures !FirstAtMarket(cfg, s) && s.nextId !in refused ==>
              Offer(Rung(lastPrice, cfg.chunk), s.nextId) in Placed(cfg, s, lastPrice, refused)
    ensures forall o :: o in Placed(cfg, s, lastPrice, refused) ==> o.limitPrice <= lastPrice
    ensures forall o, p :: o in Placed(cfg, s, lastPrice, refused) && p in Placed(cfg, s, lastPrice, refused) && o.id < p.id
                           ==> p.limitPrice < o.limitPrice
  {
    var rungs, later := LimitRungs(cfg, s, lastPrice), LaterRungs(cfg, s, lastPrice);
    Shape(cfg.chunk, Curve(cfg, s), lastPrice, CurveSteps(cfg, s));
    assert forall i :: 0 <= i < |later| ==> later[i].price < lastPrice;
    assert forall i, j :: 0 <= i < j < |rungs| ==> rungs[j].price < rungs[i].price;
    OrdersOfMeans(rungs, LimitFrom(cfg, s), refused);
  }

  function FirstQty(cfg: Config, s: State): int
    requires cfg.Valid()
  {
    if FirstAtMarket(cfg, s) then QtyMultiplier(cfg, s) * cfg.chunk else cfg.chunk
  }

  lemma {:induction false} TotalQtyCons(r: Rung, rungs: seq<Rung>)
    ensures TotalQty([r] + rungs) == r.qty + TotalQty(rungs)
  {
    if rungs == [] {
      assert [r] + rungs == [r] && [r][..0] == [];
    } else {
      TotalQtyCons(r, rungs[..|rungs| - 1]);
      assert ([r] + rungs)[..|rungs|] == [r] + rungs[..|rungs| - 1];
    }
  }

  lemma Scale(a: int, b: int, c: int)
    requires a <= b && c >= 0
    ensures a * c <= b * c
  {
    assert (b - a) * c >= 0;
  }

  /** Refusals only take away from the first order and the rungs of the walk. */
  lemma LadderQtyWithin(cfg: Config, s: State, lastPrice: real, refused: set<nat>)
    requires cfg.Valid()
    ensures var offered := FirstQty(cfg, s) + TotalQty(LaterRungs(cfg, s, lastPrice));
            && 0 <= LadderQty(cfg, s, lastPrice, refused) <= offered
            && (LadderQty(cfg, s, lastPrice, refused) == offered
                <==> NoneRefused(s.nextId, |LaterRungs(cfg, s, lastPrice)| + 1, refused))
  {
    var later, rungs := LaterRungs(cfg, s, lastPrice), LimitRungs(cfg, s, lastPrice);
    LimitRungsPositive(cfg, s, lastPrice);
    OrdersOfQty(rungs, LimitFrom(cfg, s), refused);
    if FirstAtMarket(cfg, s) {
      Scale(1, QtyMultiplier(cfg, s), cfg.chunk);
      assert NoneRefused(s.nextId, |later| + 1, refused)
             <==> s.nextId !in refused && NoneRefused(s.nextId + 1, |later|, refused);
    } else {
      TotalQtyCons(Rung(Price2Dec(lastPrice, 2), cfg.chunk), later);
    }
  }

  /** A ladder of `n` steps is for its first order and `n` chunks at most, and for
      exactly that unless an order is refused or the curve ends on a zero. */
  lemma LadderTotal(cfg: Config, s: State, lastPrice: real, refused: set<nat>)
    requires cfg.Valid()
    ensures var n, curve := CurveSteps(cfg, s), Curve(cfg, s);
            && LadderQty(cfg, s, lastPrice, refused) <= FirstQty(cfg, s) + cfg.chunk * n
            && (LadderQty(cfg, s, lastPrice, refused) == FirstQty(cfg, s) + cfg.chunk * n
                <==> (n == 0 || curve[n - 1] != 0.0)
                     && NoneRefused(s.nextId, |LaterRungs(cfg, s, lastPrice)| + 1, refused))
  {
    var n := CurveSteps(cfg, s);
    LadderQtyWithin(cfg, s, lastPrice, refused);
    Conservation(cfg.chunk, Curve(cfg, s), Price2Dec(lastPrice, 2), n);
    MultipleOf(cfg.chunk, n);
  }

  // ---------- A ladder against the room left ----------

  /** With less than two chunks of room a ladder is its first order alone. */
  lemma SmallRoom(cfg: Config, s: State, lastPrice: real, refused: set<nat>)
    requires cfg.Valid() && 0 < Room(cfg, s) < 2 * cfg.chunk
    ensures CurveSteps(cfg, s) == 0
    ensures LadderQty(cfg, s, lastPrice, refused) == if s.nextId in refused then 0 else FirstQty(cfg, s)
  {
    assert Room(cfg, s) / cfg.chunk <= 1;
    assert LaterRungs(cfg, s, lastPrice) == [];
    var first := Rung(Price2Dec(lastPrice, 2), cfg.chunk);
    assert [first] + [] == [first] && [first][..0] == [];
    assert OrdersOf([first], s.nextId, refused) == if s.nextId in refused then [] else [Offer(first, s.nextId)];
    OpenQtySnoc([], Offer(first, s.nextId));
  }

  lemma StepsFit(room: int, chunk: int, n: nat)
    requires chunk > 0 && room >= chunk && (n > 0 ==> n + 1 <= room / chunk)
    ensures chunk * n <= room - chunk
  {
    Scale(n + 1, if n > 0 then room / chunk else 1, chunk);
    assert (n + 1) * chunk == chunk * n + chunk;
  }

  /** With a chunk of room a ladder exceeds the room by no more than its first order
      exceeds a chunk. */
  lemma LargeRoom(cfg: Config, s: State, lastPrice: real, refused: set<nat>)
    requires cfg.Valid() && Room(cfg, s) >= cfg.chunk
    ensures LadderQty(cfg, s, lastPrice, refused) <= Room(cfg, s) + FirstQty(cfg, s) - cfg.chunk
  {
    LadderTotal(cfg, s, lastPrice, refused);
    StepsFit(Room(cfg, s), cfg.chunk, CurveSteps(cfg, s));
  }

  /** The multiplier that market ladders can reach. */
  function TopMultiplier(cfg: Config): int {
    if cfg.firstBuyMarket then cfg.marketBuyMultiplier else 1
  }

  /** How far over `maxpozic` a ladder can go. The multiplied first order is sent
      only under four chunks of position. */
  function Overshoot(cfg: Config): int {
    if TopMultiplier(cfg) > 1 && cfg.maxpozic >= 5 * cfg.chunk - 1 then (TopMultiplier(cfg) - 1) * cfg.chunk
    else TopMultiplier(cfg) * cfg.chunk - 1
  }

  lemma FirstQtyBounds(cfg: Config, s: State)
    requires cfg.Valid()
    ensures cfg.chunk <= FirstQty(cfg, s) <= TopMultiplier(cfg) * cfg.chunk
    ensures s.positions >= 4 * cfg.chunk || TopMultiplier(cfg) == 1 ==> FirstQty(cfg, s) == cfg.chunk
  {
    Scale(1, TopMultiplier(cfg), cfg.chunk);
  }

  lemma TopBounds(top: int, chunk: int)
    requires top >= 1 && chunk > 0
    ensures top * chunk >= chunk && (top - 1) * chunk == top * chunk - chunk
    ensures top > 1 ==> (top - 1) * chunk >= chunk
  {
    Scale(1, top, chunk);
    if top > 1 { Scale(1, top - 1, chunk); }
  }

  /** A ladder exceeds the room left by at most `Overshoot`; with multiplier 1, or no
      market orders, it fits the room exactly when a chunk does or its first order
      is refused. */
  lemma LadderFits(cfg: Config, s: State, lastPrice: real, refused: set<nat>)
    requires cfg.Valid() && s.positions < cfg.maxpozic
    ensures LadderQty(cfg, s, lastPrice, refused) <= Room(cfg, s) + Overshoot(cfg)
    ensures TopMultiplier(cfg) == 1 ==>
              (LadderQty(cfg, s, lastPrice, refused) <= Room(cfg, s)
               <==> cfg.chunk <= Room(cfg, s) || s.nextId in refused)
  {
    FirstQtyBounds(cfg, s);
    TopBounds(TopMultiplier(cfg), cfg.chunk);
    if Room(cfg, s) < cfg.chunk {
      SmallRoom(cfg, s, lastPrice, refused);
    } else {
      LargeRoom(cfg, s, lastPrice, refused);
    }
  }

  /** With one share of room the whole first order still goes out, multiplied or
      not. */
  lemma ReachedWithOneShare(cfg: Config, s: State, lastPrice: real, refused: set<nat>)
    requires cfg.Valid() && Room(cfg, s) == 1 && s.nextId !in refused
    ensures LadderQty(cfg, s, lastPrice, refused) == Room(cfg, s) + FirstQty(cfg, s) - 1
  {
    SmallRoom(cfg, s, lastPrice, refused);
  }

  /** With whole chunks of room that the curve can use up, a ladder exceeds the room
      by just what the first order exceeds a chunk. */
  lemma ReachedWithChunks(cfg: Config, s: State, lastPrice: real, refused: set<nat>)
    requires cfg.Valid() && Room(cfg, s) == cfg.chunk * (CurveSteps(cfg, s) + 1)
    requires CurveSteps(cfg, s) > 0 ==> Curve(cfg, s)[CurveSteps(cfg, s) - 1] != 0.0
    requires NoneRefused(s.nextId, |LaterRungs(cfg, s, lastPrice)| + 1, refused)
    ensures LadderQty(cfg, s, lastPrice, refused) == Room(cfg, s) + FirstQty(cfg, s) - cfg.chunk
  {
    LadderTotal(cfg, s, lastPrice, refused);
    MultipleOf(cfg.chunk, CurveSteps(cfg, s));
  }
}
