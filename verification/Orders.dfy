/** The broker's open orders, and the maps and totals read off them. */
module Orders {
  import opened Sequences

  datatype Side = BUY | SELL
  datatype Kind = LIMIT | MARKET

  datatype Order = Order(id: nat, side: Side, kind: Kind, limitPrice: real, qty: int, filled: int) {
    function Remaining(): int { qty - filled }
    predicate IsLimitBuy() { side == BUY && kind == LIMIT }
  }

  type Book = seq<Order>

  ghost predicate DistinctIds(book: Book) {
    forall i, j :: 0 <= i < j < |book| ==> book[i].id != book[j].id
  }

  /** The id-to-price dictionary that a consolidation builds while it walks the
      open orders. */
  function PendingOf(book: Book): map<nat, real> {
    if book == [] then map[]
    else
      var before, o := PendingOf(book[..|book| - 1]), book[|book| - 1];
      if o.IsLimitBuy() then before[o.id := o.limitPrice] else before
  }

  /** With distinct ids the dictionary holds exactly the open limit buys, each
      under its own id and price. */
  lemma {:induction false} PendingOfIsLimitBuys(book: Book)
    requires DistinctIds(book)
    ensures forall id :: id in PendingOf(book) <==> exists o :: o in book && o.IsLimitBuy() && o.id == id
    ensures forall o :: o in book && o.IsLimitBuy() ==> o.id in PendingOf(book) && PendingOf(book)[o.id] == o.limitPrice
  {
    if book == [] {
    } else {
      var init, last := book[..|book| - 1], book[|book| - 1];
      PendingOfIsLimitBuys(init);
      assert book == init + [last];
      assert forall o :: o in book <==> o in init || o == last;
      assert forall o :: o in init ==> o.id != last.id;
      forall id
        ensures id in PendingOf(book) <==> exists o :: o in book && o.IsLimitBuy() && o.id == id
      {
        if id in PendingOf(book) && !(last.IsLimitBuy() && id == last.id) {
          assert id in PendingOf(init);
          var o :| o in init && o.IsLimitBuy() && o.id == id;
          assert o in book;
        }
      }
    }
  }

  lemma {:induction false} PendingOfCovers(book: Book)
    ensures forall o :: o in book && o.IsLimitBuy() ==> o.id in PendingOf(book)
  {
    if book == [] {
    } else {
      var init, last := book[..|book| - 1], book[|book| - 1];
      PendingOfCovers(init);
      assert book == init + [last];
    }
  }

  /** Quantity the open orders can still fill. */
  function OpenQty(book: Book): int {
    if book == [] then 0 else book[0].Remaining() + OpenQty(book[1..])
  }

  lemma {:induction false} OpenQtyAppend(a: Book, b: Book)
    ensures OpenQty(a + b) == OpenQty(a) + OpenQty(b)
  {
    if a == [] {
      assert a + b == b;
    } else {
      OpenQtyAppend(a[1..], b);
      assert (a + b)[0] == a[0] && (a + b)[1..] == a[1..] + b;
    }
  }

  lemma OpenQtyAround(a: Book, o: Order, b: Book)
    ensures OpenQty(a + [o] + b) == OpenQty(a) + o.Remaining() + OpenQty(b)
  {
    OpenQtyAppend(a + [o], b);
    OpenQtyAppend(a, [o]);
    assert [o][1..] == [];
  }

  lemma OpenQtyDrop(a: Book, o: Order, b: Book)
    ensures OpenQty(a + b) == OpenQty(a + [o] + b) - o.Remaining()
  {
    OpenQtyAround(a, o, b);
    OpenQtyAppend(a, b);
  }

  lemma SplitAt(book: Book, k: nat)
    requires k < |book|
    ensures book == book[..k] + [book[k]] + book[k + 1..]
  {
  }

  /** The book after the broker has cancelled the given ids. */
  function Without(book: Book, ids: set<nat>): Book {
    if book == [] then []
    else if book[0].id in ids then Without(book[1..], ids)
    else [book[0]] + Without(book[1..], ids)
  }

  lemma {:induction false} WithoutKeepsRest(book: Book, ids: set<nat>)
    ensures forall o :: o in Without(book, ids) <==> o in book && o.id !in ids
    ensures DistinctIds(book) ==> DistinctIds(Without(book, ids))
    ensures (forall o :: o in book ==> o.Remaining() >= 0) ==> OpenQty(Without(book, ids)) <= OpenQty(book)
  {
    if book == [] {
    } else {
      WithoutKeepsRest(book[1..], ids);
      assert book == [book[0]] + book[1..];
    }
  }

  lemma {:induction false} WithoutAll(book: Book, ids: set<nat>)
    requires forall o :: o in book ==> o.id in ids
    ensures Without(book, ids) == []
  {
    if book == [] {
    } else {
      WithoutAll(book[1..], ids);
    }
  }

  lemma {:induction false} WithoutAbsent(book: Book, ids: set<nat>)
    requires forall o :: o in book ==> o.id !in ids
    ensures Without(book, ids) == book
  {
    if book == [] {
    } else {
      WithoutAbsent(book[1..], ids);
    }
  }

  lemma {:induction false} WithoutTwice(book: Book, a: set<nat>, b: set<nat>)
    ensures Without(Without(book, a), b) == Without(book, a + b)
  {
    if book == [] {
    } else {
      WithoutTwice(book[1..], a, b);
    }
  }

  lemma {:induction false} WithoutAppend(a: Book, b: Book, ids: set<nat>)
    ensures Without(a + b, ids) == Without(a, ids) + Without(b, ids)
  {
    if a == [] {
      assert a + b == b;
    } else {
      WithoutAppend(a[1..], b, ids);
      assert (a + b)[0] == a[0] && (a + b)[1..] == a[1..] + b;
      Regroup([a[0]], Without(a[1..], ids), Without(b, ids));
    }
  }

  /** Two books with the same open limit buys give the same dictionary. */
  lemma PendingOfSameBuys(a: Book, b: Book)
    requires DistinctIds(a) && DistinctIds(b)
    requires forall o: Order :: o.IsLimitBuy() ==> (o in a <==> o in b)
    ensures PendingOf(a) == PendingOf(b)
  {
    PendingOfIsLimitBuys(a);
    PendingOfIsLimitBuys(b);
    assert forall id :: id in PendingOf(a) <==> id in PendingOf(b);
  }

  // ---------- Sells and the rest of a book ----------

  function Sells(book: Book): Book {
    if book == [] then []
    else if book[0].side == SELL then [book[0]] + Sells(book[1..])
    else Sells(book[1..])
  }

  function NonSells(book: Book): Book {
    if book == [] then []
    else if book[0].side == SELL then NonSells(book[1..])
    else [book[0]] + NonSells(book[1..])
  }

  lemma {:induction false} SellsAppend(a: Book, b: Book)
    ensures Sells(a + b) == Sells(a) + Sells(b)
  {
    if a == [] {
      assert a + b == b;
    } else {
      SellsAppend(a[1..], b);
      assert (a + b)[0] == a[0] && (a + b)[1..] == a[1..] + b;
      Regroup([a[0]], Sells(a[1..]), Sells(b));
    }
  }

  lemma {:induction false} NonSellsAppend(a: Book, b: Book)
    ensures NonSells(a + b) == NonSells(a) + NonSells(b)
  {
    if a == [] {
      assert a + b == b;
    } else {
      NonSellsAppend(a[1..], b);
      assert (a + b)[0] == a[0] && (a + b)[1..] == a[1..] + b;
      Regroup([a[0]], NonSells(a[1..]), NonSells(b));
    }
  }

  lemma {:induction false} SellsMembers(book: Book)
    ensures forall o :: o in Sells(book) <==> o in book && o.side == SELL
    ensures forall o :: o in NonSells(book) <==> o in book && o.side != SELL
  {
    if book == [] {
    } else {
      SellsMembers(book[1..]);
    }
  }

  lemma {:induction false} SellsWithout(book: Book, ids: set<nat>)
    ensures Sells(Without(book, ids)) == Without(Sells(book), ids)
    ensures NonSells(Without(book, ids)) == Without(NonSells(book), ids)
  {
    if book == [] {
    } else {
      SellsWithout(book[1..], ids);
    }
  }
}
