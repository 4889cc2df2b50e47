/** Checkout: turning the cart into a transaction, committed to the store as one batch together with
    the new stock of every sold product, and applied locally only once the commit has succeeded. */
module Sales {
  import opened Basics
  import opened Catalog
  import opened Cart
  import opened Ledger
  import Money

  /** A committed sale; `items` is a copy of the cart's lines at checkout. */
  datatype Transaction = Transaction(id: string, date: string, items: seq<Line>, total: int)

  /** The engine's whole in-memory state, `db`. */
  datatype Db = Db(products: seq<Product>, transactions: seq<Transaction>, cart: seq<Line>)

  /** One entry of the commit batch: the new stock written to a product document. */
  datatype StockWrite = StockWrite(code: string, stock: int)

  /** `'TX' + Date.now()`, with the clock reading `stamp` in milliseconds passed in. */
  function TxId(stamp: nat): string {
    "TX" + Money.Digits(stamp)
  }

  /** Distinct clock readings give distinct transaction ids. */
  lemma {:induction false} TxIdInjective(a: nat, b: nat)
    requires TxId(a) == TxId(b)
    ensures a == b
  {
    assert TxId(a)[2..] == Money.Digits(a);
    assert TxId(b)[2..] == Money.Digits(b);
    Money.DigitsInjective(a, b);
  }

  /** `product.stock -= db.cart[code].qty` for one line; a line whose product is gone is skipped. */
  function Deduct(ps: seq<Product>, l: Line): seq<Product> {
    match FindIndex(ps, l.code)
    case None => ps
    case Some(i) => ps[i := ps[i].(stock := ps[i].stock - l.qty)]
  }

  /** The local stock update after a successful commit: every line deducted in cart order. */
  function ApplySale(ps: seq<Product>, cart: seq<Line>): seq<Product>
    decreases |cart|
  {
    if cart == [] then ps else ApplySale(Deduct(ps, cart[0]), cart[1..])
  }

  /** Unfolding the local update of a suffix of the cart by one line. */
  lemma {:induction false} ApplySaleStep(ps: seq<Product>, cart: seq<Line>, i: nat, next: seq<Product>)
    requires i < |cart| && next == Deduct(ps, cart[i])
    ensures ApplySale(ps, cart[i..]) == ApplySale(next, cart[i + 1..])
  {
    assert cart[i..][0] == cart[i] && cart[i..][1..] == cart[i + 1..];
  }

  /** The loop run after a successful commit:
      `for (const code in db.cart) { ... if (product) product.stock -= db.cart[code].qty }`. */
  method DeductSold(ps: seq<Product>, cart: seq<Line>) returns (r: seq<Product>)
    ensures r == ApplySale(ps, cart)
  {
    r := ps;
    var i := 0;
    while i < |cart|
      invariant 0 <= i <= |cart|
      invariant ApplySale(r, cart[i..]) == ApplySale(ps, cart)
    {
      ghost var before := r;
      var k := FindIndex(r, cart[i].code);
      if k.Some? {
        var p := k.value;
        r := r[p := r[p].(stock := r[p].stock - cart[i].qty)];
      }
      ApplySaleStep(before, cart, i, r);
      i := i + 1;
    }
    assert cart[i..] == [];
  }

  /** The batch entry for one line: the product's stock minus the line's quantity, or nothing
      when the product is gone. */
  function WriteFor(ps: seq<Product>, l: Line): seq<StockWrite> {
    match FindIndex(ps, l.code)
    case None => []
    case Some(i) => [StockWrite(l.code, ps[i].stock - l.qty)]
  }

  /** The stock updates put into the batch, all computed from the catalog before the commit. */
  function Batch(ps: seq<Product>, cart: seq<Line>): seq<StockWrite>
    decreases |cart|
  {
    if cart == [] then [] else WriteFor(ps, cart[0]) + Batch(ps, cart[1..])
  }

  /** Unfolding the batch of a suffix of the cart by one line. */
  lemma {:induction false} BatchStep(ps: seq<Product>, cart: seq<Line>, i: nat, done: seq<StockWrite>, w: seq<StockWrite>)
    requires i < |cart| && w == WriteFor(ps, cart[i])
    ensures done + Batch(ps, cart[i..]) == (done + w) + Batch(ps, cart[i + 1..])
  {
    assert cart[i..][0] == cart[i] && cart[i..][1..] == cart[i + 1..];
    assert Batch(ps, cart[i..]) == w + Batch(ps, cart[i + 1..]);
  }

  /** The loop that fills the batch (`for (const code in db.cart) ... batch.update(...)`). */
  method BuildBatch(ps: seq<Product>, cart: seq<Line>) returns (writes: seq<StockWrite>)
    ensures writes == Batch(ps, cart)
  {
    writes := [];
    var i := 0;
    assert writes + Batch(ps, cart[0..]) == Batch(ps, cart) by {
      assert cart[0..] == cart;
    }
    while i < |cart|
      invariant 0 <= i <= |cart|
      invariant writes + Batch(ps, cart[i..]) == Batch(ps, cart)
    {
      var w: seq<StockWrite> := [];
      var k := FindIndex(ps, cart[i].code);
      if k.Some? {
        w := [StockWrite(cart[i].code, ps[k.value].stock - cart[i].qty)];
      }
      BatchStep(ps, cart, i, writes, w);
      writes := writes + w;
      i := i + 1;
    }
    assert cart[i..] == [] && writes + [] == writes;
  }

  /** The store's side of the commit: each write sets the stock of the document with that code. */
  function SetStock(store: seq<Product>, w: StockWrite): seq<Product> {
    match FindIndex(store, w.code)
    case None => store
    case Some(i) => store[i := store[i].(stock := w.stock)]
  }

  function ApplyWrites(store: seq<Product>, ws: seq<StockWrite>): seq<Product>
    decreases |ws|
  {
    if ws == [] then store else ApplyWrites(SetStock(store, ws[0]), ws[1..])
  }

  lemma {:induction false} ApplyWritesAppend(store: seq<Product>, a: seq<StockWrite>, b: seq<StockWrite>)
    ensures ApplyWrites(store, a + b) == ApplyWrites(ApplyWrites(store, a), b)
    decreases |a|
  {
    if a == [] {
      assert a + b == b;
    } else {
      assert (a + b)[0] == a[0] && (a + b)[1..] == a[1..] + b;
      ApplyWritesAppend(SetStock(store, a[0]), a[1..], b);
    }
  }

  /** The batch depends only on the entry each line contributes. */
  lemma {:induction false} BatchFrame(ps: seq<Product>, qs: seq<Product>, cart: seq<Line>)
    requires forall k :: 0 <= k < |cart| ==> WriteFor(ps, cart[k]) == WriteFor(qs, cart[k])
    ensures Batch(ps, cart) == Batch(qs, cart)
    decreases |cart|
  {
    if cart != [] {
      assert WriteFor(ps, cart[0]) == WriteFor(qs, cart[0]);
      forall k | 0 <= k < |cart[1..]| ensures WriteFor(ps, cart[1..][k]) == WriteFor(qs, cart[1..][k]) {
        assert cart[1..][k] == cart[k + 1];
      }
      BatchFrame(ps, qs, cart[1..]);
    }
  }

  /** Deducting one line changes only the product carrying that line's code. */
  lemma {:induction false} DeductElsewhere(ps: seq<Product>, l: Line, c: string)
    ensures SameCodes(ps, Deduct(ps, l))
    ensures c != l.code && FindIndex(ps, c).Some? ==>
              Deduct(ps, l)[FindIndex(ps, c).value] == ps[FindIndex(ps, c).value]
  {
  }

  /** The local update never adds, removes or reorders products. */
  lemma {:induction false} ApplySaleKeepsCodes(ps: seq<Product>, cart: seq<Line>)
    ensures SameCodes(ps, ApplySale(ps, cart))
    decreases |cart|
  {
    if cart != [] {
      DeductElsewhere(ps, cart[0], "");
      ApplySaleKeepsCodes(Deduct(ps, cart[0]), cart[1..]);
    }
  }

  /** Deducting one line leaves the batch entry of a line with another code as it was. */
  lemma {:induction false} WriteForElsewhere(ps: seq<Product>, l: Line, m: Line)
    requires m.code != l.code
    ensures WriteFor(Deduct(ps, l), m) == WriteFor(ps, m)
  {
    DeductElsewhere(ps, l, m.code);
    FindSameCodes(ps, Deduct(ps, l), m.code);
  }

  /** The commit and the local update agree: the store, after applying the batch, holds exactly
      the catalog that the local update produces. */
  lemma {:induction false} BatchMatchesSale(ps: seq<Product>, cart: seq<Line>)
    requires UniqueKeys(cart)
    ensures ApplyWrites(ps, Batch(ps, cart)) == ApplySale(ps, cart)
    decreases |cart|
  {
    if cart != [] {
      var l, rest := cart[0], cart[1..];
      var ps1 := Deduct(ps, l);
      assert ApplyWrites(ps, WriteFor(ps, l)) == ps1 by {
        match FindIndex(ps, l.code)
        case None =>
        case Some(i) =>
          var w := StockWrite(l.code, ps[i].stock - l.qty);
          assert WriteFor(ps, l) == [w];
          assert [w][1..] == [];
      }
      forall k | 0 <= k < |rest| ensures WriteFor(ps, rest[k]) == WriteFor(ps1, rest[k]) {
        assert rest[k] == cart[k + 1];
        WriteForElsewhere(ps, l, rest[k]);
      }
      BatchFrame(ps, ps1, rest);
      ApplyWritesAppend(ps, WriteFor(ps, l), Batch(ps, rest));
      BatchMatchesSale(ps1, rest);
    }
  }

  /** Deducting one line from a duplicate-free catalog, position by position. */
  lemma {:induction false} DeductAt(ps: seq<Product>, l: Line, j: nat)
    requires UniqueCodes(ps) && j < |ps|
    ensures |Deduct(ps, l)| == |ps|
    ensures Deduct(ps, l)[j] == ps[j].(stock := ps[j].stock - (if ps[j].code == l.code then l.qty else 0))
  {
    FindUnique(ps, j);
  }

  /** The quantity under a key, read off the first line and the rest of a cart with unique keys. */
  lemma {:induction false} QtyOfCons(cart: seq<Line>, c: string)
    requires cart != [] && UniqueKeys(cart)
    ensures UniqueKeys(cart[1..])
    ensures QtyOf(cart, c) == if cart[0].code == c then cart[0].qty else QtyOf(cart[1..], c)
    ensures cart[0].code == c ==> QtyOf(cart[1..], c) == 0
  {
    if cart[0].code == c {
      forall k | 0 <= k < |cart[1..]| ensures cart[1..][k].code != c {
        assert cart[1..][k] == cart[k + 1];
      }
    }
  }

  /** In a duplicate-free catalog and cart, the local update lowers each product's stock by exactly
      the cart quantity under its code and changes nothing else about it. */
  lemma {:induction false} ApplySaleStock(ps: seq<Product>, cart: seq<Line>)
    requires UniqueCodes(ps) && UniqueKeys(cart)
    ensures |ApplySale(ps, cart)| == |ps|
    ensures forall j :: 0 <= j < |ps| ==>
              ApplySale(ps, cart)[j] == ps[j].(stock := ps[j].stock - QtyOf(cart, ps[j].code))
    decreases |cart|
  {
    if cart != [] {
      var l, rest := cart[0], cart[1..];
      var ps1 := Deduct(ps, l);
      DeductElsewhere(ps, l, "");
      SameCodesUnique(ps, ps1);
      QtyOfCons(cart, "");
      ApplySaleStock(ps1, rest);
      forall j | 0 <= j < |ps|
        ensures ApplySale(ps, cart)[j] == ps[j].(stock := ps[j].stock - QtyOf(cart, ps[j].code))
      {
        DeductAt(ps, l, j);
        QtyOfCons(cart, ps[j].code);
      }
    }
  }

  /** Checkout keeps stock non-negative provided every cart line fits its product's stock;
      the handler itself does not re-check this. */
  lemma {:induction false} ApplySaleNonNegative(ps: seq<Product>, cart: seq<Line>)
    requires UniqueCodes(ps) && UniqueKeys(cart)
    requires NonNegative(ps) && FitsStock(ps, cart)
    ensures NonNegative(ApplySale(ps, cart))
  {
    ApplySaleStock(ps, cart);
    forall j | 0 <= j < |ps| ensures ApplySale(ps, cart)[j].stock >= 0 {
      var c := ps[j].code;
      match LineIndex(cart, c)
      case None =>
      case Some(k) =>
        FindUnique(ps, j);
        assert Fits(ps, cart[k]);
    }
  }

  /** The converse: if the local update leaves no stock negative, every cart line fitted its
      product's stock. A line beyond its stock always drives that stock below zero. */
  lemma {:induction false} ApplySaleNeedsFit(ps: seq<Product>, cart: seq<Line>)
    requires UniqueCodes(ps) && UniqueKeys(cart)
    requires NonNegative(ApplySale(ps, cart))
    ensures FitsStock(ps, cart)
  {
    ApplySaleStock(ps, cart);
    forall k | 0 <= k < |cart| ensures Fits(ps, cart[k]) {
      match FindIndex(ps, cart[k].code)
      case None =>
      case Some(i) =>
        LineIndexUnique(cart, k);
        assert QtyOf(cart, ps[i].code) == cart[k].qty;
        assert ApplySale(ps, cart)[i].stock >= 0;
    }
  }

  /** The pay button. An empty cart or a dismissed confirmation does nothing. Otherwise the total
      is the cart total, the transaction copies the cart, and the batch (`committed` is its
      outcome) carries the transaction and the stock updates. Only after a successful commit is the
      transaction appended, the stock deducted and the cart emptied. */
  function Checkout(db: Db, confirmed: bool, stamp: nat, date: string, committed: bool): (r: Update<Db>)
    ensures db.cart == [] ==> r.outcome == Fail(EmptyCart)
    ensures db.cart != [] && !confirmed ==> r.outcome == Fail(NotConfirmed)
    ensures r.outcome == Ok <==> db.cart != [] && confirmed && committed
    ensures r.outcome.Fail? ==> r.next == db
    ensures r.outcome == Ok ==>
              r.next.cart == [] &&
              |r.next.transactions| == |db.transactions| + 1 &&
              r.next.transactions[..|db.transactions|] == db.transactions &&
              r.next.transactions[|db.transactions|] ==
                Transaction(TxId(stamp), date, db.cart, Total(db.cart)) &&
              r.next.products == ApplySale(db.products, db.cart)
  {
    if db.cart == [] then Update(Fail(EmptyCart), db)
    else if !confirmed then Update(Fail(NotConfirmed), db)
    else
      var tx := Transaction(TxId(stamp), date, db.cart, Total(db.cart));
      if !committed then Update(Fail(StoreFailure), db)
      else Update(Ok, Db(ApplySale(db.products, db.cart), db.transactions + [tx], []))
  }

  /** A transaction's total is the sum of price times quantity over its items. */
  predicate Consistent(t: Transaction) { t.total == Total(t.items) }

  /** What a successful checkout does to each product, to the log and to the store. */
  lemma {:induction false} CheckoutEffect(db: Db, confirmed: bool, stamp: nat, date: string, committed: bool)
    requires UniqueCodes(db.products) && UniqueKeys(db.cart)
    requires Checkout(db, confirmed, stamp, date, committed).outcome == Ok
    ensures var next := Checkout(db, confirmed, stamp, date, committed).next;
            |next.products| == |db.products| &&
            (forall j :: 0 <= j < |db.products| ==>
               next.products[j] == db.products[j].(stock := db.products[j].stock - QtyOf(db.cart, db.products[j].code))) &&
            Consistent(next.transactions[|db.transactions|]) &&
            ApplyWrites(db.products, Batch(db.products, db.cart)) == next.products
  {
    ApplySaleStock(db.products, db.cart);
    BatchMatchesSale(db.products, db.cart);
  }

  /** A checkout of a cart that fits the stock leaves every stock non-negative. */
  lemma {:induction false} CheckoutKeepsNonNegative(db: Db, confirmed: bool, stamp: nat, date: string, committed: bool)
    requires UniqueCodes(db.products) && UniqueKeys(db.cart)
    requires NonNegative(db.products) && FitsStock(db.products, db.cart)
    ensures NonNegative(Checkout(db, confirmed, stamp, date, committed).next.products)
  {
    if Checkout(db, confirmed, stamp, date, committed).outcome == Ok {
      ApplySaleNonNegative(db.products, db.cart);
    }
  }

  /** Since checkout does not re-check the stock, a successful payment of a cart with a line beyond
      its product's stock always leaves that stock negative. */
  lemma {:induction false} CheckoutOversells(db: Db, confirmed: bool, stamp: nat, date: string, committed: bool)
    requires UniqueCodes(db.products) && UniqueKeys(db.cart)
    requires !FitsStock(db.products, db.cart)
    requires Checkout(db, confirmed, stamp, date, committed).outcome == Ok
    ensures !NonNegative(Checkout(db, confirmed, stamp, date, committed).next.products)
  {
    if NonNegative(ApplySale(db.products, db.cart)) {
      ApplySaleNeedsFit(db.products, db.cart);
    }
  }

  /** A product A at 3500 with two in stock: two scans are accepted, a third is refused; paying
      records a sale of 7000 and empties the stock and the cart, while a failed commit changes nothing. */
  lemma {:induction false} TwoScansScenario(stamp: nat, date: string)
    ensures var ps := [Product("A", "Apel", 3500, 2)];
            var s1 := Scan(ps, [], "A");
            var s2 := Scan(ps, s1.next, "A");
            var s3 := Scan(ps, s2.next, "A");
            var paid := Checkout(Db(ps, [], s2.next), true, stamp, date, true);
            var failed := Checkout(Db(ps, [], s2.next), true, stamp, date, false);
            s1.outcome == Ok && s2.outcome == Ok && s2.next == [Line("A", "Apel", 3500, 2)] &&
            s3.outcome == Fail(InsufficientStock) &&
            paid.outcome == Ok && paid.next.transactions[0].total == 7000 &&
            paid.next.products == [Product("A", "Apel", 3500, 0)] && paid.next.cart == [] &&
            failed.outcome == Fail(StoreFailure) && failed.next == Db(ps, [], [Line("A", "Apel", 3500, 2)])
  {
    var ps := [Product("A", "Apel", 3500, 2)];
    assert FindIndex(ps, "A") == Some(0);
    var l1 := Line("A", "Apel", 3500, 1);
    assert Scan(ps, [], "A").next == [l1];
    assert LineIndex([l1], "A") == Some(0);
    var l2 := Line("A", "Apel", 3500, 2);
    assert Scan(ps, [l1], "A").next == [l2];
    assert LineIndex([l2], "A") == Some(0);
    assert Total([l2]) == 7000;
    assert Deduct(ps, l2) == [Product("A", "Apel", 3500, 0)];
    assert [l2][1..] == [];
  }

  /** Checkout does not compare the cart with the stock again: two units of A scanned while two are in
      stock, one issued from the stock afterwards, and the payment drives A's stock to -1. */
  lemma {:induction false} CheckoutAfterIssueOversells(stamp: nat, date: string)
    ensures var ps := [Product("A", "Apel", 3500, 2)];
            var cart := Scan(ps, Scan(ps, [], "A").next, "A").next;
            var issued := Move(ps, "A", 1, Out, true);
            var paid := Checkout(Db(issued.next, [], cart), true, stamp, date, true);
            issued.outcome == Ok && paid.outcome == Ok && paid.next.products == [Product("A", "Apel", 3500, -1)]
  {
    var ps := [Product("A", "Apel", 3500, 2)];
    assert FindIndex(ps, "A") == Some(0);
    var l1 := Line("A", "Apel", 3500, 1);
    assert Scan(ps, [], "A").next == [l1];
    assert LineIndex([l1], "A") == Some(0);
    var l2 := Line("A", "Apel", 3500, 2);
    assert Scan(ps, [l1], "A").next == [l2];
    var left := [Product("A", "Apel", 3500, 1)];
    assert Move(ps, "A", 1, Out, true).next == left;
    assert FindIndex(left, "A") == Some(0);
    assert Deduct(left, l2) == [Product("A", "Apel", 3500, -1)];
    assert [l2][1..] == [];
  }
}
