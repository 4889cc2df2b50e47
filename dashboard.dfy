/** The figures of the dashboard, all computed from the catalog and the transaction log:
    today's transactions, their count and takings, the best sellers of the day and the reorder list. */
module Dashboard {
  import opened Basics
  import opened Catalog
  import opened Cart
  import opened Sales

  /** `s.startsWith(prefix)`. */
  predicate StartsWith(s: string, prefix: string) {
    |prefix| <= |s| && s[..|prefix|] == prefix
  }

  /** `t => t.date && t.date.startsWith(today)`: a missing (empty) date never matches. */
  function OnDay(today: string): Transaction -> bool {
    (t: Transaction) => t.date != [] && StartsWith(t.date, today)
  }

  /** Today's transactions, in log order; `today` is the `YYYY-MM-DD` prefix of the clock's ISO date. */
  function TodayTxs(txs: seq<Transaction>, today: string): (r: seq<Transaction>)
    ensures forall j :: 0 <= j < |r| ==> r[j] in txs && r[j].date != [] && StartsWith(r[j].date, today)
    ensures forall j :: 0 <= j < |txs| && txs[j].date != [] && StartsWith(txs[j].date, today) ==> txs[j] in r
  {
    FilterMembers(OnDay(today), txs);
    Filter(OnDay(today), txs)
  }

  /** `todayTxs.reduce((acc, t) => acc + t.total, 0)`. */
  function SalesTotal(txs: seq<Transaction>): int {
    if txs == [] then 0 else txs[0].total + SalesTotal(txs[1..])
  }

  lemma {:induction false} SalesTotalAppend(a: seq<Transaction>, b: seq<Transaction>)
    ensures SalesTotal(a + b) == SalesTotal(a) + SalesTotal(b)
  {
    if a == [] {
      assert a + b == b;
    } else {
      assert (a + b)[0] == a[0] && (a + b)[1..] == a[1..] + b;
      SalesTotalAppend(a[1..], b);
    }
  }

  /** Logging one more transaction: if it is dated today, the count goes up by one and the takings
      by its total; otherwise today's figures stay as they were. */
  lemma {:induction false} TodayAppend(txs: seq<Transaction>, t: Transaction, today: string)
    ensures var before, after := TodayTxs(txs, today), TodayTxs(txs + [t], today);
            if t.date != [] && StartsWith(t.date, today)
            then after == before + [t] && SalesTotal(after) == SalesTotal(before) + t.total
            else after == before
  {
    FilterAppend(OnDay(today), txs, [t]);
    assert [t][1..] == [];
    SalesTotalAppend(TodayTxs(txs, today), [t]);
    assert SalesTotal([t]) == t.total;
  }

  /** A successful checkout dated today adds one transaction and the cart total to today's figures. */
  lemma {:induction false} CheckoutRaisesTodaySales(db: Db, confirmed: bool, stamp: nat, date: string,
                                                    committed: bool, today: string)
    requires Checkout(db, confirmed, stamp, date, committed).outcome == Ok
    requires date != [] && StartsWith(date, today)
    ensures var next := Checkout(db, confirmed, stamp, date, committed).next;
            |TodayTxs(next.transactions, today)| == |TodayTxs(db.transactions, today)| + 1 &&
            SalesTotal(TodayTxs(next.transactions, today)) == SalesTotal(TodayTxs(db.transactions, today)) + Total(db.cart)
  {
    var next := Checkout(db, confirmed, stamp, date, committed).next;
    var t := Transaction(TxId(stamp), date, db.cart, Total(db.cart));
    assert next.transactions == db.transactions + [t];
    TodayAppend(db.transactions, t, today);
  }

  // ---- units sold per code (`salesCount`) ----

  /** One entry of `salesCount`: a code and the units of it sold. */
  datatype Sold = Sold(code: string, qty: int)

  /** The keys of the tally in property order. */
  function Codes(t: seq<Sold>): (r: seq<string>)
    ensures |r| == |t| && forall j :: 0 <= j < |t| ==> r[j] == t[j].code
  {
    if t == [] then [] else [t[0].code] + Codes(t[1..])
  }

  /** `salesCount[code]`, with 0 for a code not yet present (`|| 0`). */
  function SoldQty(t: seq<Sold>, code: string): int {
    if t == [] then 0 else if t[0].code == code then t[0].qty else SoldQty(t[1..], code)
  }

  /** `salesCount[code] = (salesCount[code] || 0) + qty`: an existing key keeps its place, a new key
      goes to the end. */
  function Bump(t: seq<Sold>, code: string, qty: int): seq<Sold> {
    if t == [] then [Sold(code, qty)]
    else if t[0].code == code then [t[0].(qty := t[0].qty + qty)] + t[1..]
    else [t[0]] + Bump(t[1..], code, qty)
  }

  /** The inner `for (const code in tx.items)`. */
  function CountItems(t: seq<Sold>, items: seq<Line>): seq<Sold>
    decreases |items|
  {
    if items == [] then t else CountItems(Bump(t, items[0].code, items[0].qty), items[1..])
  }

  /** The outer `todayTxs.forEach`. */
  function CountTxs(t: seq<Sold>, txs: seq<Transaction>): seq<Sold>
    decreases |txs|
  {
    if txs == [] then t else CountTxs(CountItems(t, txs[0].items), txs[1..])
  }

  function SalesCount(txs: seq<Transaction>): seq<Sold> {
    CountTxs([], txs)
  }

  /** The loop that fills `salesCount`. */
  method Tally(txs: seq<Transaction>) returns (t: seq<Sold>)
    ensures t == SalesCount(txs)
  {
    t := [];
    var i := 0;
    while i < |txs|
      invariant 0 <= i <= |txs|
      invariant CountTxs(t, txs[i..]) == SalesCount(txs)
    {
      assert txs[i..][0] == txs[i] && txs[i..][1..] == txs[i + 1..];
      var items := txs[i].items;
      ghost var t0 := t;
      var k := 0;
      while k < |items|
        invariant 0 <= k <= |items|
        invariant CountItems(t, items[k..]) == CountItems(t0, items)
      {
        assert items[k..][0] == items[k] && items[k..][1..] == items[k + 1..];
        t := Bump(t, items[k].code, items[k].qty);
        k := k + 1;
      }
      assert items[k..] == [];
      i := i + 1;
    }
    assert txs[i..] == [];
  }

  // ---- an independent account of the tally ----

  /** Units of `code` on the lines of one transaction. */
  function LineUnits(items: seq<Line>, code: string): int {
    if items == [] then 0 else (if items[0].code == code then items[0].qty else 0) + LineUnits(items[1..], code)
  }

  /** Units of `code` sold over a list of transactions. */
  function UnitsSold(txs: seq<Transaction>, code: string): int {
    if txs == [] then 0 else LineUnits(txs[0].items, code) + UnitsSold(txs[1..], code)
  }

  /** The codes of all lines of all transactions, in order, repetitions included. */
  function LineCodes(items: seq<Line>): (r: seq<string>)
    ensures |r| == |items| && forall j :: 0 <= j < |items| ==> r[j] == items[j].code
  {
    if items == [] then [] else [items[0].code] + LineCodes(items[1..])
  }

  function TxCodes(txs: seq<Transaction>): seq<string> {
    if txs == [] then [] else LineCodes(txs[0].items) + TxCodes(txs[1..])
  }

  /** `acc` followed by the elements of `s` it does not yet hold, each at its first appearance. */
  function FirstSeen(acc: seq<string>, s: seq<string>): seq<string>
    decreases |s|
  {
    if s == [] then acc else FirstSeen(if s[0] in acc then acc else acc + [s[0]], s[1..])
  }

  predicate Distinct(s: seq<string>) {
    forall i, j :: 0 <= i < j < |s| ==> s[i] != s[j]
  }

  lemma {:induction false} BumpQty(t: seq<Sold>, code: string, qty: int, c: string)
    ensures SoldQty(Bump(t, code, qty), c) == SoldQty(t, c) + (if c == code then qty else 0)
  {
    if t != [] && t[0].code != code {
      assert Bump(t, code, qty)[1..] == Bump(t[1..], code, qty);
      BumpQty(t[1..], code, qty, c);
    }
  }

  lemma {:induction false} BumpCodes(t: seq<Sold>, code: string, qty: int)
    ensures Codes(Bump(t, code, qty)) == if code in Codes(t) then Codes(t) else Codes(t) + [code]
  {
    if t != [] {
      var b := Bump(t, code, qty);
      if t[0].code == code {
        assert code in Codes(t) by { assert Codes(t)[0] == code; }
      } else {
        assert b[1..] == Bump(t[1..], code, qty);
        BumpCodes(t[1..], code, qty);
        assert Codes(t) == [t[0].code] + Codes(t[1..]);
        assert code in Codes(t) <==> code in Codes(t[1..]);
      }
    }
  }

  lemma {:induction false} CountItemsQty(t: seq<Sold>, items: seq<Line>, c: string)
    ensures SoldQty(CountItems(t, items), c) == SoldQty(t, c) + LineUnits(items, c)
    ensures Codes(CountItems(t, items)) == FirstSeen(Codes(t), LineCodes(items))
    decreases |items|
  {
    if items != [] {
      var b := Bump(t, items[0].code, items[0].qty);
      BumpQty(t, items[0].code, items[0].qty, c);
      BumpCodes(t, items[0].code, items[0].qty);
      assert LineCodes(items)[0] == items[0].code && LineCodes(items)[1..] == LineCodes(items[1..]);
      CountItemsQty(b, items[1..], c);
    }
  }

  lemma {:induction false} FirstSeenAppend(acc: seq<string>, a: seq<string>, b: seq<string>)
    ensures FirstSeen(acc, a + b) == FirstSeen(FirstSeen(acc, a), b)
    decreases |a|
  {
    if a == [] {
      assert a + b == b;
    } else {
      assert (a + b)[0] == a[0] && (a + b)[1..] == a[1..] + b;
      FirstSeenAppend(if a[0] in acc then acc else acc + [a[0]], a[1..], b);
    }
  }

  lemma {:induction false} CountTxsQty(t: seq<Sold>, txs: seq<Transaction>, c: string)
    ensures SoldQty(CountTxs(t, txs), c) == SoldQty(t, c) + UnitsSold(txs, c)
    ensures Codes(CountTxs(t, txs)) == FirstSeen(Codes(t), TxCodes(txs))
    decreases |txs|
  {
    if txs != [] {
      var t1 := CountItems(t, txs[0].items);
      CountItemsQty(t, txs[0].items, c);
      CountTxsQty(t1, txs[1..], c);
      FirstSeenAppend(Codes(t), LineCodes(txs[0].items), TxCodes(txs[1..]));
    }
  }

  lemma {:induction false} FirstSeenDistinct(acc: seq<string>, s: seq<string>)
    requires Distinct(acc)
    ensures Distinct(FirstSeen(acc, s))
    ensures forall c :: c in FirstSeen(acc, s) <==> c in acc || c in s
    decreases |s|
  {
    if s != [] {
      var acc1 := if s[0] in acc then acc else acc + [s[0]];
      assert Distinct(acc1) by {
        if s[0] !in acc {
          forall i, j | 0 <= i < j < |acc1| ensures acc1[i] != acc1[j] {
            if j == |acc| {
              assert acc1[i] == acc[i];
            }
          }
        }
      }
      FirstSeenDistinct(acc1, s[1..]);
      assert s == [s[0]] + s[1..];
      forall c ensures c in acc1 <==> c in acc || c == s[0] {}
    }
  }

  /** `salesCount` holds, for every code, exactly the units of it sold across the transactions
      (0 for a code never sold); its keys are the codes sold, without repetition, in order of first
      appearance. */
  lemma {:induction false} SalesCountCorrect(txs: seq<Transaction>)
    ensures forall c :: SoldQty(SalesCount(txs), c) == UnitsSold(txs, c)
    ensures Codes(SalesCount(txs)) == FirstSeen([], TxCodes(txs))
    ensures Distinct(Codes(SalesCount(txs)))
    ensures forall c :: c in Codes(SalesCount(txs)) <==> c in TxCodes(txs)
  {
    forall c ensures SoldQty(SalesCount(txs), c) == UnitsSold(txs, c) {
      CountTxsQty([], txs, c);
    }
    CountTxsQty([], txs, "");
    FirstSeenDistinct([], TxCodes(txs));
  }

  // ---- ranking (`Object.entries(salesCount).sort(([, a], [, b]) => b - a)`) ----

  /** Inserting an entry ahead of the first entry that sold no more than it: entries of equal
      quantity keep their relative order, the one inserted last (the earlier one) first. */
  function Insert(x: Sold, s: seq<Sold>): seq<Sold> {
    if s == [] then [x] else if x.qty >= s[0].qty then [x] + s else [s[0]] + Insert(x, s[1..])
  }

  /** The stable sort by descending quantity. */
  function Rank(s: seq<Sold>): seq<Sold> {
    if s == [] then [] else Insert(s[0], Rank(s[1..]))
  }

  predicate NonIncreasing(s: seq<Sold>) {
    forall i, j :: 0 <= i < j < |s| ==> s[i].qty >= s[j].qty
  }

  function HasQty(q: int): Sold -> bool {
    (e: Sold) => e.qty == q
  }

  /** The entries with quantity `q`, in order. */
  function Tied(s: seq<Sold>, q: int): seq<Sold> {
    Filter(HasQty(q), s)
  }

  lemma {:induction false} InsertPermutes(x: Sold, s: seq<Sold>)
    ensures multiset(Insert(x, s)) == multiset(s) + multiset{x}
  {
    if s != [] && x.qty < s[0].qty {
      InsertPermutes(x, s[1..]);
      assert s == [s[0]] + s[1..];
    }
  }

  lemma {:induction false} InsertSorted(x: Sold, s: seq<Sold>)
    requires NonIncreasing(s)
    ensures NonIncreasing(Insert(x, s))
  {
    if s != [] && x.qty < s[0].qty {
      var r := Insert(x, s[1..]);
      InsertSorted(x, s[1..]);
      InsertPermutes(x, s[1..]);
      forall j | 0 <= j < |r| ensures s[0].qty >= r[j].qty {
        assert r[j] in multiset(r);
        if r[j] != x {
          assert r[j] in multiset(s[1..]);
          var k :| 0 <= k < |s[1..]| && s[1..][k] == r[j];
          assert s[k + 1] == r[j];
        }
      }
    }
  }

  /** The entries ranked: sorted by descending quantity and a permutation of the input. */
  lemma {:induction false} RankSorted(s: seq<Sold>)
    ensures NonIncreasing(Rank(s))
    ensures multiset(Rank(s)) == multiset(s)
  {
    if s != [] {
      RankSorted(s[1..]);
      InsertSorted(s[0], Rank(s[1..]));
      InsertPermutes(s[0], Rank(s[1..]));
      assert s == [s[0]] + s[1..];
    }
  }

  lemma {:induction false} InsertTied(x: Sold, s: seq<Sold>, q: int)
    requires NonIncreasing(s)
    ensures Tied(Insert(x, s), q) == (if x.qty == q then [x] else []) + Tied(s, q)
  {
    if s != [] && x.qty < s[0].qty {
      assert NonIncreasing(s[1..]);
      InsertTied(x, s[1..], q);
      assert Insert(x, s) == [s[0]] + Insert(x, s[1..]);
      FilterAppend(HasQty(q), [s[0]], Insert(x, s[1..]));
      FilterAppend(HasQty(q), [s[0]], s[1..]);
      assert s == [s[0]] + s[1..];
    } else if s != [] {
      FilterAppend(HasQty(q), [x], s);
    }
  }

  /** The sort is stable: the entries of any one quantity come out in their original order. */
  lemma {:induction false} RankStable(s: seq<Sold>, q: int)
    ensures Tied(Rank(s), q) == Tied(s, q)
  {
    if s != [] {
      RankSorted(s[1..]);
      InsertTied(s[0], Rank(s[1..]), q);
      RankStable(s[1..], q);
    }
  }

  // ---- the best sellers shown ----

  /** `.slice(0, 5)`: the number of ranked entries the dashboard shows at most. */
  const TopCount: nat := 5

  function Take(s: seq<Sold>, n: nat): (r: seq<Sold>)
    ensures |r| <= n && |r| <= |s| && r == s[..|r|]
    ensures |s| <= n ==> r == s
    ensures |r| == if |s| <= n then |s| else n
  {
    if |s| <= n then s else s[..n]
  }

  /** A best-seller line: the product's name from the catalog and the units sold. */
  datatype Seller = Seller(code: string, name: string, qty: int)

  function HasUnits(q: int): Seller -> bool {
    (r: Seller) => r.qty == q
  }

  /** The line one entry contributes: none when its product is gone. */
  function Shown(ps: seq<Product>, e: Sold): seq<Seller> {
    match FindIndex(ps, e.code)
    case None => []
    case Some(i) => [Seller(e.code, ps[i].name, e.qty)]
  }

  /** The `db.products.find` join: each entry whose code is still in the catalog, with its name;
      entries whose product is gone are skipped. */
  function Resolve(ps: seq<Product>, entries: seq<Sold>): (r: seq<Seller>)
    ensures |r| <= |entries|
  {
    if entries == [] then [] else Shown(ps, entries[0]) + Resolve(ps, entries[1..])
  }

  function TopSellers(ps: seq<Product>, txs: seq<Transaction>, today: string): seq<Seller> {
    Resolve(ps, Take(Rank(SalesCount(TodayTxs(txs, today))), TopCount))
  }

  /** Every line of the join is an entry whose code the catalog holds, named after the catalog product. */
  lemma {:induction false} ResolveSound(ps: seq<Product>, entries: seq<Sold>)
    ensures forall j :: 0 <= j < |Resolve(ps, entries)| ==>
              var r := Resolve(ps, entries)[j];
              FindIndex(ps, r.code).Some? && r.name == ps[FindIndex(ps, r.code).value].name &&
              Sold(r.code, r.qty) in entries
  {
    if entries != [] {
      var rest := Resolve(ps, entries[1..]);
      ResolveSound(ps, entries[1..]);
      var r := Resolve(ps, entries);
      var h := |r| - |rest|;
      forall j | h <= j < |r| ensures r[j] == rest[j - h] && Sold(r[j].code, r[j].qty) in entries {
        assert Sold(rest[j - h].code, rest[j - h].qty) in entries[1..];
      }
    }
  }

  /** Every entry whose code the catalog holds is in the join, with its quantity. */
  lemma {:induction false} ResolveComplete(ps: seq<Product>, entries: seq<Sold>, k: nat)
    requires k < |entries| && FindIndex(ps, entries[k].code).Some?
    ensures exists j :: 0 <= j < |Resolve(ps, entries)| && Resolve(ps, entries)[j].code == entries[k].code &&
                        Resolve(ps, entries)[j].qty == entries[k].qty
  {
    var r := Resolve(ps, entries);
    var rest := Resolve(ps, entries[1..]);
    var h := |r| - |rest|;
    if k == 0 {
      assert r[0].code == entries[0].code && r[0].qty == entries[0].qty;
    } else {
      ResolveComplete(ps, entries[1..], k - 1);
      var j :| 0 <= j < |rest| && rest[j].code == entries[k].code && rest[j].qty == entries[k].qty;
      assert r[j + h] == rest[j];
    }
  }

  /** The join keeps the order of a ranked list. */
  lemma {:induction false} ResolveSorted(ps: seq<Product>, entries: seq<Sold>)
    requires NonIncreasing(entries)
    ensures forall i, j :: 0 <= i < j < |Resolve(ps, entries)| ==>
              Resolve(ps, entries)[i].qty >= Resolve(ps, entries)[j].qty
  {
    if entries != [] {
      var e := entries[0];
      var rest := Resolve(ps, entries[1..]);
      var r := Resolve(ps, entries);
      var h := |r| - |rest|;
      ResolveSorted(ps, entries[1..]);
      ResolveSound(ps, entries[1..]);
      forall j | 0 <= j < |rest| ensures e.qty >= rest[j].qty {
        var k :| 0 <= k < |entries[1..]| && entries[1..][k] == Sold(rest[j].code, rest[j].qty);
        assert entries[k + 1].qty == rest[j].qty;
      }
      forall i, j | 0 <= i < j < |r| ensures r[i].qty >= r[j].qty {
        assert r[j] == rest[j - h];
        if i >= h {
          assert r[i] == rest[i - h];
        }
      }
    }
  }

  /** The join works entry by entry, so it keeps the order of the entries. */
  lemma {:induction false} ResolveAppend(ps: seq<Product>, a: seq<Sold>, b: seq<Sold>)
    ensures Resolve(ps, a + b) == Resolve(ps, a) + Resolve(ps, b)
    decreases |a|
  {
    if a == [] {
      assert a + b == b;
    } else {
      assert (a + b)[0] == a[0] && (a + b)[1..] == a[1..] + b;
      assert Resolve(ps, a + b) == Shown(ps, a[0]) + Resolve(ps, a[1..] + b);
      assert Resolve(ps, a) == Shown(ps, a[0]) + Resolve(ps, a[1..]);
      ResolveAppend(ps, a[1..], b);
    }
  }

  /** A prefix of the entries gives a prefix of the join. */
  lemma {:induction false} ResolvePrefix(ps: seq<Product>, a: seq<Sold>, b: seq<Sold>)
    requires a <= b
    ensures Resolve(ps, a) <= Resolve(ps, b)
  {
    assert b == a + b[|a|..];
    ResolveAppend(ps, a, b[|a|..]);
  }

  /** The lines of the join with `q` units are the join of the entries with quantity `q`. */
  lemma {:induction false} ResolveTied(ps: seq<Product>, e: seq<Sold>, q: int)
    ensures Filter(HasUnits(q), Resolve(ps, e)) == Resolve(ps, Tied(e, q))
    decreases |e|
  {
    if e != [] {
      var head := Shown(ps, e[0]);
      var first := if e[0].qty == q then [e[0]] else [];
      assert Resolve(ps, e) == head + Resolve(ps, e[1..]);
      FilterAppend(HasUnits(q), head, Resolve(ps, e[1..]));
      ResolveTied(ps, e[1..], q);
      assert Tied(e, q) == first + Tied(e[1..], q);
      ResolveAppend(ps, first, Tied(e[1..], q));
      assert Resolve(ps, first) == Filter(HasUnits(q), head) by {
        if head != [] {
          assert head[1..] == [];
        }
        if first != [] {
          assert first[1..] == [];
          assert Resolve(ps, first) == head + Resolve(ps, []);
        }
      }
    }
  }

  /** The best-seller list: at most five lines, by descending units sold, each a product still in the
      catalog under its catalog name, with exactly the units of it sold today. */
  lemma {:induction false} TopSellersShape(ps: seq<Product>, txs: seq<Transaction>, today: string)
    ensures var r := TopSellers(ps, txs, today);
            |r| <= TopCount &&
            (forall i, j :: 0 <= i < j < |r| ==> r[i].qty >= r[j].qty) &&
            forall j :: 0 <= j < |r| ==>
              FindIndex(ps, r[j].code).Some? && r[j].name == ps[FindIndex(ps, r[j].code).value].name &&
              r[j].qty == UnitsSold(TodayTxs(txs, today), r[j].code)
  {
    var day := TodayTxs(txs, today);
    var ranked := Rank(SalesCount(day));
    var top := Take(ranked, TopCount);
    RankSorted(SalesCount(day));
    SalesCountCorrect(day);
    assert NonIncreasing(top);
    ResolveSound(ps, top);
    ResolveSorted(ps, top);
    var r := TopSellers(ps, txs, today);
    forall j | 0 <= j < |r| ensures r[j].qty == UnitsSold(day, r[j].code) {
      var e := Sold(r[j].code, r[j].qty);
      assert e in top;
      assert e in multiset(SalesCount(day));
      SoldQtyOfEntry(SalesCount(day), e);
    }
  }

  /** In a tally with distinct keys, an entry's quantity is the tally's quantity for its code. */
  lemma {:induction false} SoldQtyOfEntry(t: seq<Sold>, e: Sold)
    requires Distinct(Codes(t)) && e in t
    ensures SoldQty(t, e.code) == e.qty
  {
    if t[0] != e {
      assert e in t[1..];
      var k :| 0 <= k < |t[1..]| && t[1..][k] == e;
      assert Codes(t)[0] == t[0].code && Codes(t)[k + 1] == e.code;
      assert Codes(t)[1..] == Codes(t[1..]);
      SoldQtyOfEntry(t[1..], e);
    }
  }

  /** Nothing shown sold fewer units than a ranked entry left off the list. */
  lemma {:induction false} TopSellersAreTop(ps: seq<Product>, txs: seq<Transaction>, today: string, k: nat)
    requires TopCount <= k < |Rank(SalesCount(TodayTxs(txs, today)))|
    ensures forall j :: 0 <= j < |TopSellers(ps, txs, today)| ==>
              TopSellers(ps, txs, today)[j].qty >= Rank(SalesCount(TodayTxs(txs, today)))[k].qty
  {
    var ranked := Rank(SalesCount(TodayTxs(txs, today)));
    var top := Take(ranked, TopCount);
    var r := TopSellers(ps, txs, today);
    RankSorted(SalesCount(TodayTxs(txs, today)));
    ResolveSound(ps, top);
    forall j | 0 <= j < |r| ensures r[j].qty >= ranked[k].qty {
      var i :| 0 <= i < |top| && top[i] == Sold(r[j].code, r[j].qty);
      assert ranked[i] == top[i];
    }
  }

  /** The list is cut at five before the join, so only codes among the first five ranked entries can
      be shown, and each of those whose product still exists is. */
  lemma {:induction false} TopSellersComplete(ps: seq<Product>, txs: seq<Transaction>, today: string, k: nat)
    requires k < |Rank(SalesCount(TodayTxs(txs, today)))| && k < TopCount
    requires FindIndex(ps, Rank(SalesCount(TodayTxs(txs, today)))[k].code).Some?
    ensures var e := Rank(SalesCount(TodayTxs(txs, today)))[k];
            exists j :: 0 <= j < |TopSellers(ps, txs, today)| &&
                        TopSellers(ps, txs, today)[j].code == e.code && TopSellers(ps, txs, today)[j].qty == e.qty
  {
    var ranked := Rank(SalesCount(TodayTxs(txs, today)));
    var top := Take(ranked, TopCount);
    assert top[k] == ranked[k];
    assert TopSellers(ps, txs, today) == Resolve(ps, top);
    ResolveComplete(ps, top, k);
  }

  /** The sort is stable and the join keeps order, so best sellers with equal units are shown in the
      order their codes first appear in `salesCount`: the lines shown with `q` units are the first
      ones of the join of `salesCount`'s entries with quantity `q`. */
  lemma {:induction false} TopSellersKeepTieOrder(ps: seq<Product>, txs: seq<Transaction>, today: string, q: int)
    ensures Filter(HasUnits(q), TopSellers(ps, txs, today)) <= Resolve(ps, Tied(SalesCount(TodayTxs(txs, today)), q))
  {
    var tally := SalesCount(TodayTxs(txs, today));
    var ranked := Rank(tally);
    var top := Take(ranked, TopCount);
    assert ranked == top + ranked[|top|..];
    FilterAppend(HasQty(q), top, ranked[|top|..]);
    RankStable(tally, q);
    ResolveTied(ps, top, q);
    ResolvePrefix(ps, Tied(top, q), Tied(tally, q));
  }

  /** Two sales today, `{A: 3}` and `{A: 2, B: 1}`, rank A with 5 units ahead of B with 1. */
  lemma {:induction false} TwoSalesScenario()
    ensures var ps := [Product("A", "Apel", 3500, 10), Product("B", "Buku", 1000, 10)];
            var t1 := Transaction("TX1", "2024-05-01T08:00:00.000Z", [Line("A", "Apel", 3500, 3)], 10500);
            var t2 := Transaction("TX2", "2024-05-01T09:00:00.000Z",
                                  [Line("A", "Apel", 3500, 2), Line("B", "Buku", 1000, 1)], 8000);
            TopSellers(ps, [t1, t2], "2024-05-01") == [Seller("A", "Apel", 5), Seller("B", "Buku", 1)]
  {
    var t1 := Transaction("TX1", "2024-05-01T08:00:00.000Z", [Line("A", "Apel", 3500, 3)], 10500);
    var t2 := Transaction("TX2", "2024-05-01T09:00:00.000Z",
                          [Line("A", "Apel", 3500, 2), Line("B", "Buku", 1000, 1)], 8000);
    assert StartsWith(t1.date, "2024-05-01") && StartsWith(t2.date, "2024-05-01");
    assert TodayTxs([t1, t2], "2024-05-01") == [t1, t2] by {
      FilterKeepsAll(OnDay("2024-05-01"), [t1, t2]);
    }
    assert CountItems([], t1.items) == [Sold("A", 3)] by {
      assert t1.items[1..] == [];
    }
    assert CountItems([Sold("A", 3)], t2.items) == [Sold("A", 5), Sold("B", 1)] by {
      var t := Bump([Sold("A", 3)], "A", 2);
      assert t == [Sold("A", 5)];
      assert Bump(t, "B", 1) == [Sold("A", 5)] + Bump([], "B", 1);
      assert t2.items[1..] == [Line("B", "Buku", 1000, 1)];
      assert t2.items[1..][1..] == [];
    }
    var tally := [Sold("A", 5), Sold("B", 1)];
    assert [t1, t2][1..] == [t2] && [t2][1..] == [];
    assert CountTxs([], [t1, t2]) == CountTxs([Sold("A", 3)], [t2]);
    assert CountTxs([Sold("A", 3)], [t2]) == CountTxs(tally, []);
    assert Rank(tally) == tally by {
      assert tally[1..] == [Sold("B", 1)];
      assert Rank([Sold("B", 1)]) == [Sold("B", 1)];
    }
    assert Take(tally, TopCount) == tally;
    assert tally[1..][1..] == [];
  }
}
