/** The sale cart (`db.cart`): an object keyed by product code whose lines keep insertion order. */
module Cart {
  import opened Basics
  import opened Catalog

  /** A cart line; `name` and `price` are copied from the product when the line is created. */
  datatype Line = Line(code: string, name: string, price: int, qty: int)

  /** `db.cart[code]`: the position of the line stored under that key. */
  function LineIndex(cart: seq<Line>, code: string): (r: Option<nat>)
    ensures r.Some? ==> r.value < |cart| && cart[r.value].code == code
    ensures r.Some? ==> forall j :: 0 <= j < r.value ==> cart[j].code != code
    ensures r.None? <==> forall j :: 0 <= j < |cart| ==> cart[j].code != code
  {
    if cart == [] then None
    else if cart[0].code == code then Some(0)
    else match LineIndex(cart[1..], code)
      case None => None
      case Some(i) => Some(i + 1)
  }

  /** Object keys are unique. */
  predicate UniqueKeys(cart: seq<Line>) {
    forall i, j :: 0 <= i < j < |cart| ==> cart[i].code != cart[j].code
  }

  /** `cartItem ? cartItem.qty : 0`. */
  function QtyOf(cart: seq<Line>, code: string): int {
    match LineIndex(cart, code)
    case None => 0
    case Some(j) => cart[j].qty
  }

  lemma {:induction false} LineIndexUnique(cart: seq<Line>, j: nat)
    requires UniqueKeys(cart) && j < |cart|
    ensures LineIndex(cart, cart[j].code) == Some(j)
  {
  }

  /** Looking a key up in a cart with one line appended. */
  lemma {:induction false} LineIndexAppend(cart: seq<Line>, l: Line, code: string)
    ensures LineIndex(cart + [l], code) ==
            if LineIndex(cart, code).Some? then LineIndex(cart, code)
            else if l.code == code then Some(|cart|) else None
  {
    if cart == [] {
      assert cart + [l] == [l];
    } else {
      var c := cart + [l];
      assert c[0] == cart[0] && c[1..] == cart[1..] + [l];
      LineIndexAppend(cart[1..], l, code);
    }
  }

  /** Lookup depends only on the keys of the lines. */
  lemma {:induction false} LineIndexSameKeys(a: seq<Line>, b: seq<Line>, code: string)
    requires |a| == |b| && forall j :: 0 <= j < |a| ==> a[j].code == b[j].code
    ensures LineIndex(a, code) == LineIndex(b, code)
  {
    if a != [] {
      LineIndexSameKeys(a[1..], b[1..], code);
    }
  }

  /** `Object.values(db.cart).reduce((acc, item) => acc + item.price * item.qty, 0)`. */
  function Total(cart: seq<Line>): int {
    if cart == [] then 0 else cart[0].price * cart[0].qty + Total(cart[1..])
  }

  lemma {:induction false} TotalAppend(a: seq<Line>, b: seq<Line>)
    ensures Total(a + b) == Total(a) + Total(b)
  {
    if a == [] {
      assert a + b == b;
    } else {
      assert (a + b)[0] == a[0] && (a + b)[1..] == a[1..] + b;
      TotalAppend(a[1..], b);
    }
  }

  /** One more unit on line `j` adds that line's price to the total. */
  lemma {:induction false} TotalBump(cart: seq<Line>, j: nat)
    requires j < |cart|
    ensures Total(cart[j := cart[j].(qty := cart[j].qty + 1)]) == Total(cart) + cart[j].price
  {
    var c := cart[j := cart[j].(qty := cart[j].qty + 1)];
    if j == 0 {
      assert c[1..] == cart[1..];
    } else {
      assert c[1..] == cart[1..][j - 1 := cart[j].(qty := cart[j].qty + 1)];
      TotalBump(cart[1..], j - 1);
    }
  }

  /** The scan form. A blank code does nothing; an unknown code is refused; a code whose cart
      quantity has already reached the product's stock is refused; otherwise the line's
      quantity goes up by one, or a new line with quantity 1 copies the product's code, name and price. */
  function Scan(ps: seq<Product>, cart: seq<Line>, code: string): (r: Update<seq<Line>>)
    ensures r.outcome.Fail? ==> r.next == cart
    ensures code == [] ==> r.outcome == Fail(NoInput)
    ensures code != [] && FindIndex(ps, code).None? ==> r.outcome == Fail(UnknownCode)
    ensures r.outcome == Ok <==>
              code != [] && FindIndex(ps, code).Some? && QtyOf(cart, code) < ps[FindIndex(ps, code).value].stock
    ensures r.outcome == Ok && LineIndex(cart, code).None? ==>
              var p := ps[FindIndex(ps, code).value];
              r.next == cart + [Line(code, p.name, p.price, 1)]
    ensures r.outcome == Ok && LineIndex(cart, code).Some? ==>
              var j := LineIndex(cart, code).value;
              |r.next| == |cart| && r.next[j] == cart[j].(qty := cart[j].qty + 1) &&
              forall k :: 0 <= k < |cart| && k != j ==> r.next[k] == cart[k]
  {
    if code == [] then Update(Fail(NoInput), cart)
    else match FindIndex(ps, code)
      case None => Update(Fail(UnknownCode), cart)
      case Some(i) =>
        if ps[i].stock <= QtyOf(cart, code) then Update(Fail(InsufficientStock), cart)
        else match LineIndex(cart, code)
          case Some(j) => Update(Ok, cart[j := cart[j].(qty := cart[j].qty + 1)])
          case None => Update(Ok, cart + [Line(ps[i].code, ps[i].name, ps[i].price, 1)])
  }

  /** An accepted scan puts exactly one more unit of the scanned code in the cart, never more than
      the stock, leaves every other code's quantity alone, and keeps the keys unique. */
  lemma {:induction false} ScanCounts(ps: seq<Product>, cart: seq<Line>, code: string)
    requires Scan(ps, cart, code).outcome == Ok
    ensures var r := Scan(ps, cart, code).next;
            QtyOf(r, code) == QtyOf(cart, code) + 1 &&
            QtyOf(r, code) <= ps[FindIndex(ps, code).value].stock &&
            forall c :: c != code ==> QtyOf(r, c) == QtyOf(cart, c)
    ensures UniqueKeys(cart) ==> UniqueKeys(Scan(ps, cart, code).next)
  {
    var r := Scan(ps, cart, code).next;
    match LineIndex(cart, code)
    case None =>
      var p := ps[FindIndex(ps, code).value];
      LineIndexAppend(cart, Line(code, p.name, p.price, 1), code);
      forall c | c != code ensures QtyOf(r, c) == QtyOf(cart, c) {
        LineIndexAppend(cart, Line(code, p.name, p.price, 1), c);
      }
    case Some(j) =>
      forall c ensures LineIndex(r, c) == LineIndex(cart, c) {
        LineIndexSameKeys(r, cart, c);
      }
  }

  /** An accepted scan adds one unit price to the cart total: the price copied into the existing
      line, or the product's current price for a new line. */
  lemma {:induction false} ScanTotal(ps: seq<Product>, cart: seq<Line>, code: string)
    requires Scan(ps, cart, code).outcome == Ok
    ensures Total(Scan(ps, cart, code).next) == Total(cart) +
              match LineIndex(cart, code)
              case Some(j) => cart[j].price
              case None => ps[FindIndex(ps, code).value].price
  {
    var p := ps[FindIndex(ps, code).value];
    match LineIndex(cart, code)
    case None =>
      TotalAppend(cart, [Line(code, p.name, p.price, 1)]);
      assert Total([Line(code, p.name, p.price, 1)]) == p.price;
    case Some(j) =>
      TotalBump(cart, j);
  }

  /** Every line fits the live stock of the product it was scanned from (a line whose product is
      gone is skipped at checkout and so fits trivially). */
  predicate Fits(ps: seq<Product>, l: Line) {
    match FindIndex(ps, l.code)
    case None => true
    case Some(i) => l.qty <= ps[i].stock
  }

  predicate FitsStock(ps: seq<Product>, cart: seq<Line>) {
    forall k :: 0 <= k < |cart| ==> Fits(ps, cart[k])
  }

  /** Scanning keeps every line within the stock. */
  lemma {:induction false} ScanKeepsFit(ps: seq<Product>, cart: seq<Line>, code: string)
    requires UniqueKeys(cart) && FitsStock(ps, cart)
    ensures FitsStock(ps, Scan(ps, cart, code).next)
  {
    var r := Scan(ps, cart, code);
    if r.outcome == Ok {
      ScanCounts(ps, cart, code);
      forall k | 0 <= k < |r.next| ensures Fits(ps, r.next[k]) {
        if r.next[k].code == code {
          LineIndexUnique(r.next, k);
        } else if k < |cart| {
          assert r.next[k] == cart[k];
        }
      }
    }
  }

  function Unkeyed(code: string): Line -> bool {
    (l: Line) => l.code != code
  }

  /** The cart's delete button: `delete db.cart[code]`. The other lines keep their order. */
  function RemoveLine(cart: seq<Line>, code: string): (r: seq<Line>)
    ensures LineIndex(r, code).None?
    ensures forall j :: 0 <= j < |r| ==> r[j] in cart
    ensures forall j :: 0 <= j < |cart| && cart[j].code != code ==> cart[j] in r
  {
    FilterMembers(Unkeyed(code), cart);
    Filter(Unkeyed(code), cart)
  }

  /** Removing a key that is not there is a no-op. */
  lemma {:induction false} RemoveAbsentLine(cart: seq<Line>, code: string)
    requires LineIndex(cart, code).None?
    ensures RemoveLine(cart, code) == cart
  {
    FilterKeepsAll(Unkeyed(code), cart);
  }

  /** Removing a line twice is removing it once. */
  lemma {:induction false} RemoveLineIdempotent(cart: seq<Line>, code: string)
    ensures RemoveLine(RemoveLine(cart, code), code) == RemoveLine(cart, code)
  {
    FilterIdempotent(Unkeyed(code), cart);
  }

  /** In a cart with unique keys, removing the key of line j drops exactly that line. */
  lemma {:induction false} RemoveLineAt(cart: seq<Line>, j: nat)
    requires UniqueKeys(cart) && j < |cart|
    ensures RemoveLine(cart, cart[j].code) == cart[..j] + cart[j + 1..]
  {
    var keep := Unkeyed(cart[j].code);
    var a, b := cart[..j], cart[j + 1..];
    assert cart == a + ([cart[j]] + b);
    forall k | 0 <= k < |a| ensures keep(a[k]) {
      assert a[k] == cart[k];
    }
    forall k | 0 <= k < |b| ensures keep(b[k]) {
      assert b[k] == cart[j + 1 + k];
    }
    FilterDropOne(keep, a, cart[j], b);
  }

  lemma {:induction false} FilterKeepsUniqueKeys(keep: Line -> bool, cart: seq<Line>)
    requires UniqueKeys(cart)
    ensures UniqueKeys(Filter(keep, cart))
  {
    if cart != [] {
      FilterKeepsUniqueKeys(keep, cart[1..]);
      FilterMembers(keep, cart[1..]);
      var rest := Filter(keep, cart[1..]);
      forall j | 0 <= j < |rest| ensures rest[j].code != cart[0].code {
        var k :| 0 <= k < |cart[1..]| && cart[1..][k] == rest[j];
        assert cart[k + 1] == rest[j];
      }
    }
  }

  /** In a cart with unique keys, the quantity under a key is that of the line holding it. */
  lemma {:induction false} QtyOfLine(cart: seq<Line>, l: Line)
    requires UniqueKeys(cart) && l in cart
    ensures QtyOf(cart, l.code) == l.qty
  {
    var j :| 0 <= j < |cart| && cart[j] == l;
    LineIndexUnique(cart, j);
  }

  /** Removing one key keeps the cart's keys unique and every other key's quantity. */
  lemma {:induction false} RemoveLineKeepsOthers(cart: seq<Line>, code: string)
    requires UniqueKeys(cart)
    ensures UniqueKeys(RemoveLine(cart, code))
    ensures QtyOf(RemoveLine(cart, code), code) == 0
    ensures forall c :: c != code ==> QtyOf(RemoveLine(cart, code), c) == QtyOf(cart, c)
  {
    var r := RemoveLine(cart, code);
    FilterKeepsUniqueKeys(Unkeyed(code), cart);
    forall c | c != code ensures QtyOf(r, c) == QtyOf(cart, c) {
      match LineIndex(cart, c)
      case None =>
      case Some(j) =>
        QtyOfLine(r, cart[j]);
    }
  }
}
