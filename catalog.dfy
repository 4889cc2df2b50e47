/** The product catalog (`db.products`): saving, deleting, looking up and the stock views of the dashboard. */
module Catalog {
  import opened Basics

  /** A product record; `price` in the smallest currency unit. */
  datatype Product = Product(code: string, name: string, price: int, stock: int)

  /** `REORDER_LEVEL`: stock at or below which a product is listed for reordering. */
  const ReorderLevel: int := 5

  /** `db.products.find(p => p.code === code)`: the position of the first product with that code. */
  function FindIndex(ps: seq<Product>, code: string): (r: Option<nat>)
    ensures r.Some? ==> r.value < |ps| && ps[r.value].code == code
    ensures r.Some? ==> forall j :: 0 <= j < r.value ==> ps[j].code != code
    ensures r.None? <==> forall j :: 0 <= j < |ps| ==> ps[j].code != code
  {
    if ps == [] then None
    else if ps[0].code == code then Some(0)
    else match FindIndex(ps[1..], code)
      case None => None
      case Some(i) => Some(i + 1)
  }

  predicate UniqueCodes(ps: seq<Product>) {
    forall i, j :: 0 <= i < j < |ps| ==> ps[i].code != ps[j].code
  }

  predicate NonNegative(ps: seq<Product>) {
    forall j :: 0 <= j < |ps| ==> ps[j].stock >= 0
  }

  /** Two catalogs with the same codes position by position. */
  predicate SameCodes(ps: seq<Product>, qs: seq<Product>) {
    |ps| == |qs| && forall j :: 0 <= j < |ps| ==> ps[j].code == qs[j].code
  }

  lemma {:induction false} SameCodesUnique(ps: seq<Product>, qs: seq<Product>)
    requires SameCodes(ps, qs) && UniqueCodes(ps)
    ensures UniqueCodes(qs)
  {
    forall i, j | 0 <= i < j < |qs| ensures qs[i].code != qs[j].code {
      assert ps[i].code == qs[i].code && ps[j].code == qs[j].code;
    }
  }

  /** In a catalog without duplicate codes, a product is found at its own position. */
  lemma {:induction false} FindUnique(ps: seq<Product>, j: nat)
    requires UniqueCodes(ps) && j < |ps|
    ensures FindIndex(ps, ps[j].code) == Some(j)
  {
  }

  /** Lookup depends only on the codes. */
  lemma {:induction false} FindSameCodes(ps: seq<Product>, qs: seq<Product>, code: string)
    requires SameCodes(ps, qs)
    ensures FindIndex(ps, code) == FindIndex(qs, code)
  {
    if ps != [] {
      FindSameCodes(ps[1..], qs[1..], code);
    }
  }

  /** The form check of app.js:257: code and name present, price positive (the stock is not checked). */
  predicate ValidEntry(code: string, name: string, price: int) {
    code != [] && name != [] && price > 0
  }

  /** The product form's submit handler. `editKey` is the hidden edit field: empty for a new product,
      otherwise the code of the product being edited. `stored` is whether the store write succeeded. */
  function Save(ps: seq<Product>, editKey: string, code: string, name: string, price: int, stock: int,
                stored: bool): (r: Update<seq<Product>>)
    ensures r.outcome == Fail(InvalidInput) <==> !ValidEntry(code, name, price)
    ensures r.outcome.Fail? ==> r.next == ps
    ensures r.outcome == Fail(DuplicateCode) <==>
              ValidEntry(code, name, price) && editKey == [] && FindIndex(ps, code).Some?
    ensures r.outcome == Ok <==>
              ValidEntry(code, name, price) && stored && (editKey != [] || FindIndex(ps, code).None?)
    ensures r.outcome == Ok && editKey == [] ==> r.next == ps + [Product(code, name, price, stock)]
    ensures r.outcome == Ok && editKey != [] ==> SameCodes(ps, r.next)
  {
    if !ValidEntry(code, name, price) then Update(Fail(InvalidInput), ps)
    else if editKey != [] then
      if !stored then Update(Fail(StoreFailure), ps)
      else match FindIndex(ps, editKey)
        case None => Update(Ok, ps)
        case Some(i) => Update(Ok, ps[i := ps[i].(name := name, price := price, stock := stock)])
    else if FindIndex(ps, code).Some? then Update(Fail(DuplicateCode), ps)
    else if !stored then Update(Fail(StoreFailure), ps)
    else Update(Ok, ps + [Product(code, name, price, stock)])
  }

  /** An accepted edit overwrites name, price and stock of the product with the edited code,
      keeps its code, and leaves every other product as it was. */
  lemma {:induction false} SaveEdit(ps: seq<Product>, editKey: string, code: string, name: string, price: int, stock: int)
    requires UniqueCodes(ps) && editKey != []
    requires Save(ps, editKey, code, name, price, stock, true).outcome == Ok
    ensures var r := Save(ps, editKey, code, name, price, stock, true).next;
            |r| == |ps| &&
            forall j :: 0 <= j < |ps| ==>
              r[j] == (if ps[j].code == editKey then Product(editKey, name, price, stock) else ps[j])
  {
    var r := Save(ps, editKey, code, name, price, stock, true).next;
    forall j | 0 <= j < |ps|
      ensures r[j] == (if ps[j].code == editKey then Product(editKey, name, price, stock) else ps[j])
    {
      if ps[j].code == editKey {
        FindUnique(ps, j);
      }
    }
  }

  /** Saving never introduces a duplicate code. */
  lemma {:induction false} SaveKeepsUnique(ps: seq<Product>, editKey: string, code: string, name: string, price: int, stock: int,
                        stored: bool)
    requires UniqueCodes(ps)
    ensures UniqueCodes(Save(ps, editKey, code, name, price, stock, stored).next)
  {
  }

  function Unlisted(code: string): Product -> bool {
    (p: Product) => p.code != code
  }

  /** The delete button: after the confirmation and the store delete, `db.products.filter(x => x.code !== code)`.
      A code the catalog does not hold is not an error. */
  function Delete(ps: seq<Product>, code: string, confirmed: bool, stored: bool): (r: Update<seq<Product>>)
    ensures r.outcome == Ok <==> confirmed && stored
    ensures !confirmed ==> r.outcome == Fail(NotConfirmed)
    ensures r.outcome.Fail? ==> r.next == ps
    ensures r.outcome == Ok ==> forall j :: 0 <= j < |r.next| ==> r.next[j] in ps && r.next[j].code != code
    ensures r.outcome == Ok ==> forall j :: 0 <= j < |ps| && ps[j].code != code ==> ps[j] in r.next
  {
    if !confirmed then Update(Fail(NotConfirmed), ps)
    else if !stored then Update(Fail(StoreFailure), ps)
    else FilterMembers(Unlisted(code), ps); Update(Ok, Filter(Unlisted(code), ps))
  }

  /** Deleting the product at position `i` of a duplicate-free catalog closes the gap and keeps the order. */
  lemma {:induction false} DeleteAt(ps: seq<Product>, i: nat)
    requires UniqueCodes(ps) && i < |ps|
    ensures Delete(ps, ps[i].code, true, true).next == ps[..i] + ps[i + 1..]
  {
    var keep := Unlisted(ps[i].code);
    var a, b := ps[..i], ps[i + 1..];
    assert ps == a + ([ps[i]] + b);
    forall k | 0 <= k < |a| ensures keep(a[k]) {
      assert a[k] == ps[k];
    }
    forall k | 0 <= k < |b| ensures keep(b[k]) {
      assert b[k] == ps[i + 1 + k];
    }
    FilterDropOne(keep, a, ps[i], b);
  }

  /** Deleting a code the catalog does not hold changes nothing. */
  lemma {:induction false} DeleteAbsent(ps: seq<Product>, code: string)
    requires FindIndex(ps, code).None?
    ensures Delete(ps, code, true, true).next == ps
  {
    FilterKeepsAll(Unlisted(code), ps);
  }

  lemma {:induction false} FilterKeepsUnique(keep: Product -> bool, ps: seq<Product>)
    requires UniqueCodes(ps)
    ensures UniqueCodes(Filter(keep, ps))
  {
    if ps != [] {
      FilterKeepsUnique(keep, ps[1..]);
      FilterMembers(keep, ps[1..]);
      var rest := Filter(keep, ps[1..]);
      forall j | 0 <= j < |rest| ensures rest[j].code != ps[0].code {
        var k :| 0 <= k < |ps[1..]| && ps[1..][k] == rest[j];
        assert ps[k + 1] == rest[j];
      }
    }
  }

  lemma {:induction false} DeleteKeepsUnique(ps: seq<Product>, code: string, confirmed: bool, stored: bool)
    requires UniqueCodes(ps)
    ensures UniqueCodes(Delete(ps, code, confirmed, stored).next)
  {
    FilterKeepsUnique(Unlisted(code), ps);
  }

  predicate NeedsReorder(p: Product) { p.stock <= ReorderLevel }

  /** `db.products.filter(p => p.stock <= REORDER_LEVEL)`. */
  function ReorderList(ps: seq<Product>): (r: seq<Product>)
    ensures forall j :: 0 <= j < |r| ==> r[j] in ps && r[j].stock <= ReorderLevel
    ensures forall j :: 0 <= j < |ps| && ps[j].stock <= ReorderLevel ==> ps[j] in r
  {
    FilterMembers(NeedsReorder, ps);
    Filter(NeedsReorder, ps)
  }

  /** The reorder list keeps catalog order: the list of a concatenation is the concatenation of the lists. */
  lemma {:induction false} ReorderListAppend(a: seq<Product>, b: seq<Product>)
    ensures ReorderList(a + b) == ReorderList(a) + ReorderList(b)
  {
    FilterAppend(NeedsReorder, a, b);
  }

  /** The dashboard's total stock: the sum of all stock fields. */
  function TotalStock(ps: seq<Product>): int {
    if ps == [] then 0 else ps[0].stock + TotalStock(ps[1..])
  }

  /** Setting one product's stock moves the total by the difference. */
  lemma {:induction false} TotalStockSet(ps: seq<Product>, i: nat, s: int)
    requires i < |ps|
    ensures TotalStock(ps[i := ps[i].(stock := s)]) == TotalStock(ps) - ps[i].stock + s
  {
    var qs := ps[i := ps[i].(stock := s)];
    if i == 0 {
      assert qs[1..] == ps[1..];
    } else {
      assert qs[1..] == ps[1..][i - 1 := ps[i].(stock := s)];
      TotalStockSet(ps[1..], i - 1, s);
    }
  }
}
