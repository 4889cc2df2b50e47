/** The stock ledger: receiving (IN) and issuing (OUT) units of a catalog product (`handleStockUpdate`). */
module Ledger {
  import opened Basics
  import opened Catalog

  datatype Direction = In | Out

  /** The stock after a movement of `qty` units. */
  function Moved(stock: int, qty: int, dir: Direction): int {
    if dir == In then stock + qty else stock - qty
  }

  /** One stock movement. The product is looked up first, then the quantity is checked, then an
      issue beyond the stock is refused; only after the store update succeeds (`stored`) does the
      in-memory stock change. */
  function Move(ps: seq<Product>, code: string, qty: int, dir: Direction, stored: bool): (r: Update<seq<Product>>)
    ensures r.outcome.Fail? ==> r.next == ps
    ensures FindIndex(ps, code).None? ==> r.outcome == Fail(UnknownCode)
    ensures FindIndex(ps, code).Some? && qty <= 0 ==> r.outcome == Fail(BadQuantity)
    ensures r.outcome == Fail(InsufficientStock) <==>
              FindIndex(ps, code).Some? && qty > 0 && dir == Out && ps[FindIndex(ps, code).value].stock < qty
    ensures r.outcome == Ok <==>
              FindIndex(ps, code).Some? && qty > 0 && stored &&
              (dir == Out ==> ps[FindIndex(ps, code).value].stock >= qty)
    ensures r.outcome == Ok ==>
              var i := FindIndex(ps, code).value;
              SameCodes(ps, r.next) &&
              r.next[i].stock == Moved(ps[i].stock, qty, dir) &&
              r.next[i].name == ps[i].name && r.next[i].price == ps[i].price &&
              forall j :: 0 <= j < |ps| && j != i ==> r.next[j] == ps[j]
  {
    match FindIndex(ps, code)
    case None => Update(Fail(UnknownCode), ps)
    case Some(i) =>
      if qty <= 0 then Update(Fail(BadQuantity), ps)
      else if dir == Out && ps[i].stock < qty then Update(Fail(InsufficientStock), ps)
      else if !stored then Update(Fail(StoreFailure), ps)
      else Update(Ok, ps[i := ps[i].(stock := Moved(ps[i].stock, qty, dir))])
  }

  /** A movement never makes a stock negative that was not negative before. */
  lemma {:induction false} MoveKeepsNonNegative(ps: seq<Product>, code: string, qty: int, dir: Direction, stored: bool)
    requires NonNegative(ps)
    ensures NonNegative(Move(ps, code, qty, dir, stored).next)
  {
  }

  /** An accepted IN adds `qty` to the total stock; an accepted OUT takes `qty` away. */
  lemma {:induction false} MoveTotalStock(ps: seq<Product>, code: string, qty: int, dir: Direction, stored: bool)
    requires Move(ps, code, qty, dir, stored).outcome == Ok
    ensures TotalStock(Move(ps, code, qty, dir, stored).next) ==
            TotalStock(ps) + (if dir == In then qty else -qty)
  {
    var i := FindIndex(ps, code).value;
    TotalStockSet(ps, i, Moved(ps[i].stock, qty, dir));
  }

  /** A movement as the operator submits it, with the store's answer. */
  datatype Movement = Movement(code: string, qty: int, dir: Direction, stored: bool)

  /** The catalog after a series of movements, each applied to the result of the previous one. */
  function Replay(ps: seq<Product>, ms: seq<Movement>): seq<Product>
    decreases |ms|
  {
    if ms == [] then ps
    else Replay(Move(ps, ms[0].code, ms[0].qty, ms[0].dir, ms[0].stored).next, ms[1..])
  }

  /** No series of receipts and issues drives a stock below zero. */
  lemma {:induction false} ReplayKeepsNonNegative(ps: seq<Product>, ms: seq<Movement>)
    requires NonNegative(ps)
    ensures NonNegative(Replay(ps, ms))
    decreases |ms|
  {
    if ms != [] {
      MoveKeepsNonNegative(ps, ms[0].code, ms[0].qty, ms[0].dir, ms[0].stored);
      ReplayKeepsNonNegative(Move(ps, ms[0].code, ms[0].qty, ms[0].dir, ms[0].stored).next, ms[1..]);
    }
  }

  /** Movements never add, remove or reorder products. */
  lemma {:induction false} ReplayKeepsCodes(ps: seq<Product>, ms: seq<Movement>)
    ensures SameCodes(ps, Replay(ps, ms))
    decreases |ms|
  {
    if ms != [] {
      var next := Move(ps, ms[0].code, ms[0].qty, ms[0].dir, ms[0].stored).next;
      ReplayKeepsCodes(next, ms[1..]);
    }
  }
}
