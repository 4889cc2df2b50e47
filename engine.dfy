/** The engine as the event handlers run it: one in-memory database (`db`) whose catalog, log and
    cart the handlers update in place. Saving, deleting, moving stock and paying change `db` only
    after the store has accepted the change; scanning and removing a cart line never call the store. */
module Engine {
  import opened Basics
  import opened Catalog
  import opened Ledger
  import opened Cart
  import opened Sales

  class Till {
    var products: seq<Product>
    var transactions: seq<Transaction>
    var cart: seq<Line>

    /** The database as a value, for stating each handler against its specification function. */
    function State(): Db
      reads this
    {
      Db(products, transactions, cart)
    }

    /** What every handler preserves: product codes and cart keys are unique and every logged
        transaction's total is the sum over its items. */
    ghost predicate Valid()
      reads this
    {
      UniqueCodes(products) && UniqueKeys(cart) &&
      forall k :: 0 <= k < |transactions| ==> Consistent(transactions[k])
    }

    /** `let db = { products: [], transactions: [], cart: {} }`. */
    constructor()
      ensures State() == Db([], [], [])
      ensures Valid()
    {
      products := [];
      transactions := [];
      cart := [];
    }

    /** The product form's submit handler. */
    method SaveProduct(editKey: string, code: string, name: string, price: int, stock: int, stored: bool)
      returns (outcome: Outcome)
      requires Valid()
      modifies this
      ensures Update(outcome, products) == Save(old(products), editKey, code, name, price, stock, stored)
      ensures transactions == old(transactions) && cart == old(cart)
      ensures Valid()
    {
      SaveKeepsUnique(products, editKey, code, name, price, stock, stored);
      if code == [] || name == [] || price <= 0 {
        return Fail(InvalidInput);
      }
      if editKey != [] {
        if !stored {
          return Fail(StoreFailure);
        }
        var k := FindIndex(products, editKey);
        if k.Some? {
          var i := k.value;
          products := products[i := products[i].(name := name, price := price, stock := stock)];
        }
      } else {
        if FindIndex(products, code).Some? {
          return Fail(DuplicateCode);
        }
        if !stored {
          return Fail(StoreFailure);
        }
        products := products + [Product(code, name, price, stock)];
      }
      outcome := Ok;
    }

    /** The delete button of the product table. */
    method DeleteProduct(code: string, confirmed: bool, stored: bool) returns (outcome: Outcome)
      requires Valid()
      modifies this
      ensures Update(outcome, products) == Delete(old(products), code, confirmed, stored)
      ensures transactions == old(transactions) && cart == old(cart)
      ensures Valid()
    {
      DeleteKeepsUnique(products, code, confirmed, stored);
      if !confirmed {
        return Fail(NotConfirmed);
      }
      if !stored {
        return Fail(StoreFailure);
      }
      products := Filter(Unlisted(code), products);
      outcome := Ok;
    }

    /** `handleStockUpdate(form, type)`. */
    method UpdateStock(code: string, qty: int, dir: Direction, stored: bool) returns (outcome: Outcome)
      requires Valid()
      modifies this
      ensures Update(outcome, products) == Move(old(products), code, qty, dir, stored)
      ensures transactions == old(transactions) && cart == old(cart)
      ensures Valid()
    {
      var k := FindIndex(products, code);
      if k.None? {
        return Fail(UnknownCode);
      }
      var i := k.value;
      if qty <= 0 {
        return Fail(BadQuantity);
      }
      var newStock: int;
      if dir == In {
        newStock := products[i].stock + qty;
      } else {
        if products[i].stock < qty {
          return Fail(InsufficientStock);
        }
        newStock := products[i].stock - qty;
      }
      if !stored {
        return Fail(StoreFailure);
      }
      products := products[i := products[i].(stock := newStock)];
      outcome := Ok;
    }

    /** The scan form's submit handler. */
    method ScanCode(code: string) returns (outcome: Outcome)
      requires Valid()
      modifies this
      ensures Update(outcome, cart) == Scan(old(products), old(cart), code)
      ensures products == old(products) && transactions == old(transactions)
      ensures Valid()
    {
      if code == [] {
        return Fail(NoInput);
      }
      var k := FindIndex(products, code);
      if k.None? {
        return Fail(UnknownCode);
      }
      var i := k.value;
      var j := LineIndex(cart, code);
      var have := if j.Some? then cart[j.value].qty else 0;
      if products[i].stock <= have {
        return Fail(InsufficientStock);
      }
      ScanCounts(products, cart, code);
      if j.Some? {
        cart := cart[j.value := cart[j.value].(qty := cart[j.value].qty + 1)];
      } else {
        cart := cart + [Line(products[i].code, products[i].name, products[i].price, 1)];
      }
      outcome := Ok;
    }

    /** The cart's delete button. */
    method RemoveCartLine(code: string)
      requires Valid()
      modifies this
      ensures cart == RemoveLine(old(cart), code)
      ensures products == old(products) && transactions == old(transactions)
      ensures Valid()
    {
      RemoveLineKeepsOthers(cart, code);
      cart := RemoveLine(cart, code);
    }

    /** The pay button. `writes` is the batch of stock updates sent with the transaction (empty when
        nothing is sent); only when the commit succeeds are the log, the stock and the cart updated. */
    method Pay(confirmed: bool, stamp: nat, date: string, committed: bool)
      returns (outcome: Outcome, writes: seq<StockWrite>)
      requires Valid()
      modifies this
      ensures Update(outcome, State()) == Checkout(old(State()), confirmed, stamp, date, committed)
      ensures writes == if old(cart) != [] && confirmed then Batch(old(products), old(cart)) else []
      ensures outcome == Ok ==> ApplyWrites(old(products), writes) == products
      ensures Valid()
    {
      writes := [];
      if cart == [] || !confirmed {
        return (if cart == [] then Fail(EmptyCart) else Fail(NotConfirmed)), writes;
      }
      var total := Total(cart);
      var tx := Transaction(TxId(stamp), date, cart, total);
      writes := BuildBatch(products, cart);
      if !committed {
        return Fail(StoreFailure), writes;
      }
      BatchMatchesSale(products, cart);
      ApplySaleKeepsCodes(products, cart);
      SameCodesUnique(products, ApplySale(products, cart));
      transactions := transactions + [tx];
      products := DeductSold(products, cart);
      cart := [];
      outcome := Ok;
    }
  }
}
