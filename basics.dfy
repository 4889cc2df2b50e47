/** Shared vocabulary of the till engine: command outcomes and sequence helpers. */
module Basics {

  datatype Option<T> = None | Some(value: T)

  /** Why a command left the state as it found it. */
  datatype Reason =
    | InvalidInput       // empty code or name, or a price that is not positive
    | DuplicateCode      // insert of a code the catalog already holds
    | UnknownCode        // no product carries the code
    | BadQuantity        // a stock movement of zero or fewer units
    | InsufficientStock  // an issue or a scan beyond the available stock
    | NoInput            // a blank scan
    | EmptyCart          // checkout of an empty cart
    | NotConfirmed       // the operator dismissed the confirmation dialog
    | StoreFailure       // the persistence call reported an error

  datatype Outcome = Ok | Fail(reason: Reason)

  /** The outcome of a command together with the state it leaves behind. */
  datatype Update<S> = Update(outcome: Outcome, next: S)

  /** `Array.prototype.filter`: the elements that satisfy `keep`, in their original order. */
  function Filter<T>(keep: T -> bool, s: seq<T>): (r: seq<T>)
    ensures |r| <= |s|
  {
    if s == [] then [] else (if keep(s[0]) then [s[0]] else []) + Filter(keep, s[1..])
  }

  /** What `Filter` keeps: exactly the elements that satisfy `keep`. */
  lemma {:induction false} FilterMembers<T>(keep: T -> bool, s: seq<T>)
    ensures forall i :: 0 <= i < |Filter(keep, s)| ==> Filter(keep, s)[i] in s && keep(Filter(keep, s)[i])
    ensures forall i :: 0 <= i < |s| && keep(s[i]) ==> s[i] in Filter(keep, s)
  {
    if s != [] {
      FilterMembers(keep, s[1..]);
      var r, rest := Filter(keep, s), Filter(keep, s[1..]);
      assert r == (if keep(s[0]) then [s[0]] else []) + rest;
      forall i | 0 <= i < |r| ensures r[i] in s && keep(r[i]) {
        if !keep(s[0]) || i > 0 {
          var k := if keep(s[0]) then i - 1 else i;
          assert r[i] == rest[k];
        }
      }
      forall i | 0 <= i < |s| && keep(s[i]) ensures s[i] in r {
        if i > 0 {
          assert s[i] == s[1..][i - 1];
        }
      }
    }
  }

  /** Filtering commutes with concatenation: the relative order of the kept elements is preserved. */
  lemma {:induction false} FilterAppend<T>(keep: T -> bool, a: seq<T>, b: seq<T>)
    ensures Filter(keep, a + b) == Filter(keep, a) + Filter(keep, b)
  {
    if a == [] {
      assert a + b == b;
    } else {
      var ab := a + b;
      assert ab != [] && ab[0] == a[0] && ab[1..] == a[1..] + b;
      var head := if keep(a[0]) then [a[0]] else [];
      FilterAppend(keep, a[1..], b);
      calc {
        Filter(keep, ab);
        head + Filter(keep, a[1..] + b);
        head + (Filter(keep, a[1..]) + Filter(keep, b));
        (head + Filter(keep, a[1..])) + Filter(keep, b);
        Filter(keep, a) + Filter(keep, b);
      }
    }
  }

  /** A filter that every element passes returns its input. */
  lemma {:induction false} FilterKeepsAll<T>(keep: T -> bool, s: seq<T>)
    requires forall i :: 0 <= i < |s| ==> keep(s[i])
    ensures Filter(keep, s) == s
  {
    if s != [] {
      assert forall i :: 0 <= i < |s[1..]| ==> s[1..][i] == s[i + 1];
      FilterKeepsAll(keep, s[1..]);
    }
  }

  /** Filtering out a single rejected element between kept ones closes the gap. */
  lemma {:induction false} FilterDropOne<T>(keep: T -> bool, a: seq<T>, x: T, b: seq<T>)
    requires forall k :: 0 <= k < |a| ==> keep(a[k])
    requires forall k :: 0 <= k < |b| ==> keep(b[k])
    requires !keep(x)
    ensures Filter(keep, a + ([x] + b)) == a + b
  {
    FilterKeepsAll(keep, a);
    FilterKeepsAll(keep, b);
    var xb := [x] + b;
    assert xb[0] == x && xb[1..] == b;
    assert Filter(keep, xb) == b;
    FilterAppend(keep, a, xb);
  }

  /** Filters that agree on every element of `s` give the same result. */
  lemma {:induction false} FilterAgree<T>(f: T -> bool, g: T -> bool, s: seq<T>)
    requires forall i :: 0 <= i < |s| ==> f(s[i]) == g(s[i])
    ensures Filter(f, s) == Filter(g, s)
  {
    if s != [] {
      assert forall i :: 0 <= i < |s[1..]| ==> s[1..][i] == s[i + 1];
      FilterAgree(f, g, s[1..]);
    }
  }

  /** Filtering twice with the same predicate is filtering once. */
  lemma {:induction false} FilterIdempotent<T>(keep: T -> bool, s: seq<T>)
    ensures Filter(keep, Filter(keep, s)) == Filter(keep, s)
  {
    var r := Filter(keep, s);
    FilterMembers(keep, s);
    FilterKeepsAll(keep, r);
  }
}
