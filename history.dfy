/** The transaction history's date-range filter (`#filterTx`). */
module History {
  import opened Basics
  import opened Sales
  import opened Dashboard

  /** JavaScript's `a <= b` on strings: `a` is a prefix of `b`, or is smaller at the first
      position where they differ. */
  predicate LexLe(a: string, b: string)
    decreases |a|
  {
    a == [] || (b != [] && (if a[0] == b[0] then LexLe(a[1..], b[1..]) else a[0] < b[0]))
  }

  lemma {:induction false} LexLeReflexive(a: string)
    ensures LexLe(a, a)
  {
    if a != [] {
      LexLeReflexive(a[1..]);
    }
  }

  lemma {:induction false} LexLeAntisymmetric(a: string, b: string)
    requires LexLe(a, b) && LexLe(b, a)
    ensures a == b
  {
    if a != [] && b != [] {
      LexLeAntisymmetric(a[1..], b[1..]);
      assert a == [a[0]] + a[1..] && b == [b[0]] + b[1..];
    }
  }

  lemma {:induction false} LexLeTransitive(a: string, b: string, c: string)
    requires LexLe(a, b) && LexLe(b, c)
    ensures LexLe(a, c)
  {
    if a != [] && a[0] == b[0] && b[0] == c[0] {
      LexLeTransitive(a[1..], b[1..], c[1..]);
    }
  }

  lemma {:induction false} LexLeTotal(a: string, b: string)
    ensures LexLe(a, b) || LexLe(b, a)
  {
    if a != [] && b != [] && a[0] == b[0] {
      LexLeTotal(a[1..], b[1..]);
    }
  }

  /** `t.date.slice(0, 10)`: the calendar day of an ISO timestamp. */
  function Day(date: string): (d: string)
    ensures |d| == if |date| < 10 then |date| else 10
    ensures d == date[..|d|]
  {
    if |date| < 10 then date else date[..10]
  }

  function Between(from: string, to: string): Transaction -> bool {
    (t: Transaction) => LexLe(from, Day(t.date)) && LexLe(Day(t.date), to)
  }

  /** The filter button: with either bound left empty the whole log is shown; otherwise the
      transactions whose day lies between the bounds, both inclusive, in log order. */
  function DateRange(txs: seq<Transaction>, from: string, to: string): (r: seq<Transaction>)
    ensures from == [] || to == [] ==> r == txs
    ensures from != [] && to != [] ==>
              (forall j :: 0 <= j < |r| ==> r[j] in txs && LexLe(from, Day(r[j].date)) && LexLe(Day(r[j].date), to)) &&
              (forall j :: 0 <= j < |txs| && LexLe(from, Day(txs[j].date)) && LexLe(Day(txs[j].date), to) ==> txs[j] in r)
  {
    if from == [] || to == [] then txs
    else FilterMembers(Between(from, to), txs); Filter(Between(from, to), txs)
  }

  /** The range filter keeps log order: filtering a longer log extends the filtered shorter one. */
  lemma {:induction false} DateRangeAppend(a: seq<Transaction>, b: seq<Transaction>, from: string, to: string)
    ensures DateRange(a + b, from, to) == DateRange(a, from, to) + DateRange(b, from, to)
  {
    if from != [] && to != [] {
      FilterAppend(Between(from, to), a, b);
    }
  }

  /** Widening the range never loses a transaction. */
  lemma {:induction false} DateRangeWiden(txs: seq<Transaction>, from: string, to: string, from': string, to': string)
    requires from != [] && to != []
    requires LexLe(from', from) && LexLe(to, to')
    ensures forall j :: 0 <= j < |DateRange(txs, from, to)| ==> DateRange(txs, from, to)[j] in DateRange(txs, from', to')
  {
    var r := DateRange(txs, from, to);
    forall j | 0 <= j < |r| ensures r[j] in DateRange(txs, from', to') {
      var d := Day(r[j].date);
      LexLeTransitive(from', from, d);
      LexLeTransitive(d, to, to');
      var k :| 0 <= k < |txs| && txs[k] == r[j];
      if from' == [] || to' == [] {
      } else {
        assert txs[k] in DateRange(txs, from', to');
      }
    }
  }

  /** For a full `YYYY-MM-DD` day, the dashboard's "today" is the one-day range from that day to itself. */
  lemma {:induction false} TodayIsOneDayRange(txs: seq<Transaction>, today: string)
    requires |today| == 10
    ensures TodayTxs(txs, today) == DateRange(txs, today, today)
  {
    forall j | 0 <= j < |txs| ensures OnDay(today)(txs[j]) == Between(today, today)(txs[j]) {
      var d := Day(txs[j].date);
      if LexLe(today, d) && LexLe(d, today) {
        LexLeAntisymmetric(today, d);
      }
      if StartsWith(txs[j].date, today) {
        assert d == today;
        LexLeReflexive(today);
      }
    }
    FilterAgree(OnDay(today), Between(today, today), txs);
  }
}
