/** Decimal rendering of integers and the `rupiah` currency format of app.js. */
module Money {
  import opened Basics

  predicate IsDigit(c: char) { '0' <= c <= '9' }

  predicate AllDigits(s: string) { forall i :: 0 <= i < |s| ==> IsDigit(s[i]) }

  function DigitChar(d: int): (c: char)
    requires 0 <= d < 10
    ensures IsDigit(c)
  {
    ('0' as int + d) as char
  }

  function DigitValue(c: char): (d: nat)
    requires IsDigit(c)
    ensures d < 10
  {
    c as int - '0' as int
  }

  /** `n.toString()` for a non-negative integer: its decimal digits, without leading zeros. */
  function Digits(n: nat): (s: string)
    ensures |s| >= 1 && AllDigits(s)
    ensures s[0] == '0' ==> n == 0
    decreases n
  {
    if n < 10 then [DigitChar(n)] else Digits(n / 10) + [DigitChar(n % 10)]
  }

  /** The number a string of decimal digits denotes; the inverse of `Digits`. */
  function Value(s: string): nat
    requires AllDigits(s)
  {
    if s == [] then 0 else 10 * Value(s[..|s| - 1]) + DigitValue(s[|s| - 1])
  }

  lemma {:induction false} ValueOfDigits(n: nat)
    ensures Value(Digits(n)) == n
    decreases n
  {
    var s := Digits(n);
    if n >= 10 {
      ValueOfDigits(n / 10);
      assert s[..|s| - 1] == Digits(n / 10);
    }
  }

  /** Distinct numbers render to distinct digit strings. */
  lemma {:induction false} DigitsInjective(a: nat, b: nat)
    requires Digits(a) == Digits(b)
    ensures a == b
  {
    ValueOfDigits(a);
    ValueOfDigits(b);
  }

  /** The replacement of the regular expression `\B(?=(\d{3})+(?!\d))` by `.` on a run of
      digits: a dot between two digits wherever a positive multiple of three digits follows. */
  function Group(s: string): string
    decreases |s|
  {
    if |s| <= 3 then s else Group(s[..|s| - 3]) + "." + s[|s| - 3..]
  }

  /** Removing the separators again. */
  function Ungroup(s: string): string {
    if s == [] then [] else (if s[0] == '.' then [] else [s[0]]) + Ungroup(s[1..])
  }

  lemma {:induction false} UngroupAppend(a: string, b: string)
    ensures Ungroup(a + b) == Ungroup(a) + Ungroup(b)
  {
    if a == [] {
      assert a + b == b;
    } else {
      assert (a + b)[0] == a[0];
      assert (a + b)[1..] == a[1..] + b;
      UngroupAppend(a[1..], b);
    }
  }

  lemma {:induction false} UngroupDigits(s: string)
    requires AllDigits(s)
    ensures Ungroup(s) == s
  {
    if s != [] {
      assert IsDigit(s[0]);
      UngroupDigits(s[1..]);
    }
  }

  lemma {:induction false} UngroupGroup(s: string)
    requires AllDigits(s)
    ensures Ungroup(Group(s)) == s
    decreases |s|
  {
    if |s| <= 3 {
      UngroupDigits(s);
    } else {
      var head, tail := s[..|s| - 3], s[|s| - 3..];
      assert s == head + tail;
      UngroupGroup(head);
      UngroupDigits(tail);
      UngroupAppend(Group(head) + ".", tail);
      UngroupAppend(Group(head), ".");
    }
  }

  lemma {:induction false} GroupLength(s: string)
    requires |s| >= 1
    ensures |Group(s)| == |s| + (|s| - 1) / 3
    decreases |s|
  {
    if |s| > 3 {
      GroupLength(s[..|s| - 3]);
    }
  }

  /** One position of `Group(s)`: a dot exactly where the distance from the end is a positive
      multiple of four (and not at the front), a digit everywhere else. */
  lemma {:induction false} GroupAt(s: string, i: nat)
    requires AllDigits(s) && i < |Group(s)|
    ensures Group(s)[i] == '.' <==> i > 0 && (|Group(s)| - i) % 4 == 0
    ensures Group(s)[i] == '.' || IsDigit(Group(s)[i])
    decreases |s|
  {
    var r := Group(s);
    if |s| <= 3 {
      assert r == s;
      assert IsDigit(r[i]);
      assert 0 < i ==> 0 < |r| - i < 4;
    } else {
      var g, tail := Group(s[..|s| - 3]), s[|s| - 3..];
      assert r == g + "." + tail;
      assert |r| == |g| + 4;
      if i < |g| {
        GroupAt(s[..|s| - 3], i);
        assert r[i] == g[i];
        assert (|r| - i) % 4 == (|g| - i) % 4;
      } else if i > |g| {
        assert r[i] == tail[i - |g| - 1];
        assert IsDigit(tail[i - |g| - 1]);
        assert 0 < |r| - i < 4;
      } else {
        assert r[i] == '.';
        GroupLength(s[..|s| - 3]);
      }
    }
  }

  /** The layout of the whole grouped string. */
  lemma {:induction false} GroupLayout(s: string)
    requires AllDigits(s) && |s| >= 1
    ensures |Group(s)| == |s| + (|s| - 1) / 3
    ensures forall i :: 0 <= i < |Group(s)| ==>
              (Group(s)[i] == '.' <==> i > 0 && (|Group(s)| - i) % 4 == 0)
    ensures forall i :: 0 <= i < |Group(s)| ==> Group(s)[i] == '.' || IsDigit(Group(s)[i])
  {
    GroupLength(s);
    forall i | 0 <= i < |Group(s)|
      ensures Group(s)[i] == '.' <==> i > 0 && (|Group(s)| - i) % 4 == 0
      ensures Group(s)[i] == '.' || IsDigit(Group(s)[i])
    {
      GroupAt(s, i);
    }
  }

  lemma {:induction false} GroupStartsWithFirstDigit(s: string)
    requires |s| >= 1
    ensures |Group(s)| >= 1 && Group(s)[0] == s[0]
    decreases |s|
  {
    if |s| > 3 {
      GroupStartsWithFirstDigit(s[..|s| - 3]);
    }
  }

  /** `rupiah(n)`: "Rp " and the decimal digits of `n`, grouped by dots in threes. */
  function Rupiah(n: int): string
  {
    "Rp " + (if n < 0 then "-" else "") + Group(Digits(if n < 0 then -n else n))
  }

  /** Reads back an amount written by `Rupiah`. */
  function ParseRupiah(s: string): Option<int>
  {
    if |s| < 3 || s[..3] != "Rp " then None
    else
      var body := s[3..];
      var negative := |body| > 0 && body[0] == '-';
      var digits := Ungroup(if negative then body[1..] else body);
      if digits == [] || !AllDigits(digits) then None
      else
        var v: int := Value(digits);
        Some(if negative then -v else v)
  }

  /** Where the reader splits a rendered amount: the prefix, then the signed body. */
  lemma {:induction false} SplitRendered(sign: string, g: string)
    ensures ("Rp " + sign + g)[..3] == "Rp "
    ensures ("Rp " + sign + g)[3..] == sign + g
  {
  }

  /** The grouped digits, with the dots removed again, are the digits; they start with a digit. */
  lemma {:induction false} GroupedDigits(d: string)
    requires AllDigits(d) && |d| >= 1
    ensures |Group(d)| >= 1 && Group(d)[0] != '-'
    ensures Ungroup(Group(d)) == d
  {
    GroupStartsWithFirstDigit(d);
    assert IsDigit(d[0]);
    UngroupGroup(d);
  }

  /** Reading back a non-negative amount. */
  lemma {:induction false} ParseUnsigned(d: string)
    requires AllDigits(d) && |d| >= 1
    ensures ParseRupiah("Rp " + Group(d)) == Some(Value(d) as int)
  {
    var g := Group(d);
    GroupedDigits(d);
    SplitRendered("", g);
    assert "Rp " + "" + g == "Rp " + g;
    assert ("Rp " + g)[3..] == g;
  }

  /** Reading back a negative amount. */
  lemma {:induction false} ParseNegative(d: string)
    requires AllDigits(d) && |d| >= 1
    ensures ParseRupiah("Rp " + "-" + Group(d)) == Some(-(Value(d) as int))
  {
    var g := Group(d);
    GroupedDigits(d);
    SplitRendered("-", g);
    var body := ("Rp " + "-" + g)[3..];
    assert body == "-" + g;
    assert body[0] == '-' && body[1..] == g;
  }

  lemma {:induction false} RupiahRoundTrip(n: int)
    ensures ParseRupiah(Rupiah(n)) == Some(n)
  {
    var m: nat := if n < 0 then -n else n;
    ValueOfDigits(m);
    if n < 0 {
      ParseNegative(Digits(m));
    } else {
      ParseUnsigned(Digits(m));
      assert "Rp " + "" + Group(Digits(m)) == "Rp " + Group(Digits(m));
    }
  }
}
