/** Amounts in integer cents and their Brazilian rendering, as produced by
    `number_format($amount, 2, ',', '.')`: a '.' between groups of three
    integer digits, a ',' before the two decimals. */
module Money {

  predicate IsDigit(c: char) {
    '0' <= c <= '9'
  }

  function DigitChar(d: nat): (c: char)
    requires d < 10
    ensures IsDigit(c)
  {
    ('0' as int + d) as char
  }

  /** Every character of `s` is a decimal digit. */
  predicate AllDigits(s: string) {
    forall i :: 0 <= i < |s| ==> IsDigit(s[i])
  }

  function DigitValue(c: char): int {
    c as int - '0' as int
  }

  /** Decimal digits of `n`, most significant first, no leading zeros. */
  function Digits(n: nat): string
    decreases n
  {
    if n < 10 then [DigitChar(n)] else Digits(n / 10) + [DigitChar(n % 10)]
  }

  /** Inserts the thousands separator '.' between groups of three digits,
      counted from the right. */
  function Group(s: string): string
    decreases |s|
  {
    if |s| <= 3 then s else Group(s[..|s| - 3]) + "." + s[|s| - 3..]
  }

  function TwoDigits(n: nat): string
    requires n < 100
  {
    [DigitChar(n / 10), DigitChar(n % 10)]
  }

  /** A non-negative amount of `a` cents: grouped units, ',' and two decimals. */
  function UnsignedFormat(a: nat): string {
    Group(Digits(a / 100)) + "," + TwoDigits(a % 100)
  }

  /** `number_format(cents / 100, 2, ',', '.')`. */
  function Format(cents: int): string {
    if cents < 0 then "-" + UnsignedFormat(-cents) else UnsignedFormat(cents)
  }

  // Reading a formatted amount back

  function NumberValue(s: string): int
    decreases |s|
  {
    if s == [] then 0 else NumberValue(s[..|s| - 1]) * 10 + DigitValue(s[|s| - 1])
  }

  function WithoutDots(s: string): string
    decreases |s|
  {
    if s == [] then []
    else WithoutDots(s[..|s| - 1]) + (if s[|s| - 1] == '.' then [] else [s[|s| - 1]])
  }

  /** Reads an amount written as `d.ddd,dd` back into cents. */
  function UnsignedParse(body: string): int {
    if |body| < 3 then 0
    else NumberValue(WithoutDots(body[..|body| - 3])) * 100 + NumberValue(body[|body| - 2..])
  }

  /** Reads an amount written as `[-]d.ddd,dd` back into cents. */
  function Parse(s: string): int {
    if |s| > 0 && s[0] == '-' then -UnsignedParse(s[1..]) else UnsignedParse(s)
  }

  lemma {:induction false} DigitsFacts(n: nat)
    ensures |Digits(n)| > 0
    ensures AllDigits(Digits(n))
    ensures NumberValue(Digits(n)) == n
    decreases n
  {
    if n >= 10 {
      DigitsFacts(n / 10);
      var s := Digits(n);
      assert s[..|s| - 1] == Digits(n / 10);
    }
  }

  lemma {:induction false} WithoutDotsAppend(a: string, b: string)
    ensures WithoutDots(a + b) == WithoutDots(a) + WithoutDots(b)
    decreases |b|
  {
    if b == [] {
      assert a + b == a;
    } else {
      var b' := b[..|b| - 1];
      assert (a + b)[..|a + b| - 1] == a + b';
      WithoutDotsAppend(a, b');
    }
  }

  lemma {:induction false} WithoutDotsNoDots(s: string)
    requires AllDigits(s)
    ensures WithoutDots(s) == s
    decreases |s|
  {
    if s != [] {
      var init := s[..|s| - 1];
      assert AllDigits(init) by {
        forall i | 0 <= i < |init| ensures IsDigit(init[i]) {
          assert init[i] == s[i];
        }
      }
      WithoutDotsNoDots(init);
      assert s[|s| - 1] != '.' by {
        assert IsDigit(s[|s| - 1]);
      }
    }
  }

  /** Grouping only inserts separators: removing them gives the digits back,
      and the first character is kept. */
  lemma {:induction false} GroupFacts(s: string)
    requires |s| > 0 && AllDigits(s)
    ensures WithoutDots(Group(s)) == s
    ensures |Group(s)| > 0 && Group(s)[0] == s[0]
    decreases |s|
  {
    if |s| <= 3 {
      WithoutDotsNoDots(s);
    } else {
      var hi, lo := s[..|s| - 3], s[|s| - 3..];
      assert AllDigits(hi) by {
        forall i | 0 <= i < |hi| ensures IsDigit(hi[i]) {
          assert hi[i] == s[i];
        }
      }
      assert AllDigits(lo) by {
        forall i | 0 <= i < |lo| ensures IsDigit(lo[i]) {
          assert lo[i] == s[|s| - 3 + i];
        }
      }
      GroupFacts(hi);
      var g := Group(hi);
      assert Group(s) == g + "." + lo;
      WithoutDotsAppend(g + ".", lo);
      WithoutDotsAppend(g, ".");
      WithoutDotsNoDots(lo);
      assert WithoutDots(".") == [] by {
        assert "."[..0] == [];
      }
      assert WithoutDots(Group(s)) == hi + lo;
      assert hi + lo == s;
      assert Group(s)[0] == g[0];
    }
  }

  /** `g` is digit groups joined by '.': counted from the right, every
      fourth character is the separator and all others are digits, so the
      groups after the first hold three digits and the first holds one to
      three. */
  predicate ThousandsLayout(g: string) {
    |g| % 4 != 0
    && forall i :: 0 <= i < |g| ==> (g[i] == '.' <==> (|g| - i) % 4 == 0) && (g[i] != '.' ==> IsDigit(g[i]))
  }

  /** Appending '.' and three more digits to a layout keeps it a layout. */
  lemma LayoutExtend(gh: string, lo: string)
    requires ThousandsLayout(gh) && |lo| == 3 && AllDigits(lo)
    ensures ThousandsLayout(gh + "." + lo)
  {
    var g, n := gh + "." + lo, |gh|;
    forall i | 0 <= i < |g|
      ensures (g[i] == '.' <==> (|g| - i) % 4 == 0) && (g[i] != '.' ==> IsDigit(g[i]))
    {
      if i < n {
        assert g[i] == gh[i];
        assert |g| - i == (n - i) + 4;
      } else if i > n {
        assert g[i] == lo[i - n - 1];
      }
    }
  }

  /** Grouping puts a '.' before each group of three digits counted from the
      right and nowhere else: one separator per full group beyond the first. */
  lemma {:induction false} GroupLayout(s: string)
    requires |s| > 0 && AllDigits(s)
    ensures ThousandsLayout(Group(s))
    ensures |Group(s)| == |s| + (|s| - 1) / 3
    decreases |s|
  {
    if |s| <= 3 {
      forall i | 0 <= i < |s|
        ensures (s[i] == '.' <==> (|s| - i) % 4 == 0) && (s[i] != '.' ==> IsDigit(s[i]))
      {
        assert IsDigit(s[i]);
      }
    } else {
      var hi, lo := s[..|s| - 3], s[|s| - 3..];
      assert AllDigits(hi) by {
        forall i | 0 <= i < |hi| ensures IsDigit(hi[i]) {
          assert hi[i] == s[i];
        }
      }
      assert AllDigits(lo) by {
        forall i | 0 <= i < |lo| ensures IsDigit(lo[i]) {
          assert lo[i] == s[|s| - 3 + i];
        }
      }
      GroupLayout(hi);
      LayoutExtend(Group(hi), lo);
    }
  }

  lemma DigitCharValue(d: nat)
    requires d < 10
    ensures DigitValue(DigitChar(d)) == d
  {
  }

  lemma TwoDigitsValue(n: nat)
    requires n < 100
    ensures NumberValue(TwoDigits(n)) == n
  {
    var s := TwoDigits(n);
    DigitCharValue(n / 10);
    DigitCharValue(n % 10);
    assert s[..1][..0] == [];
    assert s[..1] == [DigitChar(n / 10)];
    assert NumberValue(s[..1]) == n / 10;
  }

  /** Reading `g,t` with two decimals `t`: the dot-free value of `g` in
      units and `t` in cents. */
  lemma UnsignedParseSplit(g: string, t: string)
    requires |t| == 2
    ensures UnsignedParse(g + "," + t) == NumberValue(WithoutDots(g)) * 100 + NumberValue(t)
  {
    var body := g + "," + t;
    assert body[..|body| - 3] == g;
    assert body[|body| - 2..] == t;
  }

  /** The unsigned part of a formatted amount reads back as the amount. */
  lemma {:induction false} UnsignedRoundTrip(a: nat)
    ensures |UnsignedFormat(a)| >= 3 && IsDigit(UnsignedFormat(a)[0])
    ensures UnsignedParse(UnsignedFormat(a)) == a
  {
    var units, cents := a / 100, a % 100;
    var d := Digits(units);
    DigitsFacts(units);
    GroupFacts(d);
    TwoDigitsValue(cents);
    var g, t := Group(d), TwoDigits(cents);
    UnsignedParseSplit(g, t);
    assert UnsignedFormat(a) == g + "," + t;
    assert (g + "," + t)[0] == g[0];
  }

  /** A leading '-' negates; a leading digit leaves the unsigned reading. */
  lemma ParseSign(u: string)
    requires |u| > 0 && IsDigit(u[0])
    ensures Parse(u) == UnsignedParse(u)
    ensures Parse("-" + u) == -UnsignedParse(u)
  {
    assert ("-" + u)[1..] == u;
  }

  /** Round trip: reading the formatted amount gives back the cents. */
  lemma {:induction false} ParseFormat(cents: int)
    ensures Parse(Format(cents)) == cents
  {
    var a: nat := if cents < 0 then -cents else cents;
    var u := UnsignedFormat(a);
    UnsignedRoundTrip(a);
    ParseSign(u);
  }

  /** The amounts of the category-limit message as the shopper sees them. */
  lemma FormatLimitExample()
    ensures Format(60000) == "600,00"
    ensures Format(65000) == "650,00"
  {
    assert Digits(600) == "600" by {
      assert Digits(6) == "6";
      assert Digits(60) == "60";
    }
    assert Digits(650) == "650" by {
      assert Digits(65) == "65";
    }
  }

  /** An amount with a thousands separator: 1234.56 is shown as `1.234,56`. */
  lemma FormatThousandsExample()
    ensures Format(123456) == "1.234,56"
  {
    assert Digits(1234) == "1234" by {
      assert Digits(1) == "1";
      assert Digits(12) == "12";
      assert Digits(123) == "123";
    }
    assert Group("1234") == "1.234" by {
      assert "1234"[..1] == "1";
      assert "1234"[1..] == "234";
    }
    assert TwoDigits(56) == "56";
    assert 123456 / 100 == 1234 && 123456 % 100 == 56;
  }
}
