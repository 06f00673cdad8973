/** The pieces of Python's `str` behaviour that the statement builders use:
    `sep.join(items)`, its inverse `s.split(sep)`, and decimal digit strings
    (`str(n)` and zero-padded fields). */
module Text {

  /** `sep.join(items)`. */
  function Join(items: seq<string>, sep: string): (r: string)
    ensures items == [] ==> r == []
    ensures items != [] ==> items[0] <= r
  {
    if items == [] then ""
    else if |items| == 1 then items[0]
    else items[0] + sep + Join(items[1..], sep)
  }

  /** `s.split(sep)` for a non-empty separator: cuts at every occurrence of
      `sep`, scanning from the left. */
  function Split(s: string, sep: string): (parts: seq<string>)
    requires sep != []
    ensures parts != []
    decreases |s|
  {
    if sep <= s then [""] + Split(s[|sep|..], sep)
    else if s == [] then [""]
    else
      var rest := Split(s[1..], sep);
      [[s[0]] + rest[0]] + rest[1..]
  }

  lemma JoinCons(x: string, items: seq<string>, sep: string)
    requires items != []
    ensures Join([x] + items, sep) == x + sep + Join(items, sep)
  {
    assert ([x] + items)[1..] == items;
  }

  /** Text free of the separator's first character is glued onto the first
      part that follows it. */
  lemma {:induction false} SplitFreePrefix(x: string, t: string, sep: string)
    requires sep != [] && sep[0] !in x
    ensures Split(x + t, sep) == [x + Split(t, sep)[0]] + Split(t, sep)[1..]
    decreases |x|
  {
    if x == [] {
      assert x + t == t;
      var parts := Split(t, sep);
      assert x + parts[0] == parts[0];
      assert parts == [parts[0]] + parts[1..];
    } else {
      var s := x + t;
      assert s[0] == x[0] && x[0] != sep[0];
      assert !(sep <= s);
      assert s[1..] == x[1..] + t;
      SplitFreePrefix(x[1..], t, sep);
      assert [s[0]] + (x[1..] + Split(t, sep)[0]) == x + Split(t, sep)[0];
    }
  }

  lemma SplitAtSeparator(t: string, sep: string)
    requires sep != []
    ensures Split(sep + t, sep) == [""] + Split(t, sep)
  {
    assert sep <= sep + t;
    assert (sep + t)[|sep|..] == t;
  }

  /** Splitting a join gives the items back when no item holds the
      separator's first character. */
  lemma {:induction false} SplitJoin(items: seq<string>, sep: string)
    requires sep != [] && items != []
    requires forall i :: 0 <= i < |items| ==> sep[0] !in items[i]
    ensures Split(Join(items, sep), sep) == items
    decreases |items|
  {
    if |items| == 1 {
      SplitFreePrefix(items[0], "", sep);
      assert items[0] + "" == items[0];
    } else {
      var x, tail := items[0], items[1..];
      var rest := Join(tail, sep);
      assert Join(items, sep) == x + (sep + rest) by {
        assert Join(items, sep) == x + sep + rest;
      }
      var parts := Split(sep + rest, sep);
      assert parts == [""] + tail by {
        SplitAtSeparator(rest, sep);
        SplitJoin(tail, sep);
      }
      calc {
        Split(Join(items, sep), sep);
        { SplitFreePrefix(x, sep + rest, sep); }
        [x + parts[0]] + parts[1..];
        { assert parts[0] == "" && parts[1..] == tail; assert x + "" == x; }
        [x] + tail;
        items;
      }
    }
  }

  predicate IsDigit(c: char)
  {
    '0' <= c <= '9'
  }

  predicate AllDigits(s: string)
  {
    forall i :: 0 <= i < |s| ==> IsDigit(s[i])
  }

  function Digit(d: nat): (c: char)
    requires d < 10
  {
    ('0' as int + d) as char
  }

  /** `str(n)` for a natural number: its decimal digits, most significant
      first, without leading zeros. */
  function Decimal(n: nat): (s: string)
    ensures s != [] && AllDigits(s)
    decreases n
  {
    if n < 10 then [Digit(n)] else Decimal(n / 10) + [Digit(n % 10)]
  }

  /** The number a string of decimal digits denotes (`int(s)`). */
  function ValueOf(s: string): nat
    requires AllDigits(s)
    decreases |s|
  {
    if s == [] then 0
    else 10 * ValueOf(s[..|s| - 1]) + (s[|s| - 1] as int - '0' as int)
  }

  function Pow10(k: nat): (p: nat)
    ensures p >= 1
  {
    if k == 0 then 1 else 10 * Pow10(k - 1)
  }

  function Zeros(k: nat): (s: string)
    ensures |s| == k && forall i :: 0 <= i < k ==> s[i] == '0'
  {
    seq(k, _ => '0')
  }

  lemma {:induction false} ValueOfDecimal(n: nat)
    ensures ValueOf(Decimal(n)) == n
    decreases n
  {
    if n >= 10 {
      ValueOfDecimal(n / 10);
      var s := Decimal(n);
      assert s[..|s| - 1] == Decimal(n / 10);
    }
  }

  /** A number below 10^width has at most width digits. */
  lemma {:induction false} DecimalFits(n: nat, width: nat)
    ensures 1 <= width && n < Pow10(width) ==> |Decimal(n)| <= width
    decreases n
  {
    if 1 <= width && n < Pow10(width) && n >= 10 {
      assert width >= 2;
      assert n / 10 < Pow10(width - 1);
      DecimalFits(n / 10, width - 1);
    }
  }

  lemma {:induction false} ValueOfZeros(k: nat)
    ensures AllDigits(Zeros(k)) && ValueOf(Zeros(k)) == 0
  {
    if k > 0 {
      ValueOfZeros(k - 1);
      assert Zeros(k)[..k - 1] == Zeros(k - 1);
    }
  }

  /** Leading zeros do not change the value of a digit string. */
  lemma {:induction false} ValueOfLeadingZeros(k: nat, s: string)
    requires AllDigits(s)
    ensures AllDigits(Zeros(k) + s) && ValueOf(Zeros(k) + s) == ValueOf(s)
    decreases |s|
  {
    var z := Zeros(k) + s;
    if s == [] {
      assert z == Zeros(k);
      ValueOfZeros(k);
    } else {
      ValueOfLeadingZeros(k, s[..|s| - 1]);
      assert z[..|z| - 1] == Zeros(k) + s[..|s| - 1];
    }
  }

  /** The decimal digits of n, zero-filled on the left to at least width
      characters: the `%Y` (width 4) and `%m`, `%d`, `%H`, `%M`, `%S`
      (width 2) fields of `strftime`. */
  function ZeroPad(n: nat, width: nat): (s: string)
    ensures AllDigits(s) && ValueOf(s) == n
    ensures |s| >= width
    ensures 1 <= width && n < Pow10(width) ==> |s| == width
  {
    var digits := Decimal(n);
    ValueOfDecimal(n);
    DecimalFits(n, width);
    if |digits| >= width then digits
    else
      ValueOfLeadingZeros(width - |digits|, digits);
      Zeros(width - |digits|) + digits
  }
}
