/** The Python values an insert can carry, and `repr`, which turns each into
    the literal text placed in the VALUES clause. */
module PyValues {
  import opened Wrappers
  import opened Text
  import opened Dates

  datatype Value =
    | PyStr(s: string)
    | PyInt(n: int)
    | PyDate(date: Date)
    | PyDateTime(dt: DateTime)
      /** Any other object (a float, bytes, None, a bool, ...), with the text
          `repr` gives it. */
    | PyOther(repr: string)

  /** `isinstance(v, datetime)` */
  predicate IsDateTime(v: Value)
  {
    v.PyDateTime?
  }

  /** `isinstance(v, date)`: `datetime` is a subclass of `date`, so a
      datetime is a date too. */
  predicate IsDate(v: Value)
  {
    v.PyDate? || v.PyDateTime?
  }

  // ---- repr of a str ------------------------------------------------------

  /** The quote `repr` puts around a string: a double quote when the text
      holds a single quote and no double quote, a single quote otherwise. */
  function QuoteFor(s: string): char
  {
    if '\'' in s && '"' !in s then '"' else '\''
  }

  predicate IsQuote(q: char)
  {
    q == '\'' || q == '"'
  }

  /** Control characters that `repr` writes as `\xhh`. */
  predicate IsHexEscaped(c: char)
  {
    c as int < 0x20 || c as int == 0x7f
  }

  function HexDigit(d: nat): char
    requires d < 16
  {
    if d < 10 then Digit(d) else ('a' as int + d - 10) as char
  }

  predicate IsHexDigit(c: char)
  {
    '0' <= c <= '9' || 'a' <= c <= 'f' || 'A' <= c <= 'F'
  }

  function HexValue(c: char): (d: nat)
    requires IsHexDigit(c)
    ensures d < 16
  {
    if '0' <= c <= '9' then c as int - '0' as int
    else if 'a' <= c <= 'f' then c as int - 'a' as int + 10
    else c as int - 'A' as int + 10
  }

  /** How `repr` writes one character inside quotes q: the quote in use and
      the backslash get a backslash, tab, newline and carriage return their
      letter escapes, other ASCII control characters `\xhh`, everything else
      itself. */
  function EscapeChar(c: char, q: char): string
  {
    if c == q || c == '\\' then ['\\', c]
    else if c == '\t' then "\\t"
    else if c == '\n' then "\\n"
    else if c == '\r' then "\\r"
    else if IsHexEscaped(c) then ['\\', 'x', HexDigit(c as int / 16), HexDigit(c as int % 16)]
    else [c]
  }

  function Escape(s: string, q: char): string
  {
    if s == [] then "" else EscapeChar(s[0], q) + Escape(s[1..], q)
  }

  /** `repr(s)` for a str. */
  function ReprStr(s: string): (r: string)
    ensures |r| >= 2 && r[0] == QuoteFor(s) && r[|r| - 1] == QuoteFor(s)
  {
    var q := QuoteFor(s);
    [q] + Escape(s, q) + [q]
  }

  /** `repr(n)` for an int. */
  function ReprInt(n: int): (r: string)
    ensures r != [] && (r[0] == '-' || IsDigit(r[0]))
  {
    if n < 0 then "-" + Decimal(-n) else Decimal(n)
  }

  // ---- reading a literal back ---------------------------------------------

  function Prepend(c: char, rest: Option<string>): Option<string>
  {
    match rest
    case None => None
    case Some(s) => Some([c] + s)
  }

  /** The text between the quotes of a Python string literal quoted with q,
      decoded; None when it is not a valid body (a bare q would end the
      literal, an unknown escape is rejected). */
  function Unescape(t: string, q: char): Option<string>
    decreases |t|
  {
    if t == [] then Some("")
    else if t[0] == q then None
    else if t[0] != '\\' then Prepend(t[0], Unescape(t[1..], q))
    else if |t| < 2 then None
    else if t[1] == '\\' || IsQuote(t[1]) then Prepend(t[1], Unescape(t[2..], q))
    else if t[1] == 't' then Prepend('\t', Unescape(t[2..], q))
    else if t[1] == 'n' then Prepend('\n', Unescape(t[2..], q))
    else if t[1] == 'r' then Prepend('\r', Unescape(t[2..], q))
    else if t[1] == 'x' && |t| >= 4 && IsHexDigit(t[2]) && IsHexDigit(t[3]) then
      Prepend((16 * HexValue(t[2]) + HexValue(t[3])) as char, Unescape(t[4..], q))
    else None
  }

  /** A decimal integer literal, optionally negative. */
  function ParseInt(t: string): Option<int>
  {
    if |t| >= 2 && t[0] == '-' && AllDigits(t[1..]) then Some(-(ValueOf(t[1..]) as int))
    else if t != [] && AllDigits(t) then Some(ValueOf(t))
    else None
  }

  /** Reads a str or int literal back into the value it denotes. */
  function ReadLiteral(t: string): Option<Value>
  {
    if |t| >= 2 && IsQuote(t[0]) && t[|t| - 1] == t[0] then
      match Unescape(t[1..|t| - 1], t[0])
      case None => None
      case Some(s) => Some(PyStr(s))
    else
      match ParseInt(t)
      case None => None
      case Some(n) => Some(PyInt(n))
  }

  lemma HexDigitValue(d: nat)
    requires d < 16
    ensures IsHexDigit(HexDigit(d)) && HexValue(HexDigit(d)) == d
  {
  }

  /** Decoding undoes the escape of one character. */
  lemma UnescapeChar(c: char, q: char, t: string)
    requires IsQuote(q)
    ensures Unescape(EscapeChar(c, q) + t, q) == Prepend(c, Unescape(t, q))
  {
    var e := EscapeChar(c, q) + t;
    if c == q || c == '\\' {
      assert e[2..] == t;
    } else if c == '\t' || c == '\n' || c == '\r' {
      assert e[2..] == t;
    } else if IsHexEscaped(c) {
      HexDigitValue(c as int / 16);
      HexDigitValue(c as int % 16);
      assert e[4..] == t;
    } else {
      assert e[1..] == t;
    }
  }

  lemma {:induction false} UnescapeEscape(s: string, q: char)
    requires IsQuote(q)
    ensures Unescape(Escape(s, q), q) == Some(s)
  {
    if s != [] {
      UnescapeEscape(s[1..], q);
      UnescapeChar(s[0], q, Escape(s[1..], q));
      assert [s[0]] + s[1..] == s;
    }
  }

  /** `repr` of a str is a literal that reads back as the same str. */
  lemma ReprStrRoundTrip(s: string)
    ensures ReadLiteral(ReprStr(s)) == Some(PyStr(s))
  {
    var q := QuoteFor(s);
    var r := ReprStr(s);
    assert r[1..|r| - 1] == Escape(s, q);
    UnescapeEscape(s, q);
  }

  /** `repr` of an int is a literal that reads back as the same int. */
  lemma ReprIntRoundTrip(n: int)
    ensures ReadLiteral(ReprInt(n)) == Some(PyInt(n))
  {
    var r := ReprInt(n);
    if n < 0 {
      assert r[1..] == Decimal(-n);
      ValueOfDecimal(-n);
    } else {
      ValueOfDecimal(n);
    }
  }

  /** Printable ASCII text with no quote and no backslash. */
  predicate Plain(s: string)
  {
    forall i :: 0 <= i < |s| ==> ' ' <= s[i] && s[i] as int < 0x7f && s[i] != '\'' && s[i] != '"' && s[i] != '\\'
  }

  lemma {:induction false} EscapePlain(s: string)
    requires Plain(s)
    ensures Escape(s, '\'') == s
  {
    if s != [] {
      assert Plain(s[1..]);
      EscapePlain(s[1..]);
      assert [s[0]] + s[1..] == s;
    }
  }

  /** `repr` puts plain text between single quotes unchanged. */
  lemma ReprPlain(s: string)
    requires Plain(s)
    ensures ReprStr(s) == "'" + s + "'"
  {
    assert '\'' !in s;
    EscapePlain(s);
  }

  lemma DigitsPlain(s: string)
    requires AllDigits(s)
    ensures Plain(s)
  {
  }

  lemma FormatDatePlain(d: Date)
    ensures Plain(FormatDate(d))
  {
    var s := FormatDate(d);
    DigitsPlain(s[..4]);
    DigitsPlain(s[5..7]);
    DigitsPlain(s[8..]);
    forall i | 0 <= i < |s|
      ensures ' ' <= s[i] && s[i] as int < 0x7f && s[i] != '\'' && s[i] != '"' && s[i] != '\\'
    {
      if i < 4 { assert s[i] == s[..4][i]; }
      else if 4 < i < 7 { assert s[i] == s[5..7][i - 5]; }
      else if i > 7 { assert s[i] == s[8..][i - 8]; }
    }
  }

  lemma FormatDateTimePlain(dt: DateTime)
    ensures Plain(FormatDateTime(dt))
  {
    var s := FormatDateTime(dt);
    FormatDatePlain(DateOf(dt));
    DigitsPlain(s[11..13]);
    DigitsPlain(s[14..16]);
    DigitsPlain(s[17..]);
    forall i | 0 <= i < |s|
      ensures ' ' <= s[i] && s[i] as int < 0x7f && s[i] != '\'' && s[i] != '"' && s[i] != '\\'
    {
      if i < 10 { assert s[i] == s[..10][i]; }
      else if 10 < i < 13 { assert s[i] == s[11..13][i - 11]; }
      else if 13 < i < 16 { assert s[i] == s[14..16][i - 14]; }
      else if i > 16 { assert s[i] == s[17..][i - 17]; }
    }
  }

  /** `repr(v)` for the values an insert renders (dates have been turned into
      text before this point). */
  function Literal(v: Value): (r: string)
    requires !IsDate(v)
    ensures v.PyStr? || v.PyInt? ==> ReadLiteral(r) == Some(v)
    ensures v.PyOther? ==> r == v.repr
  {
    match v
    case PyStr(s) => ReprStrRoundTrip(s); ReprStr(s)
    case PyInt(n) => ReprIntRoundTrip(n); ReprInt(n)
    case PyOther(repr) => repr
  }
}
