/**
  Strings as the backend (Python) and the frontend (JavaScript) treat them:
  splitting on one character, joining, trimming white space, Python's
  `int()` of a string, fixed-width decimal fields and the code-point order
  in which Python's `<` and `sorted` compare strings.
 */
module Text {
  import opened Wrappers

  // ---------------------------------------------------------------------
  // Splitting and joining on a one-character separator
  // ---------------------------------------------------------------------

  /** Number of occurrences of `c` in `s`. */
  function Count(s: string, c: char): nat
  {
    if |s| == 0 then 0 else (if s[0] == c then 1 else 0) + Count(s[1..], c)
  }

  /**
    `s.split(sep)`: Python's `str.split` and JavaScript's `String.split` agree
    for a one-character separator. Every piece between two separators is kept,
    empty pieces included, and nothing is trimmed.
   */
  function Split(s: string, sep: char): (parts: seq<string>)
    ensures |parts| == Count(s, sep) + 1
    ensures forall i :: 0 <= i < |parts| ==> sep !in parts[i]
  {
    if |s| == 0 then [""]
    else
      var rest := Split(s[1..], sep);
      if s[0] == sep then [""] + rest
      else [[s[0]] + rest[0]] + rest[1..]
  }

  /** `sep.join(parts)` in Python, `parts.join(sep)` in JavaScript. */
  function Join(parts: seq<string>, sep: char): string
  {
    if |parts| == 0 then ""
    else if |parts| == 1 then parts[0]
    else parts[0] + [sep] + Join(parts[1..], sep)
  }

  /** Joining the pieces of a split gives back the string that was split. */
  lemma {:induction false} JoinSplit(s: string, sep: char)
    ensures Join(Split(s, sep), sep) == s
  {
    if |s| > 0 {
      var rest := Split(s[1..], sep);
      JoinSplit(s[1..], sep);
      if s[0] == sep {
        assert Split(s, sep) == [""] + rest;
        assert ([""] + rest)[1..] == rest;
        assert s == [sep] + s[1..];
      } else if |rest| == 1 {
        assert Split(s, sep) == [[s[0]] + rest[0]];
        assert s == [s[0]] + s[1..];
      } else {
        var parts := [[s[0]] + rest[0]] + rest[1..];
        assert Split(s, sep) == parts;
        assert parts[1..] == rest[1..];
        assert Join(rest, sep) == rest[0] + [sep] + Join(rest[1..], sep);
        assert s == [s[0]] + s[1..];
      }
    }
  }

  /** The first piece of a split is the text before the first separator. */
  lemma {:induction false} SplitFirst(s: string, sep: char)
    ensures var h := Split(s, sep)[0];
      |h| <= |s| && s[..|h|] == h && (|h| < |s| ==> s[|h|] == sep)
  {
    if |s| > 0 && s[0] != sep {
      SplitFirst(s[1..], sep);
      var h := Split(s[1..], sep)[0];
      assert Split(s, sep)[0] == [s[0]] + h;
      assert s[..|h| + 1] == [s[0]] + s[1..][..|h|];
    }
  }

  lemma {:induction false} SplitPrefix(a: string, t: string, sep: char)
    requires sep !in a
    ensures Split(a + t, sep) == [a + Split(t, sep)[0]] + Split(t, sep)[1..]
  {
    if |a| > 0 {
      var st := Split(t, sep);
      SplitPrefix(a[1..], t, sep);
      assert (a + t)[1..] == a[1..] + t;
      assert (a + t)[0] == a[0] && a[0] != sep;
      var rest := Split(a[1..] + t, sep);
      assert rest == [a[1..] + st[0]] + st[1..];
      assert rest[0] == a[1..] + st[0] && rest[1..] == st[1..];
      assert Split(a + t, sep) == [[a[0]] + rest[0]] + rest[1..];
      assert [a[0]] + (a[1..] + st[0]) == a + st[0];
    } else {
      var st := Split(t, sep);
      assert a + t == t;
      assert a + st[0] == st[0];
      assert [st[0]] + st[1..] == st;
    }
  }

  /**
    Splitting a joined list gives the list back, provided the list is not
    empty and no element holds the separator.
   */
  lemma {:induction false} SplitJoin(xs: seq<string>, sep: char)
    requires |xs| >= 1
    requires forall i :: 0 <= i < |xs| ==> sep !in xs[i]
    ensures Split(Join(xs, sep), sep) == xs
  {
    if |xs| == 1 {
      SplitPrefix(xs[0], "", sep);
      assert xs[0] + "" == xs[0];
    } else {
      SplitJoin(xs[1..], sep);
      var tail := [sep] + Join(xs[1..], sep);
      assert Join(xs, sep) == xs[0] + tail;
      SplitPrefix(xs[0], tail, sep);
      assert tail[1..] == Join(xs[1..], sep);
      assert Split(tail, sep) == [""] + xs[1..];
      assert xs[0] + "" == xs[0];
      assert xs == [xs[0]] + xs[1..];
    }
  }

  // ---------------------------------------------------------------------
  // White space
  // ---------------------------------------------------------------------

  /** What JavaScript's `String.prototype.trim` removes: WhiteSpace and LineTerminator code points. */
  predicate IsJsSpace(c: char)
  {
    c in {'\t', '\n', '\U{000B}', '\U{000C}', '\r', ' ', '\U{00A0}', '\U{1680}',
          '\U{2000}', '\U{2001}', '\U{2002}', '\U{2003}', '\U{2004}', '\U{2005}',
          '\U{2006}', '\U{2007}', '\U{2008}', '\U{2009}', '\U{200A}', '\U{2028}',
          '\U{2029}', '\U{202F}', '\U{205F}', '\U{3000}', '\U{FEFF}'}
  }

  /**
    The white space `int()` skips around a literal: the six ASCII spaces
    `\t \n \v \f \r` and space, and the non-ASCII characters `str.isspace`
    accepts. The separators U+001C..U+001F are `isspace` but not skipped.
   */
  predicate IsIntSpace(c: char)
  {
    c in {'\t', '\n', '\U{000B}', '\U{000C}', '\r', ' ', '\U{0085}', '\U{00A0}', '\U{1680}',
          '\U{2000}', '\U{2001}', '\U{2002}', '\U{2003}', '\U{2004}', '\U{2005}', '\U{2006}',
          '\U{2007}', '\U{2008}', '\U{2009}', '\U{200A}', '\U{2028}', '\U{2029}', '\U{202F}',
          '\U{205F}', '\U{3000}'}
  }

  /** Drops the leading characters that satisfy `space`; what is left is a suffix of `s`. */
  function StripStart(s: string, space: char -> bool): (r: string)
    ensures |r| <= |s| && r == s[|s| - |r|..]
    ensures |r| == 0 || !space(r[0])
    ensures forall k :: 0 <= k < |s| - |r| ==> space(s[k])
  {
    if |s| > 0 && space(s[0]) then
      var r := StripStart(s[1..], space);
      assert s[1..][|s| - 1 - |r|..] == s[|s| - |r|..];
      assert forall k :: 1 <= k < |s| - |r| ==> s[k] == s[1..][k - 1];
      r
    else s
  }

  /** Drops the trailing characters that satisfy `space`; what is left is a prefix of `s`. */
  function StripEnd(s: string, space: char -> bool): (r: string)
    ensures |r| <= |s| && r == s[..|r|]
    ensures |r| == 0 || !space(r[|r| - 1])
    ensures forall k :: |r| <= k < |s| ==> space(s[k])
  {
    if |s| > 0 && space(s[|s| - 1]) then
      var r := StripEnd(s[..|s| - 1], space);
      assert s[..|s| - 1][..|r|] == s[..|r|];
      r
    else s
  }

  /** Both ends stripped: JavaScript's `trim()` with `IsJsSpace`, the white space around Python's `int()` literals with `IsIntSpace`. */
  function Strip(s: string, space: char -> bool): string
  {
    StripEnd(StripStart(s, space), space)
  }

  /** The stripped string is empty exactly when every character of `s` is white space. */
  lemma StripIsEmpty(s: string, space: char -> bool)
    ensures Strip(s, space) == "" <==> forall k :: 0 <= k < |s| ==> space(s[k])
  {
    var t := StripStart(s, space);
    if |t| > 0 {
      assert t[0] == s[|s| - |t|];
      var r := StripEnd(t, space);
      assert |r| > 0 by {
        assert !space(t[0]);
      }
    }
  }

  /** No white space at either end. */
  predicate Trimmed(s: string, space: char -> bool)
  {
    |s| == 0 || (!space(s[0]) && !space(s[|s| - 1]))
  }

  /** A string that neither starts nor ends with white space is left as it is. */
  lemma StripUnchanged(s: string, space: char -> bool)
    requires Trimmed(s, space)
    ensures Strip(s, space) == s
  {
  }

  /** What `Strip` returns is trimmed and holds only characters of `s`. */
  lemma StripTrimmed(s: string, space: char -> bool)
    ensures Trimmed(Strip(s, space), space)
    ensures forall c :: c in Strip(s, space) ==> c in s
  {
    var t := StripStart(s, space);
    var r := StripEnd(t, space);
    if |r| > 0 {
      assert r[0] == t[0];
    }
    var i := |s| - |t|;
    assert r == t[..|r|] && t == s[i..];
    assert r == s[i..i + |r|];
    SliceChars(s, i, i + |r|);
  }

  /** Every character of a slice is a character of the whole. */
  lemma SliceChars(s: string, i: nat, j: nat)
    requires i <= j <= |s|
    ensures forall c :: c in s[i..j] ==> c in s
  {
    forall c | c in s[i..j] ensures c in s {
      var k :| 0 <= k < j - i && s[i..j][k] == c;
      assert s[i + k] == c;
    }
  }

  /** Stripping twice is stripping once. */
  lemma StripIdempotent(s: string, space: char -> bool)
    ensures Strip(Strip(s, space), space) == Strip(s, space)
  {
    var r := Strip(s, space);
    if |r| > 0 {
      var t := StripStart(s, space);
      assert r == t[..|r|];
      assert r[0] == t[0];
      StripUnchanged(r, space);
    }
  }

  // ---------------------------------------------------------------------
  // Decimal digits
  // ---------------------------------------------------------------------

  predicate IsDigit(c: char) { '0' <= c <= '9' }

  function DigitValue(c: char): nat
    requires IsDigit(c)
  {
    c as int - '0' as int
  }

  function Digit(d: nat): (c: char)
    requires d < 10
    ensures IsDigit(c) && DigitValue(c) == d
  {
    ('0' as int + d) as char
  }

  function Pow10(w: nat): (p: nat)
    ensures p >= 1
  {
    if w == 0 then 1 else 10 * Pow10(w - 1)
  }

  /** `n` written with exactly `w` decimal digits, zero-padded on the left (`%02d`, `%04d`). */
  function Pad(n: nat, w: nat): (s: string)
    requires n < Pow10(w)
    ensures |s| == w
    ensures forall i :: 0 <= i < |s| ==> IsDigit(s[i])
  {
    if w == 0 then [] else Pad(n / 10, w - 1) + [Digit(n % 10)]
  }

  /** `str(n)` for a non-negative integer: no leading zeros. */
  function Decimal(n: nat): (s: string)
    ensures |s| >= 1 && IsDigit(s[0])
    ensures forall i :: 0 <= i < |s| ==> IsDigit(s[i])
  {
    if n < 10 then [Digit(n)] else Decimal(n / 10) + [Digit(n % 10)]
  }

  /** The decimal form of an integer, as Python's `str` and JavaScript's `String` write it. */
  function IntToString(n: int): string
  {
    if n < 0 then "-" + Decimal(-n) else Decimal(n)
  }

  function Abs(n: int): nat
  {
    if n < 0 then -n else n
  }

  /** A non-negative number below `10^w` has at most `w` decimal digits. */
  lemma {:induction false} DecimalLength(m: nat, w: nat)
    requires w >= 1 && m < Pow10(w)
    ensures |Decimal(m)| <= w
  {
    if m >= 10 {
      assert Pow10(w) == 10 * Pow10(w - 1);
      assert 1 <= m / 10 < Pow10(w - 1);
      DecimalLength(m / 10, w - 1);
    }
  }

  // ---------------------------------------------------------------------
  // Python's repr() of a string
  // ---------------------------------------------------------------------

  /** The quote `repr` puts around a string: double quotes only when it holds a single quote and no double quote. */
  function ReprQuote(s: string): char
  {
    if '\'' in s && '"' !in s then '"' else '\''
  }

  /** Characters `repr` writes as `\xhh`: the C0 controls other than tab, line feed and return, DEL, the C1 controls, no-break space and the soft hyphen. */
  predicate HexEscaped(c: char)
  {
    (c as int < 0x20 && c !in {'\t', '\n', '\r'}) || c as int == 0x7f || 0x80 <= c as int <= 0xa0 || c as int == 0xad
  }

  function HexDigit(d: nat): (c: char)
    requires d < 16
  {
    "0123456789abcdef"[d]
  }

  /** How `repr` writes one character inside quotes `q`. */
  function EscapeChar(c: char, q: char): (e: string)
    ensures |e| >= 1
  {
    if c == q || c == '\\' then ['\\', c]
    else if c == '\t' then "\\t"
    else if c == '\n' then "\\n"
    else if c == '\r' then "\\r"
    else if HexEscaped(c) then "\\x" + [HexDigit(c as int / 16), HexDigit(c as int % 16)]
    else [c]
  }

  function EscapeAll(s: string, q: char): string
  {
    if |s| == 0 then [] else EscapeChar(s[0], q) + EscapeAll(s[1..], q)
  }

  /** `repr(s)` for a string: quoted, with backslashes, the quote and control characters escaped. */
  function PyRepr(s: string): (r: string)
    ensures |r| >= 2 && r[0] == ReprQuote(s) && r[|r| - 1] == ReprQuote(s)
    ensures r[0] == '"' <==> '\'' in s && '"' !in s
  {
    [ReprQuote(s)] + EscapeAll(s, ReprQuote(s)) + [ReprQuote(s)]
  }

  function HexValue(c: char): nat
  {
    if '0' <= c <= '9' then c as int - '0' as int
    else if 'a' <= c <= 'f' then c as int - 'a' as int + 10
    else 0
  }

  /** Reading back the escapes `repr` writes: `\t`, `\n`, `\r`, `\xhh`, and a backslash before any other character. */
  function Unescape(t: string): string
    decreases |t|
  {
    if |t| == 0 then []
    else if t[0] == '\\' && |t| >= 2 then
      if t[1] == 't' then ['\t'] + Unescape(t[2..])
      else if t[1] == 'n' then ['\n'] + Unescape(t[2..])
      else if t[1] == 'r' then ['\r'] + Unescape(t[2..])
      else if t[1] == 'x' && |t| >= 4 then [(16 * (HexValue(t[2]) % 16) + HexValue(t[3]) % 16) as char] + Unescape(t[4..])
      else [t[1]] + Unescape(t[2..])
    else [t[0]] + Unescape(t[1..])
  }

  lemma UnescapeChar(c: char, q: char, rest: string)
    requires q == '\'' || q == '"'
    ensures Unescape(EscapeChar(c, q) + rest) == [c] + Unescape(rest)
  {
    var e := EscapeChar(c, q);
    if c == q || c == '\\' || c == '\t' || c == '\n' || c == '\r' {
      assert (e + rest)[2..] == rest;
    } else if HexEscaped(c) {
      UnescapeHex(c, rest);
    } else {
      assert (e + rest)[1..] == rest;
    }
  }

  /** A `\xhh` escape reads back to its character. */
  lemma UnescapeHex(c: char, rest: string)
    requires HexEscaped(c)
    ensures Unescape("\\x" + [HexDigit(c as int / 16), HexDigit(c as int % 16)] + rest) == [c] + Unescape(rest)
  {
    var n := c as int;
    assert n < 256;
    var h, l := n / 16, n % 16;
    assert 16 * h + l == n;
    HexDigitValue(h);
    HexDigitValue(l);
    var hi, lo := HexDigit(h), HexDigit(l);
    UnescapeHexPrefix(hi, lo, rest);
    assert HexValue(hi) % 16 == h && HexValue(lo) % 16 == l;
  }

  lemma UnescapeHexPrefix(hi: char, lo: char, rest: string)
    ensures Unescape("\\x" + [hi, lo] + rest) == [(16 * (HexValue(hi) % 16) + HexValue(lo) % 16) as char] + Unescape(rest)
  {
    var t := "\\x" + [hi, lo] + rest;
    assert t[0] == '\\' && t[1] == 'x' && t[2] == hi && t[3] == lo;
    assert t[4..] == rest;
  }

  lemma HexDigitValue(d: nat)
    requires d < 16
    ensures HexValue(HexDigit(d)) == d
  {
  }

  /** The escapes `repr` writes read back to the original text. */
  lemma {:induction false} UnescapeEscapeAll(s: string, q: char)
    requires q == '\'' || q == '"'
    ensures Unescape(EscapeAll(s, q)) == s
  {
    if |s| > 0 {
      UnescapeEscapeAll(s[1..], q);
      UnescapeChar(s[0], q, EscapeAll(s[1..], q));
    }
  }

  /** Inside `repr`'s quotes, the quote character only ever appears escaped. */
  lemma {:induction false} EscapedQuote(s: string, q: char, i: nat)
    requires (q == '\'' || q == '"') && i < |EscapeAll(s, q)| && EscapeAll(s, q)[i] == q
    ensures i > 0 && EscapeAll(s, q)[i - 1] == '\\'
  {
    var head := EscapeChar(s[0], q);
    var tail := EscapeAll(s[1..], q);
    assert EscapeAll(s, q) == head + tail;
    if i >= |head| {
      assert tail[i - |head|] == q;
      EscapedQuote(s[1..], q, i - |head|);
      assert EscapeAll(s, q)[i - 1] == tail[i - |head| - 1];
    } else {
      EscapeCharQuote(s[0], q, i);
    }
  }

  /** Within one escape, the quote character only follows a backslash. */
  lemma EscapeCharQuote(c: char, q: char, i: nat)
    requires (q == '\'' || q == '"') && i < |EscapeChar(c, q)| && EscapeChar(c, q)[i] == q
    ensures i > 0 && EscapeChar(c, q)[i - 1] == '\\'
  {
  }

  /** The text between `repr`'s quotes reads back to the string. */
  lemma PyReprRoundTrip(s: string)
    ensures var r := PyRepr(s); Unescape(r[1..|r| - 1]) == s
  {
    var r := PyRepr(s);
    assert r[1..|r| - 1] == EscapeAll(s, ReprQuote(s));
    UnescapeEscapeAll(s, ReprQuote(s));
  }

  /** `%.200R`: the repr cut to its first 200 characters. */
  function Truncate(s: string, n: nat): (r: string)
    ensures |r| <= n && r <= s
  {
    if |s| <= n then s else s[..n]
  }

  // ---------------------------------------------------------------------
  // Python's int() of a string
  // ---------------------------------------------------------------------

  /** How `int()` of a string fails: not an integer literal, or more digits than the conversion limit allows. */
  datatype IntError = InvalidLiteral | ExceedsLimit(digits: nat)

  /** `sys.int_info.default_max_str_digits`: the most decimal digits `int()` converts. */
  const MaxStrDigits: nat := 4300

  /** Decimal digits, possibly with single underscores between two digits (`1_000`). */
  predicate IsDigitGroups(t: string)
  {
    && |t| > 0
    && IsDigit(t[0]) && IsDigit(t[|t| - 1])
    && (forall i :: 0 <= i < |t| ==> IsDigit(t[i]) || t[i] == '_')
    && (forall i :: 0 <= i < |t| - 1 ==> t[i] != '_' || t[i + 1] != '_')
  }

  /** The number the digits of `t` spell, underscores ignored. */
  function GroupsValue(t: string): nat
  {
    if |t| == 0 then 0
    else if IsDigit(t[|t| - 1]) then 10 * GroupsValue(t[..|t| - 1]) + DigitValue(t[|t| - 1])
    else GroupsValue(t[..|t| - 1])
  }

  /** The number of digits of `t`, underscores not counted. */
  function DigitCount(t: string): nat
  {
    if |t| == 0 then 0
    else DigitCount(t[..|t| - 1]) + (if IsDigit(t[|t| - 1]) then 1 else 0)
  }

  /** `t` without its sign, if it starts with one. */
  function Unsigned(t: string): string
  {
    if |t| > 0 && (t[0] == '+' || t[0] == '-') then t[1..] else t
  }

  /**
    `int(s)` for a string in base 10: surrounding white space is stripped,
    then one optional sign and digit groups must follow. A literal with more
    than 4300 digits, leading zeros included, is refused as too long.
   */
  function ParseInt(s: string): (r: Result<int, IntError>)
    ensures r.Success? ==> |Decimal(Abs(r.value))| <= MaxStrDigits
    ensures r.Failure? && r.error.ExceedsLimit? ==> r.error.digits > MaxStrDigits
  {
    var t := Strip(s, IsIntSpace);
    var body := Unsigned(t);
    if !IsDigitGroups(body) then Failure(InvalidLiteral)
    else if DigitCount(body) > MaxStrDigits then Failure(ExceedsLimit(DigitCount(body)))
    else
      GroupsValueBound(body);
      DecimalLength(GroupsValue(body), DigitCount(body));
      var v: int := GroupsValue(body);
      Success(if |t| > 0 && t[0] == '-' then -v else v)
  }

  /** The message of the ValueError `int(s)` raises: the repr of `s`, cut to 200 characters, or the digit count. */
  function IntErrorMessage(s: string, e: IntError): string
  {
    match e
    case InvalidLiteral => "invalid literal for int() with base 10: " + Truncate(PyRepr(s), 200)
    case ExceedsLimit(d) =>
      "Exceeds the limit (4300 digits) for integer string conversion: value has " + IntToString(d)
        + " digits; use sys.set_int_max_str_digits() to increase the limit"
  }

  lemma {:induction false} GroupsValueBound(t: string)
    requires |t| > 0 && IsDigit(t[|t| - 1])
    ensures DigitCount(t) >= 1 && GroupsValue(t) < Pow10(DigitCount(t))
  {
    GroupsValueBelow(t);
  }

  lemma {:induction false} GroupsValueBelow(t: string)
    ensures GroupsValue(t) < Pow10(DigitCount(t))
  {
    if |t| > 0 {
      var p := t[..|t| - 1];
      GroupsValueBelow(p);
      if IsDigit(t[|t| - 1]) {
        assert Pow10(DigitCount(t)) == 10 * Pow10(DigitCount(p));
      }
    }
  }

  lemma {:induction false} DecimalValue(n: nat)
    ensures IsDigitGroups(Decimal(n)) && GroupsValue(Decimal(n)) == n && DigitCount(Decimal(n)) == |Decimal(n)|
  {
    if n >= 10 {
      DecimalValue(n / 10);
      var d := Decimal(n);
      assert d[..|d| - 1] == Decimal(n / 10);
    }
  }

  /**
    `int(str(n))`: the decimal form of an integer of at most 4300 digits
    parses back to it; a longer one is refused with its digit count.
   */
  lemma ParseIntRoundTrip(n: int)
    ensures ParseInt(IntToString(n)) == if |Decimal(Abs(n))| <= MaxStrDigits then Success(n)
      else Failure(ExceedsLimit(|Decimal(Abs(n))|))
  {
    var s := IntToString(n);
    DecimalValue(Abs(n));
    IntToStringLiteral(n);
    ParseIntLiteral(s);
  }

  /** The decimal form of an integer has no surrounding white space, and its unsigned part is the digits of its magnitude. */
  lemma IntToStringLiteral(n: int)
    ensures Strip(IntToString(n), IsIntSpace) == IntToString(n)
    ensures Unsigned(IntToString(n)) == Decimal(Abs(n))
    ensures IntToString(n)[0] == '-' <==> n < 0
  {
    var s := IntToString(n);
    var d := Decimal(Abs(n));
    NotIntSpace(d[|d| - 1]);
    NotIntSpace(s[0]);
    assert s[|s| - 1] == d[|d| - 1];
    StripUnchanged(s, IsIntSpace);
    if n < 0 {
      assert s[1..] == d;
    }
  }

  /** `int()` of a string without surrounding white space whose unsigned part is digit groups. */
  lemma ParseIntLiteral(s: string)
    requires Strip(s, IsIntSpace) == s && IsDigitGroups(Unsigned(s))
    ensures var v: int := GroupsValue(Unsigned(s));
      ParseInt(s) == if DigitCount(Unsigned(s)) > MaxStrDigits then Failure(ExceedsLimit(DigitCount(Unsigned(s))))
        else Success(if s[0] == '-' then -v else v)
  {
  }

  lemma NotIntSpace(c: char)
    requires IsDigit(c) || c == '-'
    ensures !IsIntSpace(c)
  {
  }

  /** A string that `int()` accepts holds only white space, digits, underscores and signs. */
  lemma ParseIntCharset(s: string, k: nat)
    requires ParseInt(s).Success? && k < |s|
    ensures IsIntSpace(s[k]) || IsDigit(s[k]) || s[k] in {'_', '+', '-'}
  {
    var t0 := StripStart(s, IsIntSpace);
    var t := StripEnd(t0, IsIntSpace);
    var lead := |s| - |t0|;
    if lead <= k < lead + |t| {
      assert s[k] == t0[k - lead] == t[k - lead];
      if k - lead > 0 && |t| > 0 && (t[0] == '+' || t[0] == '-') {
        assert t[1..][k - lead - 1] == t[k - lead];
      }
    } else if lead + |t| <= k {
      assert t0[k - lead] == s[k];
    }
  }

  /** `int("\x1c5")` is refused: the file separator U+001C is `isspace` but not white space to `int()`. */
  lemma SeparatorIsNotIntSpace()
    ensures ParseInt("\U{001C}5") == Failure(InvalidLiteral)
  {
    var s := "\U{001C}5";
    assert !IsIntSpace(s[0]) && !IsIntSpace(s[1]);
    StripUnchanged(s, IsIntSpace);
  }

  // ---------------------------------------------------------------------
  // Code-point order of strings (Python's `<` on str, and `sorted`)
  // ---------------------------------------------------------------------

  /** `a < b` on Python strings: the first differing code point decides; a proper prefix is smaller. */
  predicate LexLess(a: string, b: string)
  {
    if |a| == 0 then |b| > 0
    else if |b| == 0 then false
    else if a[0] != b[0] then a[0] < b[0]
    else LexLess(a[1..], b[1..])
  }

  lemma {:induction false} LexLessIrreflexive(a: string)
    ensures !LexLess(a, a)
  {
    if |a| > 0 {
      LexLessIrreflexive(a[1..]);
    }
  }

  lemma {:induction false} LexLessTransitive(a: string, b: string, c: string)
    requires LexLess(a, b) && LexLess(b, c)
    ensures LexLess(a, c)
  {
    if |a| > 0 && |b| > 0 && |c| > 0 && a[0] == b[0] == c[0] {
      LexLessTransitive(a[1..], b[1..], c[1..]);
    }
  }

  /** Any two different strings are ordered one way or the other, never both. */
  lemma {:induction false} LexLessTotal(a: string, b: string)
    ensures a == b || LexLess(a, b) || LexLess(b, a)
    ensures !(LexLess(a, b) && LexLess(b, a))
  {
    if |a| > 0 && |b| > 0 && a[0] == b[0] {
      LexLessTotal(a[1..], b[1..]);
      if a[1..] == b[1..] {
        assert a == [a[0]] + a[1..] && b == [b[0]] + b[1..];
      }
    }
  }

  /**
    Comparing two concatenations whose first parts have the same length:
    the first parts decide, and only when they are equal do the second parts.
   */
  lemma {:induction false} LexLessConcat(x1: string, y1: string, x2: string, y2: string)
    requires |x1| == |x2|
    ensures LexLess(x1 + y1, x2 + y2) <==> LexLess(x1, x2) || (x1 == x2 && LexLess(y1, y2))
  {
    if |x1| == 0 {
      assert x1 + y1 == y1 && x2 + y2 == y2;
      LexLessIrreflexive(x1);
    } else {
      assert (x1 + y1)[0] == x1[0] && (x2 + y2)[0] == x2[0];
      assert (x1 + y1)[1..] == x1[1..] + y1 && (x2 + y2)[1..] == x2[1..] + y2;
      LexLessConcat(x1[1..], y1, x2[1..], y2);
      if x1[0] == x2[0] && x1[1..] == x2[1..] {
        assert x1 == [x1[0]] + x1[1..] && x2 == [x2[0]] + x2[1..];
      }
    }
  }

  /** Fixed-width decimal fields compare as strings exactly as their values compare as numbers. */
  lemma {:induction false} PadOrder(a: nat, b: nat, w: nat)
    requires a < Pow10(w) && b < Pow10(w)
    ensures LexLess(Pad(a, w), Pad(b, w)) <==> a < b
    ensures Pad(a, w) == Pad(b, w) <==> a == b
  {
    if w > 0 {
      PadOrder(a / 10, b / 10, w - 1);
      var da, db := Digit(a % 10), Digit(b % 10);
      LexLessConcat(Pad(a / 10, w - 1), [da], Pad(b / 10, w - 1), [db]);
      assert LexLess([da], [db]) <==> da < db;
      assert da < db <==> a % 10 < b % 10;
      assert da == db <==> a % 10 == b % 10;
      assert a == 10 * (a / 10) + a % 10 && b == 10 * (b / 10) + b % 10;
      if Pad(a, w) == Pad(b, w) {
        assert Pad(a, w)[..w - 1] == Pad(a / 10, w - 1);
        assert Pad(b, w)[..w - 1] == Pad(b / 10, w - 1);
        assert Pad(a, w)[w - 1] == da && Pad(b, w)[w - 1] == db;
      }
    }
  }

  predicate StartsWith(s: string, prefix: string)
  {
    |prefix| <= |s| && s[..|prefix|] == prefix
  }
}
