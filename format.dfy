/** The text formatting the agent relies on: Rust's `{}` on unsigned integers,
    the `u64` literal syntax of program values, Rust's `{:?}` on strings, and
    `str::replace(c, "")`.  Each comes with the function that reads it back. */
module Format {
  import opened Wrappers
  import opened Lib

  predicate IsDigit(c: char) {
    '0' <= c <= '9'
  }

  predicate AllDigits(s: string) {
    forall i :: 0 <= i < |s| ==> IsDigit(s[i])
  }

  function DigitChar(d: nat): (c: char)
    requires d < 10
    ensures IsDigit(c) && DigitValue(c) == d
  {
    (('0' as int) + d) as char
  }

  function DigitValue(c: char): nat
    requires IsDigit(c)
  {
    (c as int) - ('0' as int)
  }

  /** Rust's `{}` on an unsigned integer: decimal digits, no leading zero. */
  function Decimal(n: nat): (s: string)
    ensures |s| >= 1 && AllDigits(s)
    ensures |s| > 1 ==> s[0] != '0'
    decreases n
  {
    if n < 10 then [DigitChar(n)] else Decimal(n / 10) + [DigitChar(n % 10)]
  }

  /** The number a string of decimal digits denotes. */
  function DigitsValue(s: string): nat
    requires AllDigits(s)
  {
    if s == [] then 0 else DigitsValue(s[..|s| - 1]) * 10 + DigitValue(s[|s| - 1])
  }

  /** Reads a non-empty string of decimal digits. */
  function ParseDecimal(s: string): (r: Option<nat>)
    ensures r.Some? <==> |s| > 0 && AllDigits(s)
  {
    if |s| > 0 && AllDigits(s) then Some(DigitsValue(s)) else None
  }

  lemma {:induction false} DecimalValue(n: nat)
    ensures DigitsValue(Decimal(n)) == n
    decreases n
  {
    if n >= 10 {
      DecimalValue(n / 10);
      var s := Decimal(n);
      assert s[..|s| - 1] == Decimal(n / 10);
    }
  }

  /** Reading back what `{}` printed gives the number. */
  lemma DecimalRoundTrip(n: nat)
    ensures ParseDecimal(Decimal(n)) == Some(n)
  {
    DecimalValue(n);
  }

  lemma DecimalInjective(m: nat, n: nat)
    ensures Decimal(m) == Decimal(n) <==> m == n
  {
    DecimalValue(m);
    DecimalValue(n);
  }

  /** `Value::from_str` on the text of a `u64` literal, such as `1000000u64`. */
  function ParseU64Literal(s: string): (r: Option<u64>)
    ensures r.Some? ==> |s| > 3 && s[|s| - 3..] == "u64" && ParseDecimal(s[..|s| - 3]) == Some(r.value)
  {
    if |s| > 3 && s[|s| - 3..] == "u64" then
      match ParseDecimal(s[..|s| - 3])
      case Some(n) => if n <= U64_MAX then Some(n) else None
      case None => None
    else None
  }

  /** `format!("{}u64", n)` parses back to `n`, so `to_inputs`' `unwrap` never panics. */
  lemma U64LiteralRoundTrip(n: u64)
    ensures ParseU64Literal(Decimal(n) + "u64") == Some(n)
  {
    var s := Decimal(n) + "u64";
    assert s[..|s| - 3] == Decimal(n);
    assert s[|s| - 3..] == "u64";
    DecimalRoundTrip(n);
  }

  /** A control character, C0, DEL or C1: not printable, so `{:?}` writes
      it as `\u{..}` unless it has a short escape. */
  predicate IsControl(c: char) {
    c < ' ' || ('\U{7F}' <= c <= '\U{9F}')
  }

  /** A lower-case hexadecimal digit. */
  function HexChar(d: nat): (c: char)
    requires d < 16
    ensures IsHex(c) && HexValue(c) == d
  {
    if d < 10 then ('0' as int + d) as char else ('a' as int + d - 10) as char
  }

  predicate IsHex(c: char) {
    '0' <= c <= '9' || 'a' <= c <= 'f'
  }

  function HexValue(c: char): nat {
    if '0' <= c <= '9' then c as int - '0' as int
    else if 'a' <= c <= 'f' then c as int - 'a' as int + 10
    else 0
  }

  /** The hexadecimal digits of a number below 256, with no leading zero. */
  function Hex(n: nat): (h: string)
    requires n < 256
    ensures 1 <= |h| <= 2 && (|h| == 2 ==> h[0] != '0')
  {
    if n < 16 then [HexChar(n)] else [HexChar(n / 16), HexChar(n % 16)]
  }

  /** How Rust's `{:?}` escapes one character of a string: the short escapes,
      then `\u{hex}` for every other control character. */
  function EscapeChar(c: char): string {
    match c
    case '"' => "\\\""
    case '\\' => "\\\\"
    case '\n' => "\\n"
    case '\r' => "\\r"
    case '\t' => "\\t"
    case '\0' => "\\0"
    case _ => if IsControl(c) then "\\u{" + Hex(c as int) + "}" else [c]
  }

  function EscapeDebug(s: string): string {
    if s == [] then "" else EscapeChar(s[0]) + EscapeDebug(s[1..])
  }

  /** Rust's `{:?}` on a string: quoted and escaped. */
  function DebugString(s: string): (d: string)
    ensures |d| >= 2 && d[0] == '"' && d[|d| - 1] == '"'
  {
    "\"" + EscapeDebug(s) + "\""
  }

  /** Reads `{hex}` at the front of `t`, one or two digits: the character and
      the length read. */
  function UnicodeEscape(t: string): (r: Option<(char, nat)>)
    ensures r.Some? ==> 3 <= r.value.1 <= |t|
  {
    if |t| >= 3 && t[0] == '{' && IsHex(t[1]) && t[2] == '}' then Some((HexValue(t[1]) as char, 3))
    else if |t| >= 4 && t[0] == '{' && IsHex(t[1]) && IsHex(t[2]) && t[3] == '}' then
      Some(((16 * HexValue(t[1]) + HexValue(t[2])) as char, 4))
    else None
  }

  /** Undoes EscapeDebug; fails on a lone backslash or an unescaped quote. */
  function UnescapeDebug(s: string): Option<string>
    decreases |s|
  {
    if s == [] then Some("")
    else if s[0] == '"' then None
    else if s[0] == '\\' then
      if |s| < 2 then None
      else if s[1] == 'u' then
        match UnicodeEscape(s[2..])
        case None => None
        case Some((x, n)) =>
          match UnescapeDebug(s[2 + n..])
          case Some(rest) => Some([x] + rest)
          case None => None
      else
        var c: Option<char> :=
          match s[1]
          case '"' => Some('"')
          case '\\' => Some('\\')
          case 'n' => Some('\n')
          case 'r' => Some('\r')
          case 't' => Some('\t')
          case '0' => Some('\0')
          case _ => None;
        match (c, UnescapeDebug(s[2..]))
        case (Some(x), Some(rest)) => Some([x] + rest)
        case _ => None
    else
      match UnescapeDebug(s[1..])
      case Some(rest) => Some([s[0]] + rest)
      case None => None
  }

  /** Unescaping reads one escaped character off the front. */
  lemma UnescapeCons(c: char, rest: string)
    ensures UnescapeDebug(EscapeChar(c) + rest) ==
            match UnescapeDebug(rest)
            case Some(r) => Some([c] + r)
            case None => None
  {
    var t := EscapeChar(c) + rest;
    if |EscapeChar(c)| == 2 {
      assert t[2..] == rest;
    } else if |EscapeChar(c)| == 1 {
      assert t[1..] == rest;
    } else {
      var h := Hex(c as int);
      assert t == "\\u{" + h + "}" + rest;
      var u := t[2..];
      assert u == "{" + h + "}" + rest;
      assert u[|h| + 2..] == rest;
      if |h| == 1 {
        assert u[1] == h[0] && u[2] == '}';
        assert UnicodeEscape(u) == Some((c, 3));
      } else {
        assert u[1] == h[0] && u[2] == h[1] && u[3] == '}';
        assert UnicodeEscape(u) == Some((c, 4));
      }
      assert t[2 + |h| + 2..] == rest;
    }
  }

  lemma {:induction false} EscapeRoundTrip(s: string)
    ensures UnescapeDebug(EscapeDebug(s)) == Some(s)
  {
    if s != [] {
      EscapeRoundTrip(s[1..]);
      UnescapeCons(s[0], EscapeDebug(s[1..]));
      assert [s[0]] + s[1..] == s;
    }
  }

  /** `{:?}` loses nothing: the quoted text determines the string. */
  lemma DebugStringRoundTrip(s: string)
    ensures var d := DebugString(s);
            |d| >= 2 && d[0] == '"' && d[|d| - 1] == '"' && UnescapeDebug(d[1..|d| - 1]) == Some(s)
  {
    var d := DebugString(s);
    assert d[1..|d| - 1] == EscapeDebug(s);
    EscapeRoundTrip(s);
  }

  /** Control characters print as `\u{..}`: BEL as `"\u{7}"`, ESC `[` as `"\u{1b}["`. */
  lemma ControlEscapeExample()
    ensures DebugString("\U{7}") == "\"\\u{7}\""
    ensures DebugString("\U{1B}[") == "\"\\u{1b}[\""
  {
    assert Hex(7) == "7";
    assert Hex(27) == "1b";
    assert EscapeDebug("\U{1B}[") == EscapeChar('\U{1B}') + EscapeDebug("[");
  }

  /** `s.replace(c, "")`: every occurrence of `c` removed, the rest kept in order. */
  function RemoveChar(s: string, c: char): (r: string)
    ensures c !in r
    ensures forall x :: x in r <==> x in s && x != c
    ensures |r| <= |s|
  {
    if s == [] then "" else (if s[0] == c then "" else [s[0]]) + RemoveChar(s[1..], c)
  }

  lemma {:induction false} RemoveCharAppend(a: string, b: string, c: char)
    ensures RemoveChar(a + b, c) == RemoveChar(a, c) + RemoveChar(b, c)
  {
    if a != [] {
      assert (a + b)[0] == a[0] && (a + b)[1..] == a[1..] + b;
      RemoveCharAppend(a[1..], b, c);
      var h := if a[0] == c then "" else [a[0]];
      calc {
        RemoveChar(a + b, c);
        h + RemoveChar(a[1..] + b, c);
        h + (RemoveChar(a[1..], c) + RemoveChar(b, c));
        (h + RemoveChar(a[1..], c)) + RemoveChar(b, c);
        RemoveChar(a, c) + RemoveChar(b, c);
      }
    } else {
      assert a + b == b;
    }
  }

  lemma {:induction false} RemoveCharAbsent(s: string, c: char)
    requires c !in s
    ensures RemoveChar(s, c) == s
  {
    if s != [] {
      RemoveCharAbsent(s[1..], c);
    }
  }

  lemma RemoveCharIdempotent(s: string, c: char)
    ensures RemoveChar(RemoveChar(s, c), c) == RemoveChar(s, c)
  {
    RemoveCharAbsent(RemoveChar(s, c), c);
  }
}
