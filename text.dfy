/** String operations of Python that the rest of the model relies on:
    `str.split(sep)` on a one-character separator, `sep.join(parts)`,
    UTF-8 encoding and decoding, `strip`/`rstrip`, `upper`/`lower`,
    `startswith`/`endswith`, code-point ordering of strings, `str(int)`
    and `repr(str)`. Python strings are sequences of code points; a Dafny
    `char` is a Unicode scalar value, so lone surrogates are not modelled. */
module Text {

  datatype Option<T> = None | Some(value: T)

  /** A Python call either returns a value or raises. */
  datatype Result<T> = Ok(value: T) | Err(error: Error)

  /** The Python exceptions the modelled code raises. */
  datatype Error =
    | KeyError
    | IndexError
    | TypeError
    | AttributeError
    | AssertionError
    | NotImplementedError(name: string)
    | FileNotFoundError(spec: string)
    | Raised(message: string)

  type byte = b: int | 0 <= b < 256

  // ---------------------------------------------------------------------
  // split / join

  /** Python `s.split(c)` for a one-character separator: never empty,
      and consecutive separators give empty pieces. */
  function Split(s: string, c: char): (r: seq<string>)
    ensures |r| >= 1
    ensures forall i :: 0 <= i < |r| ==> c !in r[i]
    decreases |s|
  {
    if |s| == 0 then [""]
    else if s[0] == c then [""] + Split(s[1..], c)
    else
      var t := Split(s[1..], c);
      [[s[0]] + t[0]] + t[1..]
  }

  /** Python `sep.join(parts)`. */
  function Join(sep: string, parts: seq<string>): string
    decreases |parts|
  {
    if |parts| == 0 then ""
    else if |parts| == 1 then parts[0]
    else parts[0] + sep + Join(sep, parts[1..])
  }

  /** Joining the pieces of a split with the same separator gives back the
      original string. */
  lemma {:induction false} JoinSplit(s: string, c: char)
    ensures Join([c], Split(s, c)) == s
    decreases |s|
  {
    if |s| > 0 {
      JoinSplit(s[1..], c);
      var t := Split(s[1..], c);
      if s[0] == c {
        JoinCons([c], "", t);
      } else {
        JoinExtendHead([c], s[0], t);
      }
      assert s == [s[0]] + s[1..];
    }
  }

  lemma JoinCons(sep: string, x: string, t: seq<string>)
    requires |t| >= 1
    ensures Join(sep, [x] + t) == x + sep + Join(sep, t)
  {
    assert ([x] + t)[1..] == t;
  }

  /** Putting a character in front of the first part puts it in front of
      the join. */
  lemma JoinExtendHead(sep: string, ch: char, t: seq<string>)
    requires |t| >= 1
    ensures Join(sep, [[ch] + t[0]] + t[1..]) == [ch] + Join(sep, t)
  {
    if |t| > 1 {
      JoinCons(sep, [ch] + t[0], t[1..]);
      JoinCons(sep, t[0], t[1..]);
      assert t == [t[0]] + t[1..];
    }
  }

  /** Joining two non-empty lists is joining their joins. */
  lemma {:induction false} JoinAppend(sep: string, a: seq<string>, b: seq<string>)
    requires |a| >= 1 && |b| >= 1
    ensures Join(sep, a + b) == Join(sep, a) + sep + Join(sep, b)
    decreases |a|
  {
    if |a| == 1 {
      assert (a + b)[1..] == b;
    } else {
      JoinAppend(sep, a[1..], b);
      assert (a + b)[1..] == a[1..] + b;
    }
  }

  /** Splitting a join of separator-free parts gives the parts back. */
  lemma {:induction false} SplitJoin(parts: seq<string>, c: char)
    requires |parts| >= 1
    requires forall i :: 0 <= i < |parts| ==> c !in parts[i]
    ensures Split(Join([c], parts), c) == parts
    decreases |parts|, |parts[0]|
  {
    if |parts[0]| == 0 {
      if |parts| == 1 {
      } else {
        SplitJoin(parts[1..], c);
        assert Join([c], parts) == [c] + Join([c], parts[1..]);
        assert (([c] + Join([c], parts[1..])))[1..] == Join([c], parts[1..]);
        assert parts == [""] + parts[1..];
      }
    } else {
      var p0 := parts[0][1..];
      var rest := [p0] + parts[1..];
      SplitJoin(rest, c);
      assert parts[0] == [parts[0][0]] + p0;
      var j := Join([c], parts);
      var jr := Join([c], rest);
      if |parts| == 1 {
        assert j == parts[0];
        assert jr == p0;
      } else {
        assert j == parts[0] + [c] + Join([c], parts[1..]);
        assert jr == p0 + [c] + Join([c], rest[1..]);
        assert rest[1..] == parts[1..];
      }
      assert j == [parts[0][0]] + jr;
      assert j[0] == parts[0][0] && j[1..] == jr;
      assert parts[0][0] != c by { assert parts[0][0] in parts[0]; }
      var t := Split(jr, c);
      assert t == rest;
      assert parts == [[parts[0][0]] + t[0]] + t[1..];
    }
  }

  // ---------------------------------------------------------------------
  // prefixes and suffixes

  predicate StartsWith(s: string, p: string) {
    |p| <= |s| && s[..|p|] == p
  }

  predicate EndsWith(s: string, p: string) {
    |p| <= |s| && s[|s| - |p|..] == p
  }

  /** A concatenation starts with its first part and ends with its last. */
  lemma Affixes(a: string, b: string, c: string)
    ensures StartsWith(a + b + c, a) && EndsWith(a + b + c, c)
  {
    assert (a + b + c)[..|a|] == a;
    assert (a + b + c)[|a + b|..] == c;
  }

  // ---------------------------------------------------------------------
  // UTF-8

  function EncodeChar(c: char): (r: seq<byte>)
    ensures 1 <= |r| <= 4
  {
    var cp := c as int;
    if cp < 0x80 then [cp]
    else if cp < 0x800 then [0xC0 + cp / 64, 0x80 + cp % 64]
    else if cp < 0x1_0000 then [0xE0 + cp / 4096, 0x80 + (cp / 64) % 64, 0x80 + cp % 64]
    else [0xF0 + cp / 262144, 0x80 + (cp / 4096) % 64, 0x80 + (cp / 64) % 64, 0x80 + cp % 64]
  }

  /** Python `s.encode('utf8')`. */
  function Utf8Encode(s: string): seq<byte>
    decreases |s|
  {
    if |s| == 0 then [] else EncodeChar(s[0]) + Utf8Encode(s[1..])
  }

  predicate IsScalar(cp: int) {
    (0 <= cp < 0xD800) || (0xE000 <= cp < 0x11_0000)
  }

  predicate IsContinuation(b: byte) {
    0x80 <= b < 0xC0
  }

  /** Length of the sequence a leading byte announces; 0 for a byte that
      cannot start one. */
  function SeqLength(lead: byte): nat {
    if lead < 0x80 then 1
    else if 0xC0 <= lead < 0xE0 then 2
    else if 0xE0 <= lead < 0xF0 then 3
    else if 0xF0 <= lead < 0xF8 then 4
    else 0
  }

  /** The code point of the sequence at the start of `b`, if it is a
      well-formed, shortest-form encoding of a scalar value. */
  function DecodeFirst(b: seq<byte>): Option<(char, nat)>
    requires |b| > 0
  {
    var n := SeqLength(b[0]);
    if n == 0 || |b| < n then None
    else if n == 1 then Some((b[0] as char, 1))
    else if exists k :: 1 <= k < n && !IsContinuation(b[k]) then None
    else
      var b0, b1, b2 := b[0] as int, b[1] as int, if n >= 3 then b[2] as int else 0x80;
      var b3 := if n == 4 then b[3] as int else 0x80;
      var cp :=
        if n == 2 then (b0 - 0xC0) * 64 + (b1 - 0x80)
        else if n == 3 then (b0 - 0xE0) * 4096 + (b1 - 0x80) * 64 + (b2 - 0x80)
        else (b0 - 0xF0) * 262144 + (b1 - 0x80) * 4096 + (b2 - 0x80) * 64 + (b3 - 0x80);
      var least: int := if n == 2 then 0x80 else if n == 3 then 0x800 else 0x1_0000;
      if cp < least || !IsScalar(cp) then None else Some((cp as char, n))
  }

  /** Python `b.decode('utf8')`: `None` for bytes that are not UTF-8. */
  function Utf8Decode(b: seq<byte>): Option<string>
    decreases |b|
  {
    if |b| == 0 then Some("")
    else match DecodeFirst(b)
      case None => None
      case Some((c, n)) =>
        match Utf8Decode(b[n..])
        case None => None
        case Some(rest) => Some([c] + rest)
  }

  lemma Decode2(cp: int, e: seq<byte>)
    requires 0x80 <= cp < 0x800 && IsScalar(cp)
    requires |e| >= 2 && e[0] == 0xC0 + cp / 64 && e[1] == 0x80 + cp % 64
    ensures DecodeFirst(e) == Some((cp as char, 2))
  {
    var hi, lo := cp / 64, cp % 64;
    assert cp == hi * 64 + lo;
    assert SeqLength(e[0]) == 2;
    assert IsContinuation(e[1]);
  }

  lemma Decode3(cp: int, e: seq<byte>)
    requires 0x800 <= cp < 0x1_0000 && IsScalar(cp)
    requires |e| >= 3 && e[0] == 0xE0 + cp / 4096
    requires e[1] == 0x80 + (cp / 64) % 64 && e[2] == 0x80 + cp % 64
    ensures DecodeFirst(e) == Some((cp as char, 3))
  {
    var q := cp / 64;
    assert cp == q * 64 + cp % 64;
    assert q == (cp / 4096) * 64 + q % 64;
    assert SeqLength(e[0]) == 3;
    assert IsContinuation(e[1]) && IsContinuation(e[2]);
  }

  lemma Decode4(cp: int, e: seq<byte>)
    requires 0x1_0000 <= cp < 0x11_0000
    requires |e| >= 4 && e[0] == 0xF0 + cp / 262144
    requires e[1] == 0x80 + (cp / 4096) % 64
    requires e[2] == 0x80 + (cp / 64) % 64 && e[3] == 0x80 + cp % 64
    ensures DecodeFirst(e) == Some((cp as char, 4))
  {
    var q := cp / 64;
    var r := cp / 4096;
    assert cp == q * 64 + cp % 64;
    assert q == r * 64 + q % 64;
    assert r == (cp / 262144) * 64 + r % 64;
    assert SeqLength(e[0]) == 4;
    assert IsContinuation(e[1]) && IsContinuation(e[2]) && IsContinuation(e[3]);
  }

  lemma DecodeEncodedChar(c: char, rest: seq<byte>)
    ensures var e := EncodeChar(c) + rest;
            |e| > 0 && DecodeFirst(e) == Some((c, |EncodeChar(c)|))
  {
    var cp := c as int;
    var e := EncodeChar(c) + rest;
    if cp < 0x80 {
    } else if cp < 0x800 {
      Decode2(cp, e);
    } else if cp < 0x1_0000 {
      Decode3(cp, e);
    } else {
      Decode4(cp, e);
    }
  }

  /** Decoding what was encoded gives the string back: UTF-8 is lossless. */
  lemma {:induction false} Utf8RoundTrip(s: string)
    ensures Utf8Decode(Utf8Encode(s)) == Some(s)
    decreases |s|
  {
    if |s| > 0 {
      var e := Utf8Encode(s);
      assert e == EncodeChar(s[0]) + Utf8Encode(s[1..]);
      DecodeEncodedChar(s[0], Utf8Encode(s[1..]));
      assert e[|EncodeChar(s[0])|..] == Utf8Encode(s[1..]);
      Utf8RoundTrip(s[1..]);
      assert s == [s[0]] + s[1..];
    }
  }

  /** Number of bytes in the UTF-8 encoding, as Python's
      `len(s.encode('utf8'))`. */
  function Utf8Size(s: string): nat {
    |Utf8Encode(s)|
  }

  // ---------------------------------------------------------------------
  // whitespace, case

  /** Python's `str.isspace()` for one code point. */
  predicate IsSpace(c: char) {
    c == ' ' || ('\t' <= c <= '\r') || ('\U{1c}' <= c <= '\U{1f}')
    || c == '\U{85}' || c == '\U{a0}' || c == '\U{1680}'
    || ('\U{2000}' <= c <= '\U{200a}') || c == '\U{2028}' || c == '\U{2029}'
    || c == '\U{202f}' || c == '\U{205f}' || c == '\U{3000}'
  }

  /** Every character of `t` is whitespace. */
  predicate AllSpace(t: string) {
    forall i :: 0 <= i < |t| ==> IsSpace(t[i])
  }

  /** Python `s.rstrip()`. */
  function RStrip(s: string): (r: string)
    ensures |r| <= |s| && r == s[..|r|]
    ensures |r| > 0 ==> !IsSpace(r[|r| - 1])
    ensures AllSpace(s[|r|..])
    decreases |s|
  {
    if |s| > 0 && IsSpace(s[|s| - 1]) then RStrip(s[..|s| - 1]) else s
  }

  /** Python `s.lstrip()`. */
  function LStrip(s: string): (r: string)
    ensures |r| <= |s| && r == s[|s| - |r|..]
    ensures |r| > 0 ==> !IsSpace(r[0])
    ensures AllSpace(s[..|s| - |r|])
    decreases |s|
  {
    if |s| > 0 && IsSpace(s[0]) then LStrip(s[1..]) else s
  }

  /** Python `s.strip()`. */
  function Strip(s: string): string {
    LStrip(RStrip(s))
  }

  /** Python `s.rstrip(c)` for one character. */
  function RStripChar(s: string, c: char): (r: string)
    ensures |r| <= |s| && r == s[..|r|]
    ensures |r| > 0 ==> r[|r| - 1] != c
    ensures forall i :: |r| <= i < |s| ==> s[i] == c
    decreases |s|
  {
    if |s| > 0 && s[|s| - 1] == c then RStripChar(s[..|s| - 1], c) else s
  }

  /** `s.upper()` restricted to ASCII letters. */
  function Upper(s: string): (r: string)
    ensures |r| == |s|
  {
    seq(|s|, i requires 0 <= i < |s| => if 'a' <= s[i] <= 'z' then (s[i] as int - 32) as char else s[i])
  }

  /** `s.lower()` restricted to ASCII letters. */
  function Lower(s: string): (r: string)
    ensures |r| == |s|
  {
    seq(|s|, i requires 0 <= i < |s| => if 'A' <= s[i] <= 'Z' then (s[i] as int + 32) as char else s[i])
  }

  /** Python `sub in s` for strings. */
  predicate Contains(s: string, sub: string) {
    exists i :: 0 <= i <= |s| - |sub| && OccursAt(s, sub, i)
  }

  predicate OccursAt(s: string, sub: string, i: int) {
    0 <= i <= |s| - |sub| && s[i..i + |sub|] == sub
  }

  /** Python `s.replace(a, b)` for single characters. */
  function ReplaceChar(s: string, a: char, b: char): (r: string)
    ensures |r| == |s|
    ensures a != b ==> a !in r
  {
    seq(|s|, i requires 0 <= i < |s| => if s[i] == a then b else s[i])
  }

  // ---------------------------------------------------------------------
  // ordering

  /** Python's `<=` on strings: lexicographic by code point. */
  predicate LexLe(a: string, b: string)
    decreases |a|
  {
    |a| == 0 || (|b| > 0 && (a[0] < b[0] || (a[0] == b[0] && LexLe(a[1..], b[1..]))))
  }

  lemma {:induction false} LexLeTotal(a: string, b: string)
    ensures LexLe(a, b) || LexLe(b, a)
    decreases |a|
  {
    if |a| > 0 && |b| > 0 && a[0] == b[0] {
      LexLeTotal(a[1..], b[1..]);
    }
  }

  lemma {:induction false} LexLeTrans(a: string, b: string, c: string)
    requires LexLe(a, b) && LexLe(b, c)
    ensures LexLe(a, c)
    decreases |a|
  {
    if |a| > 0 && a[0] == b[0] && b[0] == c[0] {
      LexLeTrans(a[1..], b[1..], c[1..]);
    }
  }

  lemma {:induction false} LexLeAntisym(a: string, b: string)
    requires LexLe(a, b) && LexLe(b, a)
    ensures a == b
    decreases |a|
  {
    if |a| > 0 {
      LexLeAntisym(a[1..], b[1..]);
      assert a == [a[0]] + a[1..] && b == [b[0]] + b[1..];
    }
  }

  // ---------------------------------------------------------------------
  // formatting

  function DigitChar(d: nat): char
    requires d < 10
  {
    "0123456789"[d]
  }

  /** Python `str(n)` for a natural number. */
  function NatToString(n: nat): (r: string)
    ensures |r| >= 1
    ensures forall i :: 0 <= i < |r| ==> '0' <= r[i] <= '9'
  {
    if n < 10 then [DigitChar(n)] else NatToString(n / 10) + [DigitChar(n % 10)]
  }

  /** Python `repr(s)`: single quotes unless the text holds a single quote
      and no double quote; backslash, the chosen quote, newline, carriage
      return and tab are escaped. */
  function Repr(s: string): (r: string)
    ensures |r| >= 2 && r[0] == r[|r| - 1] && r[0] in "'\""
  {
    var q := if '\'' in s && '"' !in s then '"' else '\'';
    [q] + Escape(s, q) + [q]
  }

  function Escape(s: string, q: char): string
    decreases |s|
  {
    if |s| == 0 then ""
    else
      var c := s[0];
      var e :=
        if c == '\\' then "\\\\"
        else if c == q then ['\\', q]
        else if c == '\n' then "\\n"
        else if c == '\r' then "\\r"
        else if c == '\t' then "\\t"
        else [c];
      e + Escape(s[1..], q)
  }
}
