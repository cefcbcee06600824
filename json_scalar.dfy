/** The JSON scalars a SCIM comparison filter compares against (RFC 8259,
    sections 3, 6 and 7), the scalar reader the parser hands the rest of the
    filter string to, and the text a value node renders as.

    The Java parser lends its character stream to a JSON library and then
    asks it how far it read.  Here that library is a small reader, Scan, that
    returns the value together with `offset`, the index of the literal's last
    character in the text it was given.  The parser then skips `offset + 1`
    characters, which leaves its cursor just after the literal. */
module JsonScalar {
  import opened Common

  datatype JsonValue =
    | JNull
    | JBool(b: bool)
    | JInt(i: int)
    | JString(text: string)

  datatype ScanResult =
    | EndOfInput                             // nothing but whitespace was left
    | Malformed                              // the text does not start with a JSON scalar
    | Scanned(value: JsonValue, offset: nat) // a scalar whose last character is at offset

  predicate IsJsonSpace(c: char) { c == ' ' || c == '\t' || c == '\n' || c == '\r' }

  /** Characters that may not directly follow the keywords true, false, null. */
  predicate IsIdentifierPart(c: char) { IsLetterOrDigit(c) || c == '_' || c == '$' }

  /** Read one JSON scalar from the start of t, after optional whitespace. */
  function Scan(t: string): (r: ScanResult)
    ensures r.Scanned? ==> r.offset < |t|
  {
    var i := RunEnd(t, 0, IsJsonSpace);
    if i == |t| then EndOfInput
    else if t[i] == '"' then ScanString(t, i + 1, "")
    else if t[i] == 't' then ScanKeyword(t, i, "true", JBool(true))
    else if t[i] == 'f' then ScanKeyword(t, i, "false", JBool(false))
    else if t[i] == 'n' then ScanKeyword(t, i, "null", JNull)
    else if t[i] == '-' || IsDigit(t[i]) then ScanNumber(t, i)
    else Malformed
  }

  function ScanKeyword(t: string, i: nat, keyword: string, v: JsonValue): (r: ScanResult)
    requires i < |t| && |keyword| > 0
    ensures r.Scanned? ==> r.offset < |t|
  {
    var e := i + |keyword|;
    if e <= |t| && t[i..e] == keyword && (e == |t| || !IsIdentifierPart(t[e])) then
      Scanned(v, e - 1)
    else
      Malformed
  }

  /** An optional minus sign and decimal digits without a superfluous leading
      zero.  A fraction or an exponent is not read: it is reported Malformed. */
  function ScanNumber(t: string, i: nat): (r: ScanResult)
    requires i < |t|
    ensures r.Scanned? ==> r.offset < |t|
  {
    var j := if t[i] == '-' then i + 1 else i;
    if j == |t| || !IsDigit(t[j]) then Malformed
    else
      var k := RunEnd(t, j, IsDigit);
      if t[j] == '0' && k > j + 1 then Malformed
      else if k < |t| && (t[k] == '.' || t[k] == 'e' || t[k] == 'E') then Malformed
      else
        assert forall m :: 0 <= m < k - j ==> t[j..k][m] == t[j + m];
        var n: int := DigitsValue(t[j..k]);
        Scanned(JInt(if t[i] == '-' then -n else n), k - 1)
  }

  function DigitValue(c: char): nat
    requires IsDigit(c)
  {
    c as int - '0' as int
  }

  /** The number a string of decimal digits denotes. */
  function DigitsValue(ds: string): nat
    requires forall k :: 0 <= k < |ds| ==> IsDigit(ds[k])
  {
    if ds == [] then 0 else DigitsValue(Init(ds)) * 10 + DigitValue(Last(ds))
  }

  /** The body of a string literal from index j on; acc holds what was decoded. */
  function ScanString(t: string, j: nat, acc: string): (r: ScanResult)
    ensures r.Scanned? ==> r.offset < |t|
    decreases |t| - j
  {
    if j >= |t| then Malformed
    else if t[j] == '"' then Scanned(JString(acc), j)
    else if t[j] == '\\' then
      if j + 1 >= |t| then Malformed
      else if t[j + 1] == 'u' then
        if j + 6 <= |t| && AllHex(t[j + 2..j + 6]) then
          var code := HexValue(t[j + 2..j + 6]);
          assert Pow16(4) == 0x10000;
          if 0xD800 <= code < 0xDC00 then ScanLowSurrogate(t, j + 6, acc, code)
          else if 0xDC00 <= code < 0xE000 then Malformed
          else ScanString(t, j + 6, acc + [code as char])
        else Malformed
      else match Unescape(t[j + 1])
        case Some(c) => ScanString(t, j + 2, acc + [c])
        case None => Malformed
    else if t[j] < ' ' then Malformed
    else ScanString(t, j + 1, acc + [t[j]])
  }

  /** After a high-surrogate escape at j - 6: a low-surrogate escape must
      follow, and the pair stands for one character above U+FFFF. */
  function ScanLowSurrogate(t: string, j: nat, acc: string, high: nat): (r: ScanResult)
    requires 0xD800 <= high < 0xDC00
    ensures r.Scanned? ==> r.offset < |t|
    decreases |t| - j, 0
  {
    if j + 6 <= |t| && t[j] == '\\' && t[j + 1] == 'u' && AllHex(t[j + 2..j + 6]) then
      var low := HexValue(t[j + 2..j + 6]);
      assert Pow16(4) == 0x10000;
      if 0xDC00 <= low < 0xE000 then
        ScanString(t, j + 6, acc + [(0x10000 + (high - 0xD800) * 0x400 + (low - 0xDC00)) as char])
      else Malformed
    else Malformed
  }

  /** The two-character escapes of RFC 8259 section 7. */
  function Unescape(e: char): Option<char> {
    if e == '"' then Some('"')
    else if e == '\\' then Some('\\')
    else if e == '/' then Some('/')
    else if e == 'b' then Some(8 as char)
    else if e == 'f' then Some(12 as char)
    else if e == 'n' then Some('\n')
    else if e == 'r' then Some('\r')
    else if e == 't' then Some('\t')
    else None
  }

  predicate IsHex(c: char) { IsDigit(c) || ('a' <= c <= 'f') || ('A' <= c <= 'F') }

  predicate AllHex(s: string) { forall k :: 0 <= k < |s| ==> IsHex(s[k]) }

  function HexDigitValue(c: char): nat
    requires IsHex(c)
  {
    if IsDigit(c) then c as int - '0' as int
    else if 'a' <= c <= 'f' then c as int - 'a' as int + 10
    else c as int - 'A' as int + 10
  }

  function HexValue(s: string): (n: nat)
    requires AllHex(s)
    ensures n < Pow16(|s|)
  {
    if s == [] then 0 else HexValue(Init(s)) * 16 + HexDigitValue(Last(s))
  }

  function Pow16(k: nat): nat { if k == 0 then 1 else 16 * Pow16(k - 1) }

  // ---------------------------------------------------------------------
  // Rendering: the text ValueNode.toString gives for each scalar.

  function Render(v: JsonValue): string {
    match v
    case JNull => "null"
    case JBool(b) => if b then "true" else "false"
    case JInt(i) => if i < 0 then "-" + Decimal(-i) else Decimal(i)
    case JString(text) => "\"" + EscapeText(text) + "\""
  }

  function DigitChar(d: nat): char
    requires d < 10
  {
    ('0' as int + d) as char
  }

  /** The decimal digits of n, without leading zeros. */
  function Decimal(n: nat): (ds: string)
    ensures |ds| > 0
    ensures forall k :: 0 <= k < |ds| ==> IsDigit(ds[k])
    ensures ds[0] == '0' ==> n == 0 && |ds| == 1
  {
    if n < 10 then [DigitChar(n)] else Decimal(n / 10) + [DigitChar(n % 10)]
  }

  function HexChar(d: nat): char
    requires d < 16
  {
    if d < 10 then DigitChar(d) else ('A' as int + d - 10) as char
  }

  function EscapeChar(c: char): string {
    if c == '"' then "\\\""
    else if c == '\\' then "\\\\"
    else if c == 8 as char then "\\b"
    else if c == '\t' then "\\t"
    else if c == '\n' then "\\n"
    else if c == 12 as char then "\\f"
    else if c == '\r' then "\\r"
    else if c < ' ' then "\\u00" + [HexChar(c as int / 16), HexChar(c as int % 16)]
    else [c]
  }

  function EscapeText(text: string): string {
    if text == [] then "" else EscapeChar(text[0]) + EscapeText(text[1..])
  }

  // ---------------------------------------------------------------------
  // The reader reads back what a value renders as.

  /** What may follow a literal inside a filter: nothing, a space, or a
      closing parenthesis or bracket. */
  predicate EndsLiteral(rest: string) {
    rest == [] || rest[0] == ' ' || rest[0] == ')' || rest[0] == ']'
  }

  /** Reading the rendering of any scalar gives that scalar back, and the
      reported offset is the rendering's last character, so the parser's
      skip(offset + 1) lands right after it. */
  lemma {:induction false} ScanRender(v: JsonValue, rest: string)
    requires EndsLiteral(rest)
    ensures Scan(Render(v) + rest) == Scanned(v, |Render(v)| - 1)
  {
    match v
    case JNull => ScanKeywordLiteral("null", JNull, rest);
    case JBool(b) =>
      if b { ScanKeywordLiteral("true", v, rest); } else { ScanKeywordLiteral("false", v, rest); }
    case JInt(i) => ScanIntLiteral(i, rest);
    case JString(text) => ScanStringLiteral(text, rest);
  }

  lemma ScanKeywordLiteral(keyword: string, v: JsonValue, rest: string)
    requires EndsLiteral(rest)
    requires (keyword, v) in {("null", JNull), ("true", JBool(true)), ("false", JBool(false))}
    ensures Scan(keyword + rest) == Scanned(v, |keyword| - 1)
  {
    var t := keyword + rest;
    RunEndIs(t, 0, IsJsonSpace, 0);
    assert t[0..|keyword|] == keyword;
    assert ScanKeyword(t, 0, keyword, v) == Scanned(v, |keyword| - 1);
  }

  lemma ScanStringLiteral(text: string, rest: string)
    ensures Scan(Render(JString(text)) + rest) == Scanned(JString(text), |Render(JString(text))| - 1)
  {
    var e := EscapeText(text);
    var t := Render(JString(text)) + rest;
    QuotedAt(t, e, rest);
    RunEndIs(t, 0, IsJsonSpace, 0);
    assert Scan(t) == ScanString(t, 1, "");
    ScanEscapedText(t, 1, "", text);
    assert "" + text == text;
  }

  lemma QuotedAt(t: string, e: string, rest: string)
    requires t == "\"" + e + "\"" + rest
    ensures |t| > 0 && t[0] == '"' && At(t, 1, e + "\"")
  {
    assert t[1..1 + |e| + 1] == e + "\"";
    AtSlice(t, 1, e + "\"");
  }

  lemma {:induction false} ScanIntLiteral(i: int, rest: string)
    requires EndsLiteral(rest)
    ensures Scan(Render(JInt(i)) + rest) == Scanned(JInt(i), |Render(JInt(i))| - 1)
  {
    var sign := if i < 0 then "-" else "";
    var n: nat := if i < 0 then -i else i;
    var ds := Decimal(n);
    var t := Render(JInt(i)) + rest;
    IntText(i, sign, n, ds, rest, t);
    ScanNumberStart(t);
    ScanDigitsLiteral(t, sign, ds, rest);
    DecimalValue(n);
  }

  /** The rendering of an integer is its sign, then its digits. */
  lemma IntText(i: int, sign: string, n: nat, ds: string, rest: string, t: string)
    requires sign == (if i < 0 then "-" else "") && n == (if i < 0 then -i else i)
    requires ds == Decimal(n) && t == Render(JInt(i)) + rest
    ensures t == sign + ds + rest && |Render(JInt(i))| == |sign| + |ds|
    ensures |t| > 0 && (t[0] == '-' || IsDigit(t[0]))
  {
    assert Render(JInt(i)) == sign + ds;
    assert t[0] == if i < 0 then '-' else ds[0];
  }

  lemma ScanNumberStart(t: string)
    requires |t| > 0 && (t[0] == '-' || IsDigit(t[0]))
    ensures Scan(t) == ScanNumber(t, 0)
  {
    RunEndIs(t, 0, IsJsonSpace, 0);
  }

  lemma {:induction false} ScanDigitsLiteral(t: string, sign: string, ds: string, rest: string)
    requires sign == "" || sign == "-"
    requires |ds| > 0 && (forall k :: 0 <= k < |ds| ==> IsDigit(ds[k]))
    requires ds[0] == '0' ==> |ds| == 1
    requires EndsLiteral(rest)
    requires t == sign + ds + rest
    ensures var n: int := DigitsValue(ds);
            ScanNumber(t, 0) == Scanned(JInt(if sign == "-" then -n else n), |sign| + |ds| - 1)
  {
    var j := |sign|;
    assert t[0] == '-' <==> sign == "-";
    assert t[j..] == ds + rest;
    DigitsRun(t, j, ds, rest);
    var k := j + |ds|;
    assert t[j] == ds[0];
    assert !(k < |t| && (t[k] == '.' || t[k] == 'e' || t[k] == 'E'));
  }

  lemma DigitsRun(t: string, j: nat, ds: string, rest: string)
    requires forall k :: 0 <= k < |ds| ==> IsDigit(ds[k])
    requires EndsLiteral(rest)
    requires j <= |t| && t[j..] == ds + rest
    ensures j + |ds| <= |t| && t[j..j + |ds|] == ds
    ensures RunEnd(t, j, IsDigit) == j + |ds|
    ensures j + |ds| < |t| ==> t[j + |ds|] == rest[0]
  {
    assert t[j..j + |ds|] == (ds + rest)[..|ds|];
    forall k | j <= k < j + |ds| ensures IsDigit(t[k]) {
      assert t[k] == (ds + rest)[k - j];
    }
    if j + |ds| < |t| {
      assert t[j + |ds|] == (ds + rest)[|ds|];
    }
    RunEndIs(t, j, IsDigit, j + |ds|);
  }

  /** Decimal and DigitsValue are inverse. */
  lemma {:induction false} DecimalValue(n: nat)
    ensures DigitsValue(Decimal(n)) == n
  {
    if n >= 10 {
      DecimalValue(n / 10);
      var ds := Decimal(n);
      assert Init(ds) == Decimal(n / 10);
    }
  }

  /** Reading the escaped text of `text` followed by a closing quote appends
      exactly `text` to what was decoded so far. */
  lemma {:induction false} ScanEscapedText(t: string, j: nat, acc: string, text: string)
    requires At(t, j, EscapeText(text) + "\"")
    ensures ScanString(t, j, acc) == Scanned(JString(acc + text), j + |EscapeText(text)|)
    decreases |text|, 2
  {
    if text == [] {
      assert EscapeText(text) + "\"" == "\"";
      ScanClosingQuote(t, j, acc);
      assert acc + text == acc;
    } else {
      ScanEscapedCons(t, j, acc, text);
    }
  }

  lemma {:induction false} ScanEscapedCons(t: string, j: nat, acc: string, text: string)
    requires text != [] && At(t, j, EscapeText(text) + "\"")
    ensures ScanString(t, j, acc) == Scanned(JString(acc + text), j + |EscapeText(text)|)
    decreases |text|, 1
  {
    var c := text[0];
    var ec := EscapeChar(c);
    var er := EscapeText(text[1..]);
    assert EscapeText(text) == ec + er;
    AtSplitQuoted(t, j, ec, er);
    ScanEscapedStep(t, j, acc, c, ec, er, text[1..]);
    assert acc + [c] + text[1..] == acc + text;
  }

  lemma ScanClosingQuote(t: string, j: nat, acc: string)
    requires At(t, j, "\"")
    ensures ScanString(t, j, acc) == Scanned(JString(acc), j)
  {
    AtIndex(t, j, "\"", 0);
  }

  /** One character of ScanEscapedText: its escape, then the rest. */
  lemma {:induction false} ScanEscapedStep(t: string, j: nat, acc: string, c: char, ec: string,
                                           er: string, tail: string)
    requires ec == EscapeChar(c) && er == EscapeText(tail)
    requires At(t, j, ec) && At(t, j + |ec|, er + "\"") && j + |ec| < |t|
    ensures ScanString(t, j, acc) == Scanned(JString(acc + [c] + tail), j + |ec| + |er|)
    decreases |tail| + 1, 0
  {
    ScanEscapedChar(t, j, acc, c);
    ScanEscapedText(t, j + |ec|, acc + [c], tail);
  }

  lemma AtSplitQuoted(t: string, j: nat, a: string, b: string)
    requires At(t, j, a + b + "\"")
    ensures At(t, j, a) && At(t, j + |a|, b + "\"") && j + |a| < |t|
  {
    assert a + b + "\"" == a + (b + "\"");
    AtSplit(t, j, a, b + "\"");
  }

  lemma ScanEscapedChar(t: string, j: nat, acc: string, c: char)
    requires At(t, j, EscapeChar(c)) && j + |EscapeChar(c)| < |t|
    ensures ScanString(t, j, acc) == ScanString(t, j + |EscapeChar(c)|, acc + [c])
  {
    var ec := EscapeChar(c);
    assert forall k :: 0 <= k < |ec| ==> t[j + k] == ec[k] by {
      forall k | 0 <= k < |ec| ensures t[j + k] == ec[k] { AtIndex(t, j, ec, k); }
    }
    if c == '"' || c == '\\' || c == 8 as char || c == '\t' || c == '\n'
       || c == 12 as char || c == '\r' {
      assert |ec| == 2 && t[j] == '\\' && t[j + 1] == ec[1];
      assert Unescape(ec[1]) == Some(c);
    } else if c < ' ' {
      var hi, lo := c as int / 16, c as int % 16;
      assert t[j] == '\\' && t[j + 1] == 'u';
      var hex := t[j + 2..j + 6];
      assert ec == "\\u00" + [HexChar(hi), HexChar(lo)];
      assert ec[2] == '0' && ec[3] == '0' && ec[4] == HexChar(hi) && ec[5] == HexChar(lo);
      assert t[j + 2] == ec[2] && t[j + 3] == ec[3] && t[j + 4] == ec[4] && t[j + 5] == ec[5];
      assert hex == ['0', '0', HexChar(hi), HexChar(lo)];
      HexCharValue(hi);
      HexCharValue(lo);
      HexValue4(hex);
      assert HexValue(hex) == c as int;
    } else {
      assert t[j] == c;
    }
  }

  lemma HexCharValue(d: nat)
    requires d < 16
    ensures IsHex(HexChar(d)) && HexDigitValue(HexChar(d)) == d
  {
  }

  lemma HexValue4(s: string)
    requires |s| == 4 && AllHex(s)
    ensures HexValue(s) == ((HexDigitValue(s[0]) * 16 + HexDigitValue(s[1])) * 16
                            + HexDigitValue(s[2])) * 16 + HexDigitValue(s[3])
  {
    assert Init(s) == s[..3];
    assert Init(s[..3]) == s[..2];
    assert Init(s[..2]) == s[..1];
    assert Init(s[..1]) == [];
  }
  // ---------------------------------------------------------------------
  // Characters above U+FFFF, written as a pair of surrogate escapes

  /** Four upper-case hex digits of n. */
  function Hex4(n: nat): (h: string)
    requires n < 0x10000
    ensures |h| == 4
  {
    [HexChar(n / 0x1000), HexChar(n / 0x100 % 16), HexChar(n / 16 % 16), HexChar(n % 16)]
  }

  lemma Hex4Value(n: nat)
    requires n < 0x10000
    ensures AllHex(Hex4(n)) && HexValue(Hex4(n)) == n
  {
    var h := Hex4(n);
    var d0, d1, d2, d3 := n / 0x1000, n / 0x100 % 16, n / 16 % 16, n % 16;
    HexDigits4(n, d0, d1, d2, d3);
    assert h == [HexChar(d0), HexChar(d1), HexChar(d2), HexChar(d3)];
    HexCharValue(d0);
    HexCharValue(d1);
    HexCharValue(d2);
    HexCharValue(d3);
    HexValue4(h);
  }

  /** The four hex digits of n below 16^4, most significant first. */
  lemma HexDigits4(n: nat, d0: nat, d1: nat, d2: nat, d3: nat)
    requires n < 0x10000
    requires d0 == n / 0x1000 && d1 == n / 0x100 % 16 && d2 == n / 16 % 16 && d3 == n % 16
    ensures d0 < 16 && d1 < 16 && d2 < 16 && d3 < 16
    ensures ((d0 * 16 + d1) * 16 + d2) * 16 + d3 == n
  {
    assert n / 0x100 == d0 * 16 + d1;
    assert n / 16 == n / 0x100 * 16 + d2;
    assert n == n / 16 * 16 + d3;
  }

  /** The UTF-16 escape of a character above U+FFFF: a high and a low
      surrogate, each as a \u escape. */
  function SurrogateEscape(c: char): (e: string)
    requires c as int >= 0x10000
    ensures |e| == 12
  {
    var v := c as int - 0x10000;
    "\\u" + Hex4(0xD800 + v / 0x400) + "\\u" + Hex4(0xDC00 + v % 0x400)
  }

  /** A surrogate pair is read back as the one character it encodes. */
  lemma ScanSurrogateEscape(t: string, j: nat, acc: string, c: char)
    requires c as int >= 0x10000 && At(t, j, SurrogateEscape(c))
    ensures ScanString(t, j, acc) == ScanString(t, j + 12, acc + [c])
  {
    var v := c as int - 0x10000;
    var high, low := 0xD800 + v / 0x400, 0xDC00 + v % 0x400;
    SurrogateHalves(c, high, low);
    var h, l := "\\u" + Hex4(high), "\\u" + Hex4(low);
    assert SurrogateEscape(c) == h + l;
    AtSplit(t, j, h, l);
    UnicodeEscapeAt(t, j, Hex4(high));
    UnicodeEscapeAt(t, j + 6, Hex4(low));
    Hex4Value(high);
    Hex4Value(low);
  }

  /** The two halves of a character above U+FFFF, as SurrogateEscape
      writes them, lie in the high and low ranges and recombine into it. */
  lemma SurrogateHalves(c: char, high: int, low: int)
    requires c as int >= 0x10000
    requires high == 0xD800 + (c as int - 0x10000) / 0x400
    requires low == 0xDC00 + (c as int - 0x10000) % 0x400
    ensures 0xD800 <= high < 0xDC00 && 0xDC00 <= low < 0xE000
    ensures (0x10000 + (high - 0xD800) * 0x400 + (low - 0xDC00)) as char == c
  {
  }

  /** "\\u" followed by four characters h, at index j of t. */
  lemma UnicodeEscapeAt(t: string, j: nat, h: string)
    requires |h| == 4 && At(t, j, "\\u" + h)
    ensures j + 6 <= |t| && t[j] == '\\' && t[j + 1] == 'u' && t[j + 2..j + 6] == h
  {
    AtSplit(t, j, "\\u", h);
    AtIndex(t, j, "\\u", 0);
    AtIndex(t, j, "\\u", 1);
    AtSlice(t, j + 2, h);
  }

  /** A string literal holding one character above U+FFFF as its escape
      pair reads as that one character. */
  lemma ScanSurrogateString(c: char)
    requires c as int >= 0x10000
    ensures Scan("\"" + SurrogateEscape(c) + "\"") == Scanned(JString([c]), 13)
  {
    var t := "\"" + SurrogateEscape(c) + "\"";
    assert t[0] == '"' && !IsJsonSpace(t[0]);
    assert RunEnd(t, 0, IsJsonSpace) == 0;
    assert t[1..13] == SurrogateEscape(c);
    AtSlice(t, 1, SurrogateEscape(c));
    ScanSurrogateEscape(t, 1, "", c);
    assert t[13] == '"';
    assert "" + [c] == [c];
  }
}
