/** Shared vocabulary of the SCIM filter/path parser model: optional values,
    parse outcomes, the parse errors the parser raises, and the character
    classes and string helpers the Java code takes from java.lang. */
module Common {

  datatype Option<+T> = None | Some(value: T)

  /** The failures the parser raises.  The Java code throws
      IllegalArgumentException with a formatted message; the model keeps the
      kind of failure and the 0-based position the message reports. */
  datatype ParseError =
    | UnexpectedCharacter(at: nat, tokenStart: nat)      // a character no token may hold
    | UnexpectedEndOfPath                                // a '.' with nothing after it
    | AttributeNameExpected(at: nat)                     // an empty path segment
    | UnexpectedEndOfFilter                              // input ended where more was required
    | ExpectedOpenParenthesis(at: nat)                   // "not" not followed by "("
    | NoMatchingOpenParenthesis(at: nat)                 // ")" that closes nothing
    | UnexpectedToken(token: string, at: nat)            // a token where a combinator was expected
    | InvalidAttributePath(at: nat, cause: ParseError)   // the attribute path of a comparison
    | InvalidAttributeReference(at: nat, cause: ParseError) // the attribute path before a '['
    | InvalidComparisonValue(at: nat)                    // the scalar reader rejected the value
    | UnrecognizedOperator(op: string, at: nat)          // not one of eq ne co sw ew gt ge lt le pr
    | EmptyStack                                         // java.util.Stack.pop on an empty stack

  datatype Result<+T> = Ok(value: T) | Err(error: ParseError)

  const NUL: char := 0 as char

  /** Character.isLetterOrDigit, restricted to ASCII letters and digits. */
  predicate IsLetterOrDigit(c: char) {
    ('a' <= c <= 'z') || ('A' <= c <= 'Z') || ('0' <= c <= '9')
  }

  predicate IsDigit(c: char) { '0' <= c <= '9' }

  /** Characters a path token may hold (Parser.java readPathToken). */
  predicate IsPathChar(c: char) {
    c == '-' || c == '_' || c == ':' || IsLetterOrDigit(c)
  }

  /** Characters a filter token may hold (Parser.java readFilterToken). */
  predicate IsFilterChar(c: char) {
    c == '-' || c == '_' || c == '.' || c == ':' || IsLetterOrDigit(c)
  }

  predicate IsSpace(c: char) { c == ' ' }

  /** Character.toLowerCase on ASCII letters. */
  function LowerChar(c: char): (l: char)
    ensures 'A' <= c <= 'Z' ==> 'a' <= l <= 'z' && l as int == c as int + 32
    ensures !('A' <= c <= 'Z') ==> l == c
  {
    if 'A' <= c <= 'Z' then (c as int + 32) as char else c
  }

  /** String.equalsIgnoreCase for ASCII text. */
  predicate EqualsIgnoreCase(a: string, b: string) {
    |a| == |b| && forall i :: 0 <= i < |a| ==> LowerChar(a[i]) == LowerChar(b[i])
  }

  function Min(a: int, b: int): int { if a <= b then a else b }

  function Last<T>(s: seq<T>): T
    requires |s| > 0
  {
    s[|s| - 1]
  }

  function Init<T>(s: seq<T>): seq<T>
    requires |s| > 0
  {
    s[..|s| - 1]
  }

  /** The first index at or after i whose character is not in the class ok,
      or |s| when there is none. */
  function RunEnd(s: string, i: nat, ok: char -> bool): (k: nat)
    requires i <= |s|
    ensures i <= k <= |s|
    ensures forall j :: i <= j < k ==> ok(s[j])
    ensures k < |s| ==> !ok(s[k])
    decreases |s| - i
  {
    if i == |s| || !ok(s[i]) then i else RunEnd(s, i + 1, ok)
  }

  /** RunEnd is the only index with its two defining properties. */
  lemma {:induction false} RunEndIs(s: string, i: nat, ok: char -> bool, k: nat)
    requires i <= k <= |s|
    requires forall j :: i <= j < k ==> ok(s[j])
    requires k < |s| ==> !ok(s[k])
    ensures RunEnd(s, i, ok) == k
    decreases k - i
  {
    if i < k {
      RunEndIs(s, i + 1, ok, k);
    }
  }

  /** String.trim: drop leading and trailing characters at or below U+0020. */
  function Trim(s: string): (t: string)
    ensures |t| <= |s|
    ensures |t| > 0 ==> t[0] > ' ' && t[|t| - 1] > ' '
    ensures (|s| > 0 && s[0] > ' ' && s[|s| - 1] > ' ') ==> t == s
  {
    TrimEnd(TrimStart(s))
  }

  function TrimStart(s: string): (t: string)
    ensures |t| <= |s|
    ensures |t| > 0 ==> t[0] > ' '
    ensures t == s[|s| - |t|..]
    ensures |s| > 0 && s[0] > ' ' ==> t == s
  {
    if |s| > 0 && s[0] <= ' ' then TrimStart(s[1..]) else s
  }

  function TrimEnd(s: string): (t: string)
    ensures |t| <= |s|
    ensures t == s[..|t|]
    ensures |t| > 0 ==> t[|t| - 1] > ' '
    ensures |s| > 0 && s[|s| - 1] > ' ' ==> t == s
  {
    if |s| > 0 && s[|s| - 1] <= ' ' then TrimEnd(s[..|s| - 1]) else s
  }

  lemma ConcatAssoc<T>(a: seq<T>, b: seq<T>, c: seq<T>)
    ensures a + (b + c) == (a + b) + c
  {
  }

  /** Last and Init of the literals of one, two and three elements. */
  lemma ShortLastInit<T>(a: T, b: T, c: T)
    ensures Last([a]) == a && Init([a]) == []
    ensures Last([a, b]) == b && Init([a, b]) == [a]
    ensures Last([a, b, c]) == c && Init([a, b, c]) == [a, b]
  {
  }

  /** One more character of s read into the slice s[i..j]. */
  lemma SliceSnoc(s: string, i: nat, j: nat)
    requires i <= j < |s|
    ensures s[i..j + 1] == s[i..j] + [s[j]]
  {
  }

  /** w occurs in s at index i, stated character by character. */
  predicate At(s: string, i: nat, w: string)
    decreases |w|
  {
    i + |w| <= |s| && (w == [] || (s[i] == w[0] && At(s, i + 1, w[1..])))
  }

  lemma {:induction false} AtSlice(s: string, i: nat, w: string)
    ensures At(s, i, w) <==> i + |w| <= |s| && s[i..i + |w|] == w
    decreases |w|
  {
    if w != [] && i + |w| <= |s| {
      AtSlice(s, i + 1, w[1..]);
      assert s[i..i + |w|] == [s[i]] + s[i + 1..i + 1 + |w[1..]|];
      assert w == [w[0]] + w[1..];
    }
  }

  lemma {:induction false} AtSplit(s: string, i: nat, a: string, b: string)
    requires At(s, i, a + b)
    ensures At(s, i, a) && At(s, i + |a|, b)
    decreases |a|
  {
    if a == [] {
      assert a + b == b;
    } else {
      assert (a + b)[1..] == a[1..] + b;
      AtSplit(s, i + 1, a[1..], b);
    }
  }

  lemma {:induction false} AtIndex(s: string, i: nat, w: string, k: nat)
    requires At(s, i, w) && k < |w|
    ensures s[i + k] == w[k]
    decreases k
  {
    if k > 0 {
      AtIndex(s, i + 1, w[1..], k - 1);
    }
  }

  /** The whole text is at its own start. */
  lemma AtWhole(s: string)
    ensures At(s, 0, s)
  {
    AtSlice(s, 0, s);
    assert s[0..|s|] == s;
  }

  /** Both halves of a concatenation occur in it where they were put. */
  lemma AtHalves(t: string, x: string, y: string)
    requires t == x + y
    ensures At(t, 0, x) && At(t, |x|, y)
  {
    assert t[0..|x|] == x;
    assert t[|x|..|x| + |y|] == y;
    AtSlice(t, 0, x);
    AtSlice(t, |x|, y);
  }

  lemma AtThirds(t: string, x: string, y: string, z: string)
    requires t == x + y + z
    ensures At(t, 0, x) && At(t, |x|, y) && At(t, |x| + |y|, z)
  {
    assert t[0..|x|] == x;
    assert t[|x|..|x| + |y|] == y;
    assert t[|x| + |y|..|x| + |y| + |z|] == z;
    AtSlice(t, 0, x);
    AtSlice(t, |x|, y);
    AtSlice(t, |x| + |y|, z);
  }

  /** x, then y, then rest. */
  lemma AtRegroup(s: string, i: nat, x: string, y: string, rest: string)
    requires At(s, i, x + (y + rest))
    ensures At(s, i, x + y) && At(s, i + |x| + |y|, rest)
  {
    assert x + (y + rest) == (x + y) + rest;
    AtSplit(s, i, x + y, rest);
  }
}
