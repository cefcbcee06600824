/** What readPath (Parser.java) builds from a whole path string, stated
    over the reference definition ParserSpec.ParsePathSpec: the schema URN
    split off a first token "urn:...:name", the root paths, attributes and
    sub-attributes left to right, and where an empty path segment is
    allowed. */
module PathProperties {
  import opened Common
  import opened Filters
  import opened ParserSpec
  import opened FilterSteps
  import opened TokenProperties

  /** A prefix that reads "urn:" in any case. */
  predicate UrnPrefix(p: string) {
    |p| == 4 && EqualsIgnoreCase(p, "urn:")
  }

  lemma UrnPrefixChars(p: string)
    requires UrnPrefix(p)
    ensures AllPathChars(p) && p[0] > ' ' && p[3] == ':'
  {
    forall i | 0 <= i < 4
      ensures IsPathChar(p[i])
    {
      assert LowerChar(p[i]) == "urn:"[i];
    }
    assert LowerChar(p[0]) == 'u';
    assert LowerChar(p[3]) == ':';
  }

  /** A plain name is never taken for a URN and never ends in '['. */
  lemma NameSegment(s: string, c: Cur, path: Option<Path>, n: string)
    requires PlainName(n) && c.mark < c.pos <= |s|
    ensures PathSegment(s, c, path, n) == NextSegment(c.pos, Some(AddElement(path, None, Element(n, None))))
  {
    assert !StartsWithUrn(n) by {
      if |n| >= 4 {
        assert IsLetterOrDigit(n[..4][3]);
      }
    }
    assert Last(n) != '[' by { assert IsLetterOrDigit(n[|n| - 1]); }
  }

  lemma {:induction false} LastColonAfter(x: string, a: string)
    requires ':' !in a
    ensures ':' in x + ":" + a && LastColon(x + ":" + a) == |x|
    decreases |a|
  {
    var t := x + ":" + a;
    assert t[|x|] == ':';
    if a != [] {
      assert Last(t) == Last(a);
      assert Init(t) == x + ":" + Init(a);
      LastColonAfter(x, Init(a));
    }
  }

  /** A text between two plain names needs no trimming. */
  lemma NamesTrimmed(t: string, a: string, mid: string, b: string)
    requires PlainName(a) && PlainName(b) && t == a + mid + b
    ensures Trim(t) == t
  {
    assert IsLetterOrDigit(a[0]) && IsLetterOrDigit(b[|b| - 1]);
    assert t[0] == a[0] && t[|t| - 1] == b[|b| - 1];
  }

  lemma ConcatPathChars(x: string, y: string)
    requires AllPathChars(x) && AllPathChars(y)
    ensures AllPathChars(x + y)
  {
    forall i | 0 <= i < |x + y|
      ensures IsPathChar((x + y)[i])
    {
      if i >= |x| {
        assert (x + y)[i] == y[i - |x|];
      }
    }
  }

  lemma PlainNameChars(n: string)
    requires PlainName(n)
    ensures AllPathChars(n) && AllFilterChars(n) && n[0] > ' ' && Last(n) > ' ' && ':' !in n
  {
    assert IsLetterOrDigit(n[0]) && IsLetterOrDigit(Last(n));
    assert forall i :: 0 <= i < |n| ==> IsLetterOrDigit(n[i]);
  }

  // ---------------------------------------------------------------------
  // No tokens, and the schema URN

  /** A string of nothing but white space holds no token: the root path,
      without schema URN. */
  lemma NoTokensRoot(t: string)
    requires forall i :: 0 <= i < |t| ==> t[i] <= ' '
    ensures ParsePathSpec(t) == Ok(Path(None, []))
  {
    BlankTrimStart(t);
    PathTokenToEnd(Trim(t), 0, []);
  }

  lemma {:induction false} BlankTrimStart(t: string)
    requires forall i :: 0 <= i < |t| ==> t[i] <= ' '
    ensures TrimStart(t) == []
    decreases |t|
  {
    if t != [] {
      assert t[0] <= ' ';
      BlankTrimStart(t[1..]);
    }
  }

  /** "urn:...:" with nothing after the last ':' is the root of that
      schema extension. */
  lemma UrnRoot(p: string, u: string)
    requires UrnPrefix(p) && AllPathChars(u)
    ensures ParsePathSpec(p + u + ":") == Ok(Path(Some(p + u), []))
  {
    var t := p + u + ":";
    UrnText(t, p, u + ":");
    AtWhole(t);
    UrnRootReads(t, p + u);
    PathOf(t, Ok(Path(Some(p + u), [])));
  }

  /** A token that starts with "urn:" in any case. */
  lemma UrnText(t: string, p: string, rest: string)
    requires UrnPrefix(p) && AllPathChars(rest) && rest != [] && rest[|rest| - 1] > ' '
    requires t == p + rest
    ensures Trim(t) == t && AllPathChars(t) && StartsWithUrn(t)
  {
    UrnPrefixChars(p);
    ConcatPathChars(p, rest);
    UrnEdges(t, p, rest);
  }

  lemma UrnEdges(t: string, p: string, rest: string)
    requires |p| == 4 && p[0] > ' ' && EqualsIgnoreCase(p, "urn:")
    requires rest != [] && rest[|rest| - 1] > ' ' && t == p + rest
    ensures Trim(t) == t && StartsWithUrn(t)
  {
    assert t[0] == p[0] && t[|t| - 1] == rest[|rest| - 1];
    assert t[..4] == p;
  }

  lemma UrnRootReads(t: string, urn: string)
    requires At(t, 0, t) && AllPathChars(t) && StartsWithUrn(t) && t == urn + ":"
    ensures PathLoop(t, 0, None) == Ok(Path(Some(urn), []))
  {
    PathTokenToEnd(t, 0, t);
    assert Last(t) == ':';
    assert LastColon(t) == |urn|;
    assert t[..|urn|] == urn;
    assert PathSegment(t, Cur(|t|, 0), None, t) == Done(Ok(Path(Some(urn), [])));
  }

  /** A first token "urn:...:name" is split at its last ':' into the
      schema URN and the attribute name. */
  lemma UrnAttribute(p: string, u: string, a: string)
    requires UrnPrefix(p) && AllPathChars(u) && PlainName(a)
    ensures ParsePathSpec(p + u + ":" + a) == Ok(Path(Some(p + u), [Element(a, None)]))
  {
    var t := p + u + ":" + a;
    UrnAttributeRest(u, a);
    assert t == p + (u + ":" + a);
    UrnText(t, p, u + ":" + a);
    AtWhole(t);
    UrnAttributeReads(t, p + u, a);
    PathOf(t, Ok(Path(Some(p + u), [Element(a, None)])));
  }

  lemma UrnAttributeRest(u: string, a: string)
    requires AllPathChars(u) && PlainName(a)
    ensures AllPathChars(u + ":" + a) && Last(u + ":" + a) > ' '
  {
    PlainNameChars(a);
    ConcatPathChars(u, ":");
    ConcatPathChars(u + ":", a);
  }

  lemma UrnAttributeReads(t: string, urn: string, a: string)
    requires PlainName(a) && At(t, 0, t) && AllPathChars(t) && StartsWithUrn(t) && t == urn + ":" + a
    ensures PathLoop(t, 0, None) == Ok(Path(Some(urn), [Element(a, None)]))
  {
    PathTokenToEnd(t, 0, t);
    UrnAttributeSegment(t, urn, a);
    PathEnd(t, Path(Some(urn), [Element(a, None)]));
  }

  lemma UrnAttributeSegment(t: string, urn: string, a: string)
    requires PlainName(a) && |t| >= 4 && StartsWithUrn(t) && t == urn + ":" + a
    ensures PathSegment(t, Cur(|t|, 0), None, t) == NextSegment(|t|, Some(Path(Some(urn), [Element(a, None)])))
  {
    assert IsLetterOrDigit(a[|a| - 1]);
    LastColonAfter(urn, a);
    assert t[..|urn|] == urn;
    assert t[|urn| + 1..] == a;
    UrnNameSegment(t, |urn|, urn, a);
  }

  lemma UrnNameSegment(t: string, i: nat, urn: string, a: string)
    requires StartsWithUrn(t) && ':' in t && LastColon(t) == i
    requires t[..i] == urn && t[i + 1..] == a && a != [] && Last(a) != '['
    ensures PathSegment(t, Cur(|t|, 0), None, t) == NextSegment(|t|, Some(Path(Some(urn), [Element(a, None)])))
  {
  }

  // ---------------------------------------------------------------------
  // Attributes, sub-attributes and empty segments

  /** "a.b": the attribute a and its sub-attribute b. */
  lemma SubAttribute(a: string, b: string)
    requires PlainName(a) && PlainName(b)
    ensures ParsePathSpec(a + "." + b) == Ok(Path(None, [Element(a, None), Element(b, None)]))
  {
    var t := a + "." + b;
    NamesTrimmed(t, a, ".", b);
    SubAttributeLoop(t, a, b);
    PathOf(t, Ok(Path(None, [Element(a, None), Element(b, None)])));
  }

  lemma SubAttributeLoop(t: string, a: string, b: string)
    requires PlainName(a) && PlainName(b) && t == a + "." + b
    ensures PathLoop(t, 0, None) == Ok(Path(None, [Element(a, None), Element(b, None)]))
  {
    var m := |a| + 1;
    DotText(t, a, b, m);
    SubAttributeReads(t, a, b, m);
  }

  lemma DotText(t: string, a: string, b: string, m: nat)
    requires t == a + "." + b && m == |a| + 1
    ensures At(t, 0, a + ".") && At(t, m, b) && m + |b| == |t|
  {
    AtHalves(t, a + ".", b);
  }

  lemma SubAttributeReads(t: string, a: string, b: string, m: nat)
    requires PlainName(a) && PlainName(b) && m == |a| + 1
    requires At(t, 0, a + ".") && At(t, m, b) && m + |b| == |t|
    ensures PathLoop(t, 0, None) == Ok(Path(None, [Element(a, None), Element(b, None)]))
  {
    FirstName(t, a, m);
    LastName(t, m, b, NamePath(a));
    assert NamePath(a).elements + [Element(b, None)] == [Element(a, None), Element(b, None)];
  }

  /** The first name of t, ended by a '.' that something follows. */
  lemma FirstName(t: string, a: string, m: nat)
    requires PlainName(a) && At(t, 0, a + ".") && m == |a| + 1 && m < |t|
    ensures PathLoop(t, 0, None) == PathLoop(t, m, Some(NamePath(a)))
  {
    PlainNameChars(a);
    PathTokenDot(t, 0, a);
    NameSegment(t, Cur(m, 0), None, a);
  }

  /** A last name c up to the end of the input is the last sub-attribute. */
  lemma LastName(t: string, k: nat, c: string, path: Path)
    requires PlainName(c) && At(t, k, c) && k + |c| == |t|
    ensures PathLoop(t, k, Some(path)) == Ok(Path(path.schemaUrn, path.elements + [Element(c, None)]))
  {
    PlainNameChars(c);
    PathTokenToEnd(t, k, c);
    NameSegment(t, Cur(|t|, k), Some(path), c);
    PathEnd(t, Path(path.schemaUrn, path.elements + [Element(c, None)]));
  }

  /** "a..b": an empty segment after an attribute without a value filter
      is an error at the second '.'. */
  lemma EmptySegment(a: string, b: string)
    requires PlainName(a) && PlainName(b)
    ensures ParsePathSpec(a + ".." + b) == Err(AttributeNameExpected(|a| + 1))
  {
    var t := a + ".." + b;
    NamesTrimmed(t, a, "..", b);
    EmptySegmentLoop(t, a, b);
    PathOf(t, Err(AttributeNameExpected(|a| + 1)));
  }

  lemma EmptySegmentLoop(t: string, a: string, b: string)
    requires PlainName(a) && PlainName(b) && t == a + ".." + b
    ensures PathLoop(t, 0, None) == Err(AttributeNameExpected(|a| + 1))
  {
    var m := |a| + 1;
    DoubleDotText(t, a, b, m);
    EmptySegmentReads(t, a, m);
  }

  lemma DoubleDotText(t: string, a: string, b: string, m: nat)
    requires t == a + ".." + b && m == |a| + 1 && b != []
    ensures At(t, 0, a + ".") && At(t, m, ".") && m + 1 < |t|
  {
    AtThirds(t, a + ".", ".", b);
  }

  lemma EmptySegmentReads(t: string, a: string, m: nat)
    requires PlainName(a) && m == |a| + 1 && At(t, 0, a + ".") && At(t, m, ".") && m + 1 < |t|
    ensures PathLoop(t, 0, None) == Err(AttributeNameExpected(m))
  {
    FirstName(t, a, m);
    assert [] + "." == ".";
    PathTokenDot(t, m, []);
  }

  /** ".a": an empty first segment is an error at the start. */
  lemma LeadingDot(a: string)
    requires PlainName(a)
    ensures ParsePathSpec("." + a) == Err(AttributeNameExpected(0))
  {
    var t := "." + a;
    LeadingDotText(t, a);
    LeadingDotReads(t);
    PathOf(t, Err(AttributeNameExpected(0)));
  }

  lemma LeadingDotText(t: string, a: string)
    requires t == "." + a && PlainName(a)
    ensures At(t, 0, ".") && 1 < |t| && Trim(t) == t
  {
    assert IsLetterOrDigit(a[|a| - 1]);
    assert t[|t| - 1] == a[|a| - 1];
    AtWhole(t);
    AtSplit(t, 0, ".", a);
  }

  lemma LeadingDotReads(t: string)
    requires At(t, 0, ".") && 1 < |t|
    ensures PathLoop(t, 0, None) == Err(AttributeNameExpected(0))
  {
    assert [] + "." == ".";
    PathTokenDot(t, 0, []);
    assert PathToken(t, 0) == Ok(Tok(Some([]), Cur(1, 0)));
  }

  // ---------------------------------------------------------------------
  // A value filter, and the empty segment after it

  /** "a[b pr].c": the attribute a with the value filter "b pr", then its
      sub-attribute c; the '.' after the ']' reads as an empty segment,
      which is allowed there. */
  lemma ValueFilterThenSub(a: string, b: string, c: string)
    requires PlainName(a) && AttrName(b) && PlainName(c)
    ensures ParsePathSpec(a + "[" + b + " pr]." + c)
         == Ok(Path(None, [Element(a, Some(Pr(b))), Element(c, None)]))
  {
    var t := a + "[" + b + " pr]." + c;
    NamesTrimmed(t, a, "[" + b + " pr].", c);
    ValueFilterThenSubLoop(t, a, b, c);
    PathOf(t, Ok(Path(None, [Element(a, Some(Pr(b))), Element(c, None)])));
  }

  lemma ValueFilterThenSubLoop(t: string, a: string, b: string, c: string)
    requires PlainName(a) && AttrName(b) && PlainName(c) && t == a + "[" + b + " pr]." + c
    ensures PathLoop(t, 0, None) == Ok(Path(None, [Element(a, Some(Pr(b))), Element(c, None)]))
  {
    var p := |a| + 1;
    var q := p + |b| + 4;
    ValueFilterText(t, a, b, c, p, q);
    ValueFilterThenSubReads(t, a, b, c, p, q);
  }

  lemma ValueFilterText(t: string, a: string, b: string, c: string, p: nat, q: nat)
    requires t == a + "[" + b + " pr]." + c && p == |a| + 1 && q == p + |b| + 4
    ensures At(t, 0, a + "[") && At(t, p, b + " pr]")
    ensures At(t, q, ".") && At(t, q + 1, c) && q + 1 + |c| == |t|
  {
    var x, y, z := a + "[", b + " pr]", "." + c;
    assert t == x + y + z;
    AtThirds(t, x, y, z);
    DotThen(t, q, c);
  }

  lemma DotThen(t: string, q: nat, c: string)
    requires At(t, q, "." + c)
    ensures At(t, q, ".") && At(t, q + 1, c)
  {
    AtSplit(t, q, ".", c);
  }

  lemma ValueFilterThenSubReads(t: string, a: string, b: string, c: string, p: nat, q: nat)
    requires PlainName(a) && AttrName(b) && PlainName(c) && p == |a| + 1 && q == p + |b| + 4
    requires At(t, 0, a + "[") && At(t, p, b + " pr]")
    requires At(t, q, ".") && At(t, q + 1, c) && q + 1 + |c| == |t|
    ensures PathLoop(t, 0, None) == Ok(Path(None, [Element(a, Some(Pr(b))), Element(c, None)]))
  {
    var path := Path(None, [Element(a, Some(Pr(b)))]);
    ValueFilterSegment(t, a, b, p, q);
    SubAfterValueFilter(t, q, c, path);
    assert path.elements + [Element(c, None)] == [Element(a, Some(Pr(b))), Element(c, None)];
  }

  /** "a[b pr]" at the start of t: the first element, with its filter. */
  lemma ValueFilterSegment(t: string, a: string, b: string, p: nat, q: nat)
    requires PlainName(a) && AttrName(b) && p == |a| + 1 && q == p + |b| + 4
    requires At(t, 0, a + "[") && At(t, p, b + " pr]")
    ensures q <= |t| && PathLoop(t, 0, None) == PathLoop(t, q, Some(Path(None, [Element(a, Some(Pr(b)))])))
  {
    ValueFilterReads(t, p, q, b);
    BracketSegment(t, a, Pr(b), Cur(q, q - 1));
  }

  /** ".c" up to the end of t after an element with a value filter. */
  lemma SubAfterValueFilter(t: string, q: nat, c: string, path: Path)
    requires PlainName(c) && At(t, q, ".") && At(t, q + 1, c) && q + 1 + |c| == |t|
    requires path.elements != [] && Last(path.elements).valueFilter.Some?
    ensures PathLoop(t, q, Some(path)) == Ok(Path(path.schemaUrn, path.elements + [Element(c, None)]))
  {
    EmptyAfterValueFilter(t, q, path);
    LastName(t, q + 1, c, path);
  }

  /** The value filter "b pr]" read from p: the presence test on b, up to
      and including the ']'. */
  lemma ValueFilterReads(s: string, p: nat, q: nat, b: string)
    requires AttrName(b) && At(s, p, b + " pr]") && q == p + |b| + 4
    ensures ReadFilterSpec(s, p, true, true) == Ok(Parsed(Pr(b), Cur(q, q - 1)))
  {
    var m := p + |b| + 1;
    ValueTestText(s, p, m, b);
    ValueLoop(s, p, m, b);
  }

  /** The value filter "b pr]" at p, its "pr" at m. */
  predicate ValueText(s: string, p: nat, m: nat, b: string) {
    AttrName(b) && m == p + |b| + 1 && At(s, p, b + " ") && At(s, m, "pr]") && At(s, m + 2, "]")
  }

  lemma ValueLoop(s: string, p: nat, m: nat, b: string)
    requires ValueText(s, p, m, b)
    ensures FilterLoop(s, p, true, true, [], [], None) == Ok(Parsed(Pr(b), Cur(m + 3, m + 2)))
  {
    ValueComparison(s, p, m, b);
    ValueClose(s, p, m, b);
  }

  lemma ValueTestText(s: string, p: nat, m: nat, b: string)
    requires AttrName(b) && At(s, p, b + " pr]") && m == p + |b| + 1
    ensures ValueText(s, p, m, b)
  {
    assert b + " pr]" == (b + " ") + "pr]";
    AtSplit(s, p, b + " ", "pr]");
    assert "pr]" == "pr" + "]";
    AtSplit(s, m, "pr", "]");
  }

  lemma ValueComparison(s: string, p: nat, m: nat, b: string)
    requires ValueText(s, p, m, b)
    ensures FilterLoop(s, p, true, true, [], [], None) == FilterLoop(s, m + 2, true, true, [Pr(b)], [], Some(b))
  {
    PlainNameChars(b);
    FilterTokenSpace(s, p, b, true);
    var c := Cur(m, p);
    NameStep(s, c, true, b, [], [], None, true);
    PlainNamePath(b);
    PresentInValue(s, m);
    assert ComparisonStep(s, c, true, b, [], []) == Continue(Cur(m + 2, m), [Pr(b)], [], Some(b));
  }

  /** "pr" left before the ']' that ends a value filter. */
  lemma PresentInValue(s: string, m: nat)
    requires At(s, m, "pr]")
    ensures FilterToken(s, m, true) == Ok(Tok(Some("pr"), Cur(m + 2, m)))
    ensures forall p :: ComparisonTail(s, m, true, p) == Ok(Parsed(Present(p), Cur(m + 2, m)))
  {
    assert "pr]" == "pr" + [']'];
    assert AllFilterChars("pr");
    FilterTokenDelimiter(s, m, "pr", ']', true);
    assert EqualsIgnoreCase("pr", "pr");
  }

  /** The ']' after a filter ends the value filter. */
  lemma ValueClose(s: string, p: nat, m: nat, b: string)
    requires ValueText(s, p, m, b)
    ensures FilterLoop(s, m + 2, true, true, [Pr(b)], [], Some(b)) == Ok(Parsed(Pr(b), Cur(m + 3, m + 2)))
  {
    var r := m + 2;
    assert [] + [']'] == "]";
    FilterTokenDelimiter(s, r, [], ']', true);
    NameEndsFilter(b);
    assert !EqualsIgnoreCase("]", "not") && !EqualsIgnoreCase("]", "and") && !EqualsIgnoreCase("]", "or");
    assert FilterStep(s, Cur(r + 1, r), true, true, "]", [Pr(b)], [], Some(b)) == Break(Cur(r + 1, r));
    assert CloseGrouping([], [Pr(b)], true) == Ok(Grouping(None, [], [Pr(b)]));
  }

  /** The first token "a[" and the value filter read after it. */
  lemma BracketSegment(t: string, a: string, f: Filter, cf: Cur)
    requires PlainName(a) && At(t, 0, a + "[")
    requires ReadFilterSpec(t, |a| + 1, true, true) == Ok(Parsed(f, cf))
    ensures cf.pos <= |t|
    ensures PathLoop(t, 0, None) == PathLoop(t, cf.pos, Some(Path(None, [Element(a, Some(f))])))
  {
    PlainNameChars(a);
    PathTokenBracket(t, 0, a);
    var n := a + "[";
    assert !StartsWithUrn(n) by {
      if |n| >= 4 {
        assert n[..4][3] == n[3];
        if |a| > 3 {
          assert IsLetterOrDigit(a[3]);
        }
      }
    }
    assert Init(n) == a;
  }

  /** The '.' right after a value filter: an empty segment, skipped. */
  lemma EmptyAfterValueFilter(t: string, q: nat, path: Path)
    requires At(t, q, ".") && q + 1 < |t|
    requires path.elements != [] && Last(path.elements).valueFilter.Some?
    ensures PathLoop(t, q, Some(path)) == PathLoop(t, q + 1, Some(path))
  {
    assert [] + "." == ".";
    PathTokenDot(t, q, []);
  }
}
