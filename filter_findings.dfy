/** Two cases of readFilter in which the code as written and the evidently
    intended reader part ways, each shown on a whole filter: module
    ParserSpec reads the code when its literal flag holds and the intended
    reader otherwise. */
module FilterFindings {
  import opened Common
  import opened Filters
  import opened ParserSpec
  import opened FilterSteps
  import opened GroupFilters
  import opened FilterErrors

  // ---------------------------------------------------------------------
  // ")" after a filter

  /** The intended ")" differs from the code's only where the code goes on
      after a group with no "(" or "not" under it: there it is rejected
      instead. */
  lemma CloseStepCorrection(c: Cur, t: string, out: seq<Filter>, ops: seq<string>)
    ensures var w, r := CloseStep(c, t, out, ops), CloseMatchedStep(c, t, out, ops);
      w == r || (w.Continue? && r == Fail(NoMatchingOpenParenthesis(c.mark)))
    ensures var g := CloseGrouping(ops, out, false);
      g.Ok? && g.value.operator.Some? && OpensGroup(g.value.operator.value)
      ==> CloseStep(c, t, out, ops) == CloseMatchedStep(c, t, out, ops)
  {
  }

  /** "a pr and b pr)": the code drops the unmatched ")" and returns the
      AND; the intended reader rejects it at the ")". */
  lemma ClosesNothingAsWritten(a: string, b: string)
    requires AttrName(a) && AttrName(b)
    ensures ParseFilterSpec(a + " pr and " + b + " pr)", true) == Ok(And([Pr(a), Pr(b)]))
    ensures ParseFilterSpec(a + " pr and " + b + " pr)", false)
            == Err(NoMatchingOpenParenthesis(|a| + |b| + 11))
  {
    var s := a + " pr and " + b + " pr)";
    var e: string := [];
    assert s == a + (" pr " + ("and" + (" " + (b + (" pr" + (")" + e)))))) && s[0] == a[0]
           && s[|s| - 1] == ')';
    AtWhole(s);
    ClosesNothingLiteralReads(s, a, b);
    ParsesFrom(s, And([Pr(a), Pr(b)]), true);
    ClosesNothing(a, b);
  }

  /** The code's loop on the text of ClosesNothingAsWritten. */
  lemma ClosesNothingLiteralReads(s: string, a: string, b: string)
    requires AttrName(a) && AttrName(b)
    requires At(s, 0, a + (" pr " + ("and" + (" " + (b + (" pr" + (")" + [])))))))
    requires |s| == |a| + |b| + 12
    ensures FilterLoop(s, 0, false, true, [], [], None) == Ok(Parsed(And([Pr(a), Pr(b)]), Cur(|s|, |s|)))
  {
    var e: string := [];
    var e1: seq<Filter> := [];
    var e2: seq<string> := [];
    var m1 := |a| + 4;
    var m2 := m1 + 4;
    var m3 := m2 + |b| + 3;
    PresentThen(s, 0, m1, a, "and" + (" " + (b + (" pr" + (")" + e)))), e1, e2, None, true);
    NameEndsFilter(a);
    ConnectiveThen(s, m1, m2, "and", b + (" pr" + (")" + e)), e1 + [Pr(a)], e2, Some(a), true);
    assert ExpectsNewFilter(Some("and")) by { assert EqualsIgnoreCase("and", "and"); }
    PresentBeforeClose(s, m2, m3, b, e, e1 + [Pr(a)], e2 + ["and"], Some("and"), true);
    NameEndsFilter(b);
    CloseAfterAnd(Cur(m3 + 1, m3), e1, e2, Pr(a), Pr(b));
    CloseThen(s, m3, m3 + 1, e, (e1 + [Pr(a)]) + [Pr(b)], e2 + ["and"], Some(b), [And([Pr(a), Pr(b)])], [], true);
    NoSpaces(s, |s|);
    ReadsEnd(s, |s|, false, [And([Pr(a), Pr(b)])], [], Some(")"), true);
    assert CloseGrouping([], [And([Pr(a), Pr(b)])], true) == Ok(Grouping(None, [], [And([Pr(a), Pr(b)])]));
  }

  // ---------------------------------------------------------------------
  // "or" after a run of "and"s

  /** "a and b and c" before "or": the code's drain nests and repeats the
      operands, And([a, And([b, c]), b, c]); the intended drain builds the
      single And([a, b, c]) that closeGrouping builds for the same run. */
  lemma AndRunBeforeOr(a: Filter, b: Filter, c: Filter)
    ensures DrainAnds([a, b, c], ["and", "and"], []) == Ok(Stacks([And([a, And([b, c]), b, c])], []))
    ensures DrainAndRun([a, b, c], ["and", "and"], []) == Ok(Stacks([And([a, b, c])], []))
  {
    assert EqualsIgnoreCase("and", "and");
    ShortLastInit("and", "and", "and");
    ShortLastInit(a, b, c);
    assert [c] + [] == [c] && [b] + [c] == [b, c] && [a] + [b, c] == [a, b, c];
    var e: seq<Filter> := [];
    assert e + [And([a, b, c])] == [And([a, b, c])];
    assert DrainAndRun([a, b, c], ["and", "and"], []) == DrainAndRun([a, b], ["and"], [c]);
    assert DrainAndRun([a, b], ["and"], [c]) == DrainAndRun([a], [], [b, c]);
    var x := And([b, c]);
    ShortLastInit(a, x, x);
    assert [a] + [x] == [a, x];
    assert DrainAnds([a, b, c], ["and", "and"], []) == DrainAnds([a, x], ["and"], [b, c]);
    assert [x] + [b, c] == [x, b, c] && [a] + [x, b, c] == [a, x, b, c];
    assert e + [And([a, x, b, c])] == [And([a, x, b, c])];
  }

  /** The AND that "a pr and b pr and c pr" leaves before "or". */
  function RunOfThree(a: string, b: string, c: string, literal: bool): Filter {
    if literal then And([Pr(a), And([Pr(b), Pr(c)]), Pr(b), Pr(c)]) else And([Pr(a), Pr(b), Pr(c)])
  }

  /** "a pr and b pr and c pr or d pr": the code returns an OR whose first
      operand repeats b and c; the intended reader returns the OR of
      And([a, b, c]) and d. */
  lemma AndRunThenOr(a: string, b: string, c: string, d: string)
    requires AttrName(a) && AttrName(b) && AttrName(c) && AttrName(d)
    ensures ParseFilterSpec(a + " pr and " + b + " pr and " + c + " pr or " + d + " pr", true)
            == Ok(Or([And([Pr(a), And([Pr(b), Pr(c)]), Pr(b), Pr(c)]), Pr(d)]))
    ensures ParseFilterSpec(a + " pr and " + b + " pr and " + c + " pr or " + d + " pr", false)
            == Ok(Or([And([Pr(a), Pr(b), Pr(c)]), Pr(d)]))
  {
    var s := a + " pr and " + b + " pr and " + c + " pr or " + d + " pr";
    AndRunText(s, a, b, c, d);
    AtWhole(s);
    AndRunReads(s, a, b, c, d, true);
    ParsesFrom(s, Or([RunOfThree(a, b, c, true), Pr(d)]), true);
    AndRunReads(s, a, b, c, d, false);
    ParsesFrom(s, Or([RunOfThree(a, b, c, false), Pr(d)]), false);
  }

  lemma AndRunText(s: string, a: string, b: string, c: string, d: string)
    requires AttrName(a) && AttrName(d)
    requires s == a + " pr and " + b + " pr and " + c + " pr or " + d + " pr"
    ensures s == a + (" pr " + ("and" + (" " + (b + (" pr " + ("and " + (c + (" pr " + ("or " + (d + " pr"))))))))))
    ensures |s| == |a| + |b| + |c| + |d| + 26 && s[0] > ' ' && s[|s| - 1] > ' '
  {
    assert s[0] == a[0] && s[|s| - 1] == 'r';
  }

  /** The reader's loop on the text of AndRunThenOr. */
  lemma AndRunReads(s: string, a: string, b: string, c: string, d: string, lit: bool)
    requires AttrName(a) && AttrName(b) && AttrName(c) && AttrName(d)
    requires At(s, 0, a + (" pr " + ("and" + (" " + (b + (" pr " + ("and " + (c + (" pr " + ("or " + (d + " pr")))))))))))
    requires |s| == |a| + |b| + |c| + |d| + 26
    ensures FilterLoop(s, 0, false, lit, [], [], None)
            == Ok(Parsed(Or([RunOfThree(a, b, c, lit), Pr(d)]), Cur(|s|, |s|)))
  {
    var q4 := |a| + |b| + |c| + 23;
    AndRunPrefix(s, q4, a, b, c, d, lit);
    var x := RunOfThree(a, b, c, lit);
    assert ExpectsNewFilter(Some("or")) by { assert EqualsIgnoreCase("or", "or"); }
    PresentLast(s, q4, d, [x], [] + ["or"], Some("or"), lit);
    assert [x] + [Pr(d)] == [x, Pr(d)] && [] + ["or"] == ["or"];
    assert !OpensGroup("or");
    FinishPair(Cur(|s|, |s|), "or", x, Pr(d));
    assert !EqualsIgnoreCase("or", "and");
  }

  /** Up to the last name: the three operands of the run are drained into
      one AND when "or" is read. */
  lemma AndRunPrefix(s: string, q: int, a: string, b: string, c: string, d: string, lit: bool)
    requires AttrName(a) && AttrName(b) && AttrName(c) && q == |a| + |b| + |c| + 23
    requires At(s, 0, a + (" pr " + ("and" + (" " + (b + (" pr " + ("and " + (c + (" pr " + ("or " + (d + " pr")))))))))))
    ensures At(s, q, d + " pr")
    ensures FilterLoop(s, 0, false, lit, [], [], None)
            == FilterLoop(s, q, false, lit, [RunOfThree(a, b, c, lit)], [] + ["or"], Some("or"))
  {
    var e: string := [];
    var q3 := q - 3;
    AndRunOperands(s, q3, a, b, c, "or " + (d + " pr"), lit);
    NameEndsFilter(c);
    AndRunBeforeOr(Pr(a), Pr(b), Pr(c));
    assert e + ("or " + (d + " pr")) == "or " + (d + " pr");
    OrThen(s, q3, q, e, d + " pr", [Pr(a), Pr(b), Pr(c)], ["and", "and"], Some(c),
           [RunOfThree(a, b, c, lit)], [], lit);
  }

  /** "a pr and b pr and c pr ": three operands, two "and"s. */
  lemma AndRunOperands(s: string, q: int, a: string, b: string, c: string, rest: string, lit: bool)
    requires AttrName(a) && AttrName(b) && AttrName(c) && q == |a| + |b| + |c| + 20
    requires At(s, 0, a + (" pr " + ("and" + (" " + (b + (" pr " + ("and " + (c + (" pr " + rest)))))))))
    ensures At(s, q, rest)
    ensures FilterLoop(s, 0, false, lit, [], [], None)
            == FilterLoop(s, q, false, lit, [Pr(a), Pr(b), Pr(c)], ["and", "and"], Some(c))
  {
    var e: string := [];
    var q1 := |a| + |b| + 12;
    var q2 := q1 + 4;
    var tail := c + (" pr " + rest);
    LeadingPair(s, q1, a, "and", b, "and " + tail, lit);
    NameEndsFilter(b);
    assert e + ("and " + tail) == "and " + tail;
    AndThen(s, q1, q2, e, tail, [Pr(a), Pr(b)], ["and"], Some(b), lit);
    assert ExpectsNewFilter(Some("and")) by { assert EqualsIgnoreCase("and", "and"); }
    PresentThen(s, q2, q, c, rest, [Pr(a), Pr(b)], ["and"] + ["and"], Some("and"), lit);
    assert [Pr(a), Pr(b)] + [Pr(c)] == [Pr(a), Pr(b), Pr(c)] && ["and"] + ["and"] == ["and", "and"];
  }
}
