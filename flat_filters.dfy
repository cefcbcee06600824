/** Operator precedence, for every filter made of presence tests joined by
    "and" and "or" without parentheses: the reader's result is the
    reference reading of module FilterStacks, in which "and" binds tighter
    than "or" and operators of equal precedence group into one n-ary
    filter. */
module FlatFilters {
  import opened Common
  import opened Filters
  import opened ParserSpec
  import opened FilterSteps
  import opened FilterStacks

  // ---------------------------------------------------------------------
  // The texts

  /** The text after the first name: " pr", then " <op> <name> pr" for
      each further name. */
  function Rest(names: seq<string>, ops: seq<string>): (r: string)
    requires |names| == |ops|
    ensures |r| >= 3 && r[|r| - 1] == 'r'
    decreases |names|
  {
    if names == [] then " pr"
    else " pr " + (ops[0] + (" " + (names[0] + Rest(names[1..], ops[1..]))))
  }

  /** "n1 pr op1 n2 pr op2 ... nk pr" */
  function FlatText(names: seq<string>, ops: seq<string>): string
    requires |names| == |ops| + 1
  {
    names[0] + Rest(names[1..], ops)
  }

  /** The presence tests on the names. */
  function Prs(names: seq<string>): (r: seq<Filter>)
    ensures |r| == |names| && forall i :: 0 <= i < |names| ==> r[i] == Pr(names[i])
  {
    if names == [] then [] else [Pr(names[0])] + Prs(names[1..])
  }

  predicate Names(names: seq<string>) {
    forall i :: 0 <= i < |names| ==> AttrName(names[i])
  }

  predicate Connectives(ops: seq<string>) {
    forall i :: 0 <= i < |ops| ==> ops[i] == "and" || ops[i] == "or"
  }

  /** No "or" follows two "and"s in a row: the chains on which the code's
      "or" case builds the AND of the pending run that closeGrouping
      would build. */
  predicate ShortAndRuns(ops: seq<string>) {
    forall i :: 0 <= i < |ops| && ops[i] == "or" ==> TrailingAnds(ops[..i]) <= 1
  }

  /** The "and"s before an "or" of a chain with short runs. */
  lemma ShortBefore(dops: seq<string>, ops: seq<string>, allOps: seq<string>)
    requires (dops + ["or"]) + ops == allOps && ShortAndRuns(allOps)
    ensures TrailingAnds(dops) <= 1
  {
    var i := |dops|;
    assert allOps[i] == "or" && allOps[..i] == dops;
  }

  // ---------------------------------------------------------------------
  // The theorem

  /** Every text "n1 pr op1 n2 pr ... nk pr" of attribute names and the
      operators "and" and "or" parses to the reference reading: the OR of
      the runs joined by "and", each run an AND of its tests.  The
      intended reader does so on every such text; the code (lit) on those
      where no "or" follows two "and"s in a row. */
  lemma FlatParse(names: seq<string>, ops: seq<string>, lit: bool)
    requires |names| == |ops| + 1 && Names(names) && Connectives(ops)
    requires lit ==> ShortAndRuns(ops)
    ensures ParseFilterSpec(FlatText(names, ops), lit) == Ok(Precedence(Prs(names), ops))
  {
    var s := FlatText(names, ops);
    var x := Pr(names[0]);
    Start(names, ops);
    ReadsName(s, 0, names[0], names[1..], ops, [], [], None, [x], [], Prs(names), ops, lit);
    ParsesAs(s, names[0], Precedence(Prs(names), ops), lit);
  }

  /** The reader's state before the first name. */
  lemma Start(names: seq<string>, ops: seq<string>)
    requires |names| == |ops| + 1 && Names(names)
    ensures var s := FlatText(names, ops);
      && At(s, 0, names[0] + Rest(names[1..], ops)) && |s| == 0 + |names[0] + Rest(names[1..], ops)|
      && At(s, 0, names[0]) && |s| > 0 && s[|s| - 1] in {'r', ')'}
    ensures AttrName(names[0]) && Names(names[1..])
    ensures [] + [Pr(names[0])] == StackOut([Pr(names[0])], []) && [] == StackOps([Pr(names[0])], [])
    ensures [Pr(names[0])] + Prs(names[1..]) == Prs(names) && [] + ops == ops
  {
    var s := FlatText(names, ops);
    var x := Pr(names[0]);
    AtSlice(s, 0, s);
    AtSplit(s, 0, names[0], Rest(names[1..], ops));
    assert forall i :: 0 <= i < |names| - 1 ==> names[1..][i] == names[i + 1];
    assert Runs([x], []) == [[x]];
  }

  /** Only "and": one AND of all the tests. */
  lemma FlatAnd(names: seq<string>, ops: seq<string>, lit: bool)
    requires |names| == |ops| + 1 > 1 && Names(names)
    requires forall i :: 0 <= i < |ops| ==> ops[i] == "and"
    ensures ParseFilterSpec(FlatText(names, ops), lit) == Ok(And(Prs(names)))
  {
    FlatParse(names, ops, lit);
    NoOrIsAnd(Prs(names), ops);
  }

  /** Only "or": one OR of all the tests. */
  lemma FlatOr(names: seq<string>, ops: seq<string>, lit: bool)
    requires |names| == |ops| + 1 > 1 && Names(names)
    requires forall i :: 0 <= i < |ops| ==> ops[i] == "or"
    ensures ParseFilterSpec(FlatText(names, ops), lit) == Ok(Or(Prs(names)))
  {
    forall i | 0 <= i < |ops| && ops[i] == "or"
      ensures TrailingAnds(ops[..i]) <= 1
    {
      assert i > 0 ==> Last(ops[..i]) == ops[i - 1];
    }
    FlatParse(names, ops, lit);
    NoAndIsOr(Prs(names), ops);
  }

  // ---------------------------------------------------------------------
  // The reading, one name and one operator at a time

  /** Reading the name n and what follows it, with the stacks of the
      operands xs joined by dops read so far (n's test among them) leads
      to the reference reading of all the operands. */
  lemma {:induction false} ReadsName(s: string, q: int, n: string, names: seq<string>,
                                     ops: seq<string>, out: seq<Filter>, opstack: seq<string>,
                                     prev: Option<string>, xs: seq<Filter>, dops: seq<string>,
                                     allXs: seq<Filter>, allOps: seq<string>, lit: bool)
    requires 0 <= q && |names| == |ops| && |xs| == |dops| + 1
    requires At(s, q, n + Rest(names, ops)) && |s| == q + |n + Rest(names, ops)|
    requires AttrName(n) && Names(names) && Connectives(ops) && ExpectsNewFilter(prev)
    requires out + [Pr(n)] == StackOut(xs, dops) && opstack == StackOps(xs, dops)
    requires xs + Prs(names) == allXs && dops + ops == allOps
    requires lit ==> ShortAndRuns(allOps)
    ensures FilterLoop(s, q, false, lit, out, opstack, prev)
            == Ok(Parsed(Precedence(allXs, allOps), Cur(|s|, |s|)))
    decreases |names|, 3
  {
    if names == [] {
      ReadsLastName(s, q, n, out, opstack, prev, xs, dops, lit);
      assert Prs(names) == [] && xs == allXs && dops == allOps;
    } else {
      ReadsNextName(s, q, n, names, ops, out, opstack, prev, xs, dops, allXs, allOps, lit);
    }
  }

  /** The last name: the end of the input follows its " pr". */
  lemma ReadsLastName(s: string, q: int, n: string, out: seq<Filter>, opstack: seq<string>,
                      prev: Option<string>, xs: seq<Filter>, dops: seq<string>, lit: bool)
    requires 0 <= q && |xs| == |dops| + 1
    requires At(s, q, n + Rest([], [])) && |s| == q + |n + Rest([], [])|
    requires AttrName(n) && ExpectsNewFilter(prev)
    requires out + [Pr(n)] == StackOut(xs, dops) && opstack == StackOps(xs, dops)
    ensures FilterLoop(s, q, false, lit, out, opstack, prev)
            == Ok(Parsed(Precedence(xs, dops), Cur(|s|, |s|)))
  {
    AtSplit(s, q, n, " pr");
    SegmentLast(s, q, n, out, opstack, prev, lit);
    FinishStacks(xs, dops, Cur(|s|, |s|));
  }

  /** A name that an operator and another name follow. */
  lemma {:induction false} ReadsNextName(s: string, q: int, n: string, names: seq<string>,
                                         ops: seq<string>, out: seq<Filter>, opstack: seq<string>,
                                         prev: Option<string>, xs: seq<Filter>, dops: seq<string>,
                                         allXs: seq<Filter>, allOps: seq<string>, lit: bool)
    requires 0 <= q && |names| == |ops| > 0 && |xs| == |dops| + 1
    requires At(s, q, n + Rest(names, ops)) && |s| == q + |n + Rest(names, ops)|
    requires AttrName(n) && Names(names) && Connectives(ops) && ExpectsNewFilter(prev)
    requires out + [Pr(n)] == StackOut(xs, dops) && opstack == StackOps(xs, dops)
    requires xs + Prs(names) == allXs && dops + ops == allOps
    requires lit ==> ShortAndRuns(allOps)
    ensures FilterLoop(s, q, false, lit, out, opstack, prev)
            == Ok(Parsed(Precedence(allXs, allOps), Cur(|s|, |s|)))
    decreases |names|, 2
  {
    var p := q + |n| + 4;
    NextText(s, q, n, names, ops);
    assert At(s, p, ops[0] + (" " + (names[0] + Rest(names[1..], ops[1..]))));
    NextName(names, ops, xs, dops, allXs, allOps);
    ReadsPresentIn(s, q, n, false, out, opstack, prev, lit);
    NameEndsFilter(n);
    ReadsOp(s, p, ops[0], names[0], names[1..], ops[1..], out + [Pr(n)], opstack, Some(n),
            xs, dops, allXs, allOps, lit);
  }

  /** An operator after a filter, and what follows it. */
  lemma {:induction false} ReadsOp(s: string, p: int, op: string, n: string, names: seq<string>,
                                   ops: seq<string>, out: seq<Filter>, opstack: seq<string>,
                                   prev: Option<string>,
                                   xs: seq<Filter>, dops: seq<string>,
                                   allXs: seq<Filter>, allOps: seq<string>, lit: bool)
    requires 0 <= p && |names| == |ops| && |xs| == |dops| + 1 && (op == "and" || op == "or")
    requires At(s, p, op + (" " + (n + Rest(names, ops)))) && |s| == p + |op| + 1 + |n + Rest(names, ops)|
    requires out == StackOut(xs, dops) && opstack == StackOps(xs, dops)
    requires AttrName(n) && Names(names) && Connectives(ops) && !ExpectsNewFilter(prev)
    requires (xs + [Pr(n)]) + Prs(names) == allXs && (dops + [op]) + ops == allOps
    requires lit ==> ShortAndRuns(allOps)
    ensures FilterLoop(s, p, false, lit, out, opstack, prev)
            == Ok(Parsed(Precedence(allXs, allOps), Cur(|s|, |s|)))
    decreases |names| + 1, 1
  {
    if op == "and" {
      ReadsAndOp(s, p, n, names, ops, out, opstack, prev, xs, dops, allXs, allOps, lit);
    } else {
      ReadsOrOp(s, p, n, names, ops, out, opstack, prev, xs, dops, allXs, allOps, lit);
    }
  }

  /** The pieces of the text after a name that another name follows. */
  lemma NextText(s: string, q: int, n: string, names: seq<string>, ops: seq<string>)
    requires 0 <= q && |names| == |ops| > 0
    requires At(s, q, n + Rest(names, ops)) && |s| == q + |n + Rest(names, ops)|
    ensures At(s, q, n) && At(s, q + |n|, " pr ")
    ensures At(s, q + |n| + 4, ops[0] + (" " + (names[0] + Rest(names[1..], ops[1..]))))
    ensures |s| == q + |n| + 4 + |ops[0]| + 1 + |names[0] + Rest(names[1..], ops[1..])|
  {
    var tail := ops[0] + (" " + (names[0] + Rest(names[1..], ops[1..])));
    RestStep(n, names, ops);
    AtSplit(s, q, n, Rest(names, ops));
    AtSplit(s, q + |n|, " pr ", tail);
  }

  /** The text after a name that another name follows. */
  lemma RestStep(n: string, names: seq<string>, ops: seq<string>)
    requires |names| == |ops| > 0
    ensures var tail := ops[0] + (" " + (names[0] + Rest(names[1..], ops[1..])));
      && Rest(names, ops) == " pr " + tail
      && |n + Rest(names, ops)| == |n| + 4 + |tail|
      && |tail| == |ops[0]| + 1 + |names[0] + Rest(names[1..], ops[1..])|
  {
  }

  /** The next name and operator, and the operands and operators that
      remain after them. */
  lemma NextName(names: seq<string>, ops: seq<string>, xs: seq<Filter>, dops: seq<string>,
                 allXs: seq<Filter>, allOps: seq<string>)
    requires |names| == |ops| > 0 && Names(names) && Connectives(ops)
    requires xs + Prs(names) == allXs && dops + ops == allOps
    ensures AttrName(names[0]) && Names(names[1..]) && Connectives(ops[1..])
    ensures (xs + [Pr(names[0])]) + Prs(names[1..]) == allXs
    ensures (dops + [ops[0]]) + ops[1..] == allOps
  {
    NextNames(names, xs, allXs);
    NextOps(ops, dops, allOps);
  }

  lemma NextNames(names: seq<string>, xs: seq<Filter>, allXs: seq<Filter>)
    requires |names| > 0 && Names(names) && xs + Prs(names) == allXs
    ensures AttrName(names[0]) && Names(names[1..])
    ensures (xs + [Pr(names[0])]) + Prs(names[1..]) == allXs
  {
    NamesTail(names);
    PrsCons(names, xs);
  }

  lemma NamesTail(names: seq<string>)
    requires |names| > 0 && Names(names)
    ensures AttrName(names[0]) && Names(names[1..])
  {
    forall i | 0 <= i < |names| - 1
      ensures AttrName(names[1..][i])
    {
      assert names[1..][i] == names[i + 1];
    }
  }

  lemma PrsCons(names: seq<string>, xs: seq<Filter>)
    requires |names| > 0
    ensures xs + Prs(names) == (xs + [Pr(names[0])]) + Prs(names[1..])
  {
    assert Prs(names) == [Pr(names[0])] + Prs(names[1..]);
    ConcatAssoc(xs, [Pr(names[0])], Prs(names[1..]));
  }

  lemma NextOps(ops: seq<string>, dops: seq<string>, allOps: seq<string>)
    requires |ops| > 0 && Connectives(ops) && dops + ops == allOps
    ensures Connectives(ops[1..]) && (dops + [ops[0]]) + ops[1..] == allOps
  {
    assert ops == [ops[0]] + ops[1..];
    assert forall i :: 0 <= i < |ops| - 1 ==> ops[1..][i] == ops[i + 1];
  }

  /** "and <n> pr ..." after a filter: "and" is pushed and the next name
      joins the last run. */
  lemma {:induction false} ReadsAndOp(s: string, p: int, n: string, names: seq<string>,
                                      ops: seq<string>, out: seq<Filter>, opstack: seq<string>,
                                      prev: Option<string>,
                                      xs: seq<Filter>, dops: seq<string>,
                                      allXs: seq<Filter>, allOps: seq<string>, lit: bool)
    requires 0 <= p && |names| == |ops| && |xs| == |dops| + 1
    requires At(s, p, "and" + (" " + (n + Rest(names, ops)))) && |s| == p + 4 + |n + Rest(names, ops)|
    requires out == StackOut(xs, dops) && opstack == StackOps(xs, dops)
    requires AttrName(n) && Names(names) && Connectives(ops) && !ExpectsNewFilter(prev)
    requires (xs + [Pr(n)]) + Prs(names) == allXs && (dops + ["and"]) + ops == allOps
    requires lit ==> ShortAndRuns(allOps)
    ensures FilterLoop(s, p, false, lit, out, opstack, prev)
            == Ok(Parsed(Precedence(allXs, allOps), Cur(|s|, |s|)))
    decreases |names| + 1, 0
  {
    var r := n + Rest(names, ops);
    assert "and" + (" " + r) == "and " + r;
    AtSplit(s, p, "and ", r);
    AndNext(s, p, out, opstack, prev, lit);
    AndPush(xs, dops, Pr(n));
    assert ExpectsNewFilter(Some("and")) by { assert EqualsIgnoreCase("and", "and"); }
    ReadsName(s, p + 4, n, names, ops, out, opstack + ["and"],
              Some("and"), xs + [Pr(n)], dops + ["and"], allXs, allOps, lit);
  }

  /** "or <n> pr ..." after a filter: the last run becomes one item, "or"
      is pushed and the next name starts a new run. */
  lemma {:induction false} ReadsOrOp(s: string, p: int, n: string, names: seq<string>,
                                     ops: seq<string>, out: seq<Filter>, opstack: seq<string>,
                                     prev: Option<string>,
                                     xs: seq<Filter>, dops: seq<string>,
                                     allXs: seq<Filter>, allOps: seq<string>, lit: bool)
    requires 0 <= p && |names| == |ops| && |xs| == |dops| + 1
    requires At(s, p, "or" + (" " + (n + Rest(names, ops)))) && |s| == p + 3 + |n + Rest(names, ops)|
    requires out == StackOut(xs, dops) && opstack == StackOps(xs, dops)
    requires AttrName(n) && Names(names) && Connectives(ops) && !ExpectsNewFilter(prev)
    requires (xs + [Pr(n)]) + Prs(names) == allXs && (dops + ["or"]) + ops == allOps
    requires lit ==> ShortAndRuns(allOps)
    ensures FilterLoop(s, p, false, lit, out, opstack, prev)
            == Ok(Parsed(Precedence(allXs, allOps), Cur(|s|, |s|)))
    decreases |names| + 1, 0
  {
    var r := n + Rest(names, ops);
    assert "or" + (" " + r) == "or " + r;
    AtSplit(s, p, "or ", r);
    if lit {
      ShortBefore(dops, ops, allOps);
    }
    var items, ors := OrPush(xs, dops, Pr(n), out, opstack, lit);
    OrNext(s, p, out, opstack, prev, items, ors, lit);
    assert ExpectsNewFilter(Some("or")) by { assert EqualsIgnoreCase("or", "or"); }
    ReadsName(s, p + 3, n, names, ops, items, ors + ["or"],
              Some("or"), xs + [Pr(n)], dops + ["or"], allXs, allOps, lit);
  }
}
