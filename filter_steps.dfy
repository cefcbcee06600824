/** Step lemmas for the filter reader: what readFilterToken returns on a
    word, a delimiter or the end of the input, and how one token of the
    filter reader's loop moves its state.  The precedence and grouping
    properties in module FilterProperties are chains of these steps. */
module FilterSteps {
  import opened Common
  import opened JsonScalar
  import opened Filters
  import opened ParserSpec

  /** An attribute name made of ASCII letters and digits only. */
  predicate PlainName(n: string) {
    |n| > 0 && forall i :: 0 <= i < |n| ==> IsLetterOrDigit(n[i])
  }

  /** A plain attribute name that the reader does not take for a logical
      operator. */
  predicate AttrName(n: string) {
    PlainName(n) && !EqualsIgnoreCase(n, "not") && !EqualsIgnoreCase(n, "and")
    && !EqualsIgnoreCase(n, "or")
  }

  /** After an attribute name the reader expects an operator, not a new
      filter. */
  lemma NameEndsFilter(n: string)
    requires AttrName(n)
    ensures !ExpectsNewFilter(Some(n))
  {
    assert IsLetterOrDigit(n[0]);
  }

  /** The path of a single attribute named n, without schema URN. */
  function NamePath(n: string): Path {
    Path(None, [Element(n, None)])
  }

  /** "n pr": the presence test on the attribute n. */
  function Pr(n: string): Filter {
    Present(NamePath(n))
  }

  /** Where the reader stands after a word that ends at k: past a
      terminating space, or at the delimiter or end of input that ended it. */
  function After(s: string, k: nat): nat
    requires k <= |s|
  {
    if k < |s| && s[k] == ' ' then k + 1 else k
  }

  /** What may follow a word in the filters the properties read. */
  predicate WordEnd(s: string, k: nat) {
    k <= |s| && (k == |s| || s[k] == ' ' || s[k] == ')')
  }

  // ---------------------------------------------------------------------
  // Tokens

  /** No spaces to skip before a character other than a space. */
  lemma NoSpaces(s: string, pos: nat)
    requires pos <= |s| && (pos == |s| || s[pos] != ' ')
    ensures SpacesEnd(s, pos) == pos
  {
  }

  /** One space to skip. */
  lemma OneSpace(s: string, pos: nat)
    requires pos < |s| && s[pos] == ' ' && (pos + 1 == |s| || s[pos + 1] != ' ')
    ensures SpacesEnd(s, pos) == pos + 1
  {
  }

  /** The filter-token loop passes over filter characters. */
  lemma {:induction false} FilterTokenFromRun(s: string, start: nat, j: nat, k: nat, vm: bool)
    requires start <= j <= k <= |s|
    requires forall i :: j <= i < k ==> IsFilterChar(s[i])
    ensures FilterTokenFrom(s, start, j, vm) == FilterTokenFrom(s, start, k, vm)
    decreases k - j
  {
    if j < k {
      FilterTokenFromRun(s, start, j + 1, k, vm);
    }
  }

  /** A word of filter characters at start, after the spaces from pos. */
  lemma WordToken(s: string, pos: nat, start: nat, vm: bool, w: string)
    requires pos <= start <= |s| && SpacesEnd(s, pos) == start
    requires At(s, start, w) && |w| > 0 && WordEnd(s, start + |w|)
    requires forall i :: 0 <= i < |w| ==> IsFilterChar(w[i])
    ensures FilterToken(s, pos, vm) == Ok(Tok(Some(w), Cur(After(s, start + |w|), start)))
  {
    var k := start + |w|;
    forall i | start <= i < k
      ensures IsFilterChar(s[i])
    {
      AtIndex(s, start, w, i - start);
    }
    FilterTokenFromRun(s, start, start, k, vm);
    AtSlice(s, start, w);
  }

  /** A parenthesis at start, after the spaces from pos, is a token by
      itself. */
  lemma ParenthesisToken(s: string, pos: nat, start: nat, vm: bool)
    requires pos <= start < |s| && SpacesEnd(s, pos) == start
    requires s[start] == '(' || s[start] == ')'
    ensures FilterToken(s, pos, vm) == Ok(Tok(Some([s[start]]), Cur(start + 1, start)))
  {
  }

  /** Nothing but spaces from pos on. */
  lemma EndToken(s: string, pos: nat, vm: bool)
    requires pos <= |s| && SpacesEnd(s, pos) == |s|
    ensures FilterToken(s, pos, vm) == Ok(Tok(None, Cur(|s|, |s|)))
  {
  }

  /** A plain name read as a path is the one-element path of that name. */
  lemma PlainNamePath(n: string)
    requires PlainName(n)
    ensures ParsePathSpec(n) == Ok(NamePath(n))
  {
    NameTrimmed(n);
    PlainNameLoop(n);
    PathOf(n, Ok(NamePath(n)));
  }

  lemma NameTrimmed(n: string)
    requires PlainName(n)
    ensures Trim(n) == n
  {
    assert IsLetterOrDigit(n[0]) && IsLetterOrDigit(n[|n| - 1]);
  }

  lemma PlainNameLoop(n: string)
    requires PlainName(n)
    ensures PathLoop(n, 0, None) == Ok(NamePath(n))
  {
    PlainNameToken(n);
    PlainNameSegment(n);
    PathEnd(n, NamePath(n));
  }

  /** A text with no white space at either end is read as it stands. */
  lemma PathOf(t: string, r: Result<Path>)
    requires Trim(t) == t && PathLoop(t, 0, None) == r
    ensures ParsePathSpec(t) == r
  {
  }

  lemma PlainNameToken(n: string)
    requires PlainName(n)
    ensures PathToken(n, 0) == Ok(Tok(Some(n), Cur(|n|, 0)))
  {
    PathTokenFromRun(n, 0, 0, |n|);
    assert n[0..|n|] == n;
  }

  lemma PlainNameSegment(n: string)
    requires PlainName(n)
    ensures PathSegment(n, Cur(|n|, 0), None, n) == NextSegment(|n|, Some(NamePath(n)))
  {
    assert !StartsWithUrn(n) by {
      if |n| >= 4 {
        assert IsLetterOrDigit(n[..4][3]);
      }
    }
    assert Last(n) != '[' by { assert IsLetterOrDigit(n[|n| - 1]); }
  }

  /** At the end of the input the path read so far is the result. */
  lemma PathEnd(s: string, p: Path)
    ensures PathLoop(s, |s|, Some(p)) == Ok(p)
  {
    assert PathToken(s, |s|) == Ok(Tok(None, Cur(|s|, |s|)));
  }

  /** The path-token loop passes over path characters. */
  lemma {:induction false} PathTokenFromRun(s: string, start: nat, j: nat, k: nat)
    requires start <= j <= k <= |s|
    requires forall i :: j <= i < k ==> IsPathChar(s[i])
    ensures PathTokenFrom(s, start, j) == PathTokenFrom(s, start, k)
    decreases k - j
  {
    if j < k {
      PathTokenFromRun(s, start, j + 1, k);
    }
  }

  // ---------------------------------------------------------------------
  // Steps of the filter reader's loop

  /** The operator "pr" after the attribute n. */
  lemma PresentComparison(s: string, c: Cur, vm: bool, n: string, out: seq<Filter>, ops: seq<string>)
    requires PlainName(n) && TokenFrom(s, 0, Tok(Some(n), c))
    requires At(s, c.pos, "pr") && WordEnd(s, c.pos + 2)
    ensures ComparisonStep(s, c, vm, n, out, ops)
            == Continue(Cur(After(s, c.pos + 2), c.pos), out + [Pr(n)], ops, Some(n))
  {
    assert s[c.pos] == 'p' by { AtIndex(s, c.pos, "pr", 0); }
    NoSpaces(s, c.pos);
    var c2 := Cur(After(s, c.pos + 2), c.pos);
    WordToken(s, c.pos, c.pos, vm, "pr");
    assert EqualsIgnoreCase("pr", "pr");
    assert ComparisonTail(s, c.pos, vm, NamePath(n)) == Ok(Parsed(Present(NamePath(n)), c2));
    PlainNamePath(n);
  }

  /** "n pr" where a filter may start: a presence test on n is pushed. */
  lemma ReadsPresent(s: string, pos: nat, start: nat, vm: bool, n: string, out: seq<Filter>,
                     ops: seq<string>, prev: Option<string>, lit: bool)
    requires PlainName(n) && !EqualsIgnoreCase(n, "not") && ExpectsNewFilter(prev)
    requires pos <= start <= |s| && SpacesEnd(s, pos) == start
    requires At(s, start, n) && At(s, start + |n|, " pr") && WordEnd(s, start + |n| + 3)
    ensures FilterLoop(s, pos, vm, lit, out, ops, prev)
            == FilterLoop(s, After(s, start + |n| + 3), vm, lit, out + [Pr(n)], ops, Some(n))
  {
    var c := Cur(start + |n| + 1, start);
    var c2 := Cur(After(s, start + |n| + 3), c.pos);
    PresentStep(s, pos, start, vm, n, out, ops, prev, lit);
    StepContinues(s, pos, vm, n, c, out, ops, prev, c2, out + [Pr(n)], ops, Some(n), lit);
  }

  /** The token and the loop step of "n pr", apart from the loop. */
  lemma PresentStep(s: string, pos: nat, start: nat, vm: bool, n: string, out: seq<Filter>,
                    ops: seq<string>, prev: Option<string>, lit: bool)
    requires PlainName(n) && !EqualsIgnoreCase(n, "not") && ExpectsNewFilter(prev)
    requires pos <= start <= |s| && SpacesEnd(s, pos) == start
    requires At(s, start, n) && At(s, start + |n|, " pr") && WordEnd(s, start + |n| + 3)
    ensures FilterToken(s, pos, vm) == Ok(Tok(Some(n), Cur(start + |n| + 1, start)))
    ensures FilterStep(s, Cur(start + |n| + 1, start), vm, lit, n, out, ops, prev)
            == Continue(Cur(After(s, start + |n| + 3), start + |n| + 1), out + [Pr(n)], ops, Some(n))
  {
    PresentToken(s, pos, start, vm, n);
    PresentTail(s, pos, start, vm, n, out, ops);
    NameStep(s, Cur(start + |n| + 1, start), vm, n, out, ops, prev, lit);
  }

  /** The token "n" before " pr". */
  lemma PresentToken(s: string, pos: nat, start: nat, vm: bool, n: string)
    requires PlainName(n)
    requires pos <= start <= |s| && SpacesEnd(s, pos) == start
    requires At(s, start, n) && At(s, start + |n|, " pr")
    ensures FilterToken(s, pos, vm) == Ok(Tok(Some(n), Cur(start + |n| + 1, start)))
  {
    SpacePrText(s, start + |n|);
    WordToken(s, pos, start, vm, n);
  }

  /** The "pr" after the token "n". */
  lemma PresentTail(s: string, pos: nat, start: nat, vm: bool, n: string, out: seq<Filter>,
                    ops: seq<string>)
    requires PlainName(n)
    requires pos <= start <= |s| && SpacesEnd(s, pos) == start
    requires At(s, start + |n|, " pr") && WordEnd(s, start + |n| + 3)
    requires FilterToken(s, pos, vm) == Ok(Tok(Some(n), Cur(start + |n| + 1, start)))
    ensures ComparisonStep(s, Cur(start + |n| + 1, start), vm, n, out, ops)
            == Continue(Cur(After(s, start + |n| + 3), start + |n| + 1), out + [Pr(n)], ops, Some(n))
  {
    SpacePrText(s, start + |n|);
    PresentComparison(s, Cur(start + |n| + 1, start), vm, n, out, ops);
  }

  /** A token whose step continues the loop: the loop goes on from there. */
  lemma StepContinues(s: string, pos: nat, vm: bool, t: string, c: Cur, out: seq<Filter>,
                      ops: seq<string>, prev: Option<string>,
                      c2: Cur, out2: seq<Filter>, ops2: seq<string>, prev2: Option<string>, lit: bool)
    requires pos <= |s| && FilterToken(s, pos, vm) == Ok(Tok(Some(t), c)) && t != []
    requires FilterStep(s, c, vm, lit, t, out, ops, prev) == Continue(c2, out2, ops2, prev2)
    ensures c2.pos <= |s|
    ensures FilterLoop(s, pos, vm, lit, out, ops, prev) == FilterLoop(s, c2.pos, vm, lit, out2, ops2, prev2)
  {
  }

  lemma SpacePrText(s: string, k: nat)
    requires At(s, k, " pr")
    ensures k < |s| && s[k] == ' ' && At(s, k + 1, "pr") && After(s, k) == k + 1
  {
    assert " pr" == " " + "pr";
    AtSplit(s, k, " ", "pr");
    AtIndex(s, k, " ", 0);
  }

  /** A plain name where a filter may start begins a comparison. */
  lemma NameStep(s: string, c: Cur, vm: bool, n: string, out: seq<Filter>, ops: seq<string>,
                 prev: Option<string>, lit: bool)
    requires PlainName(n) && !EqualsIgnoreCase(n, "not") && ExpectsNewFilter(prev)
    requires TokenFrom(s, 0, Tok(Some(n), c))
    ensures FilterStep(s, c, vm, lit, n, out, ops, prev) == ComparisonStep(s, c, vm, n, out, ops)
  {
    assert n != "(" && n != ")" && n != "]" && Last(n) != '[' by {
      assert IsLetterOrDigit(n[0]) && IsLetterOrDigit(Last(n));
    }
  }

  /** "and" after a filter: pushed on the operator stack. */
  lemma ReadsAnd(s: string, pos: nat, start: nat, vm: bool, out: seq<Filter>,
                ops: seq<string>, prev: Option<string>, lit: bool)
    requires !ExpectsNewFilter(prev)
    requires pos <= start <= |s| && SpacesEnd(s, pos) == start
    requires At(s, start, "and") && WordEnd(s, start + 3)
    ensures FilterLoop(s, pos, vm, lit, out, ops, prev)
            == FilterLoop(s, After(s, start + 3), vm, lit, out, ops + ["and"], Some("and"))
  {
    WordToken(s, pos, start, vm, "and");
    var c := Cur(After(s, start + 3), start);
    assert FilterStep(s, c, vm, lit, "and", out, ops, prev)
           == Continue(c, out, ops + ["and"], Some("and"));
  }

  /** "or" after a filter: the pending ANDs are combined, then "or" is
      pushed. */
  lemma ReadsOr(s: string, pos: nat, start: nat, vm: bool, out: seq<Filter>,
               ops: seq<string>, prev: Option<string>, lit: bool)
    requires !ExpectsNewFilter(prev)
    requires pos <= start <= |s| && SpacesEnd(s, pos) == start
    requires At(s, start, "or") && WordEnd(s, start + 2)
    requires Drain(out, ops, lit).Ok?
    ensures FilterLoop(s, pos, vm, lit, out, ops, prev)
            == FilterLoop(s, After(s, start + 2), vm, lit, Drain(out, ops, lit).value.out,
                          Drain(out, ops, lit).value.ops + ["or"], Some("or"))
  {
    WordToken(s, pos, start, vm, "or");
    var c := Cur(After(s, start + 2), start);
    assert !EqualsIgnoreCase("or", "and");
    assert FilterStep(s, c, vm, lit, "or", out, ops, prev)
           == Continue(c, Drain(out, ops, lit).value.out, Drain(out, ops, lit).value.ops + ["or"],
                       Some("or"));
  }

  /** "(" where a filter may start: pushed on the operator stack. */
  lemma ReadsOpen(s: string, pos: nat, start: nat, vm: bool, out: seq<Filter>,
                 ops: seq<string>, prev: Option<string>, lit: bool)
    requires ExpectsNewFilter(prev)
    requires pos <= start < |s| && SpacesEnd(s, pos) == start && s[start] == '('
    ensures FilterLoop(s, pos, vm, lit, out, ops, prev)
            == FilterLoop(s, start + 1, vm, lit, out, ops + ["("], Some("("))
  {
    ParenthesisToken(s, pos, start, vm);
    assert [s[start]] == "(";
  }

  /** "not (" where a filter may start: "not" is pushed on the operator
      stack. */
  lemma ReadsNot(s: string, pos: nat, start: nat, vm: bool, out: seq<Filter>,
                ops: seq<string>, prev: Option<string>, lit: bool)
    requires ExpectsNewFilter(prev)
    requires pos <= start <= |s| && SpacesEnd(s, pos) == start
    requires At(s, start, "not (")
    ensures FilterLoop(s, pos, vm, lit, out, ops, prev)
            == FilterLoop(s, start + 5, vm, lit, out, ops + ["not"], Some("not"))
  {
    NotStepAt(s, pos, start, vm, out, ops, prev, lit);
    StepContinues(s, pos, vm, "not", Cur(start + 4, start), out, ops, prev,
                  Cur(start + 5, start + 4), out, ops + ["not"], Some("not"), lit);
  }

  /** The token and the loop step of "not (", apart from the loop. */
  lemma NotStepAt(s: string, pos: nat, start: nat, vm: bool, out: seq<Filter>,
                  ops: seq<string>, prev: Option<string>, lit: bool)
    requires ExpectsNewFilter(prev)
    requires pos <= start <= |s| && SpacesEnd(s, pos) == start
    requires At(s, start, "not (")
    ensures FilterToken(s, pos, vm) == Ok(Tok(Some("not"), Cur(start + 4, start)))
    ensures FilterStep(s, Cur(start + 4, start), vm, lit, "not", out, ops, prev)
            == Continue(Cur(start + 5, start + 4), out, ops + ["not"], Some("not"))
  {
    AtSplit(s, start, "not", " (");
    assert s[start + 3] == ' ' && s[start + 4] == '(' by {
      AtIndex(s, start + 3, " (", 0);
      AtIndex(s, start + 3, " (", 1);
    }
    WordToken(s, pos, start, vm, "not");
    OneSpace(s, start + 4 - 1);
    ParenthesisToken(s, start + 4, start + 4, vm);
    assert [s[start + 4]] == "(";
    var c := Cur(start + 4, start);
    assert ParserSpec.NotStep(s, c, vm, "not", out, ops)
           == Continue(Cur(start + 5, start + 4), out, ops + ["not"], Some("not"));
  }

  /** ")" after a filter: the group is closed by closeGrouping, and wrapped
      in a NOT when "not" opened it. */
  lemma ReadsClose(s: string, pos: nat, start: nat, vm: bool, out: seq<Filter>,
                  ops: seq<string>, prev: Option<string>, lit: bool)
    requires !ExpectsNewFilter(prev)
    requires pos <= start < |s| && SpacesEnd(s, pos) == start && s[start] == ')'
    ensures FilterLoop(s, pos, vm, lit, out, ops, prev)
            == match Close(Cur(start + 1, start), ")", out, ops, lit)
               case Fail(e) => Err(e)
               case Break(c2) => FinishFilter(c2, out, ops)
               case Continue(c2, out2, ops2, prev2) => FilterLoop(s, start + 1, vm, lit, out2, ops2, prev2)
  {
    ParenthesisToken(s, pos, start, vm);
    assert [s[start]] == ")";
  }

  /** The end of the input: what is left on the stacks is closed. */
  lemma ReadsEnd(s: string, pos: nat, vm: bool, out: seq<Filter>, ops: seq<string>,
                prev: Option<string>, lit: bool)
    requires pos <= |s| && SpacesEnd(s, pos) == |s|
    ensures FilterLoop(s, pos, vm, lit, out, ops, prev) == FinishFilter(Cur(|s|, |s|), out, ops)
  {
    EndToken(s, pos, vm);
  }

  // ---------------------------------------------------------------------
  // The stacks on small inputs

  /** No "and" on top of the operator stack: "or" changes nothing. */
  lemma DrainNone(out: seq<Filter>, ops: seq<string>, lit: bool)
    requires ops == [] || !EqualsIgnoreCase(Last(ops), "and")
    ensures Drain(out, ops, lit) == Ok(Stacks(out, ops))
  {
  }

  /** One "and" between the two top operands: the code's drain and the
      intended one agree on their AND. */
  lemma DrainPair(out: seq<Filter>, ops: seq<string>, x: Filter, y: Filter, lit: bool)
    requires ops == [] || !EqualsIgnoreCase(Last(ops), "and")
    ensures Drain(out + [x, y], ops + ["and"], lit) == Ok(Stacks(out + [And([x, y])], ops))
  {
    assert EqualsIgnoreCase("and", "and");
    var o := out + [x, y];
    assert Last(ops + ["and"]) == "and" && Init(ops + ["and"]) == ops;
    assert Last(o) == y && Init(o) == out + [x] && [y] + [] == [y];
    assert Last(out + [x]) == x && Init(out + [x]) == out && [x] + [y] == [x, y];
    if lit {
      assert DrainAnds(o, ops + ["and"], []) == DrainAnds(out + [And([x, y])], ops, [x, y]);
    } else {
      assert DrainAndRun(o, ops + ["and"], []) == DrainAndRun(out + [x], ops, [y]);
    }
  }

  /** At the end of the input, one operator between two operands. */
  lemma FinishPair(c: Cur, op: string, x: Filter, y: Filter)
    requires !OpensGroup(op)
    ensures FinishFilter(c, [x, y], [op]) == Ok(Parsed(Combine(op, [x, y]), c))
  {
    assert Last([op]) == op && Init([op]) == [];
    assert Last([x, y]) == y && Init([x, y]) == [x] && [y] + [] == [y];
    assert CloseGroupingLoop([op], [x, y], true, None, None, [])
           == CloseGroupingLoop([], [x], true, Some(op), Some(op), [y]);
    assert [x] + [y] == [x, y];
  }

  /** At the end of the input, "or" then "and" between three operands. */
  lemma FinishOrAnd(c: Cur, x: Filter, y: Filter, z: Filter)
    ensures FinishFilter(c, [x, y, z], ["or", "and"]) == Ok(Parsed(Or([x, And([y, z])]), c))
  {
    assert EqualsIgnoreCase("and", "and") && !EqualsIgnoreCase("or", "and");
    assert !OpensGroup("and") by { assert LowerChar("and"[0]) != LowerChar("not"[0]); }
    assert Last(["or", "and"]) == "and" && Init(["or", "and"]) == ["or"];
    assert Last([x, y, z]) == z && Init([x, y, z]) == [x, y] && [z] + [] == [z];
    assert CloseGroupingLoop(["or", "and"], [x, y, z], true, None, None, [])
           == CloseGroupingLoop(["or"], [x, y], true, Some("and"), Some("and"), [z]);
    assert Last(["or"]) == "or" && Init(["or"]) == [];
    assert Last([x, y]) == y && Init([x, y]) == [x] && [y] + [z] == [y, z];
    assert Combine("and", [y, z]) == And([y, z]);
    assert !OpensGroup("or") && "or" != "and";
    assert CloseGroupingLoop(["or"], [x, y], true, Some("and"), Some("and"), [z])
           == CloseGroupingLoop([], [x], true, Some("or"), Some("or"), [And([y, z])]);
    assert [x] + [And([y, z])] == [x, And([y, z])];
  }

  // ---------------------------------------------------------------------
  // The same steps for the pieces of text at p, including the space or
  // delimiter after a token.

  /** n, then " pr " */
  lemma ReadsPresentIn(s: string, p: nat, n: string, vm: bool,
                       out: seq<Filter>, ops: seq<string>, prev: Option<string>, lit: bool)
    requires PlainName(n) && !EqualsIgnoreCase(n, "not") && ExpectsNewFilter(prev)
    requires At(s, p, n) && At(s, p + |n|, " pr ")
    ensures FilterLoop(s, p, vm, lit, out, ops, prev)
            == FilterLoop(s, p + |n| + 4, vm, lit, out + [Pr(n)], ops, Some(n))
  {
    assert " pr " == " pr" + " ";
    AtSplit(s, p + |n|, " pr", " ");
    AtIndex(s, p + |n| + 3, " ", 0);
    PresentAt(s, p, n, vm, out, ops, prev, lit);
  }

  /** n, then " pr" at the end of the input. */
  lemma ReadsPresentLast(s: string, p: nat, n: string, vm: bool,
                         out: seq<Filter>, ops: seq<string>, prev: Option<string>, lit: bool)
    requires PlainName(n) && !EqualsIgnoreCase(n, "not") && ExpectsNewFilter(prev)
    requires At(s, p, n) && At(s, p + |n|, " pr") && p + |n| + 3 == |s|
    ensures FilterLoop(s, p, vm, lit, out, ops, prev)
            == FilterLoop(s, |s|, vm, lit, out + [Pr(n)], ops, Some(n))
  {
    PresentAt(s, p, n, vm, out, ops, prev, lit);
  }

  /** n, then " pr" and ")" */
  lemma ReadsPresentBeforeClose(s: string, p: nat, n: string, vm: bool,
                                out: seq<Filter>, ops: seq<string>, prev: Option<string>, lit: bool)
    requires PlainName(n) && !EqualsIgnoreCase(n, "not") && ExpectsNewFilter(prev)
    requires At(s, p, n) && At(s, p + |n|, " pr") && At(s, p + |n| + 3, ")")
    ensures FilterLoop(s, p, vm, lit, out, ops, prev)
            == FilterLoop(s, p + |n| + 3, vm, lit, out + [Pr(n)], ops, Some(n))
  {
    AtIndex(s, p + |n| + 3, ")", 0);
    PresentAt(s, p, n, vm, out, ops, prev, lit);
  }

  lemma PresentAt(s: string, p: nat, n: string, vm: bool,
                  out: seq<Filter>, ops: seq<string>, prev: Option<string>, lit: bool)
    requires PlainName(n) && !EqualsIgnoreCase(n, "not") && ExpectsNewFilter(prev)
    requires At(s, p, n) && At(s, p + |n|, " pr") && WordEnd(s, p + |n| + 3)
    ensures FilterLoop(s, p, vm, lit, out, ops, prev)
            == FilterLoop(s, After(s, p + |n| + 3), vm, lit, out + [Pr(n)], ops, Some(n))
  {
    AtIndex(s, p, n, 0);
    assert s[p] != ' ' by { assert IsLetterOrDigit(n[0]); }
    NoSpaces(s, p);
    ReadsPresent(s, p, p, vm, n, out, ops, prev, lit);
  }

  /** Leading spaces: none or one. */
  lemma SkipSpace(s: string, p: nat, sp: string, w: string)
    requires (sp == [] || sp == " ") && At(s, p, sp + w) && |w| > 0 && w[0] != ' '
    ensures SpacesEnd(s, p) == p + |sp| && At(s, p + |sp|, w)
  {
    if sp == [] {
      assert sp + w == w;
      SkipNoSpace(s, p, w);
    } else {
      SkipOneSpace(s, p, w);
    }
  }

  lemma SkipNoSpace(s: string, p: nat, w: string)
    requires At(s, p, w) && |w| > 0 && w[0] != ' '
    ensures SpacesEnd(s, p) == p
  {
    AtIndex(s, p, w, 0);
    NoSpaces(s, p);
  }

  lemma SkipOneSpace(s: string, p: nat, w: string)
    requires At(s, p, " " + w) && |w| > 0 && w[0] != ' '
    ensures SpacesEnd(s, p) == p + 1 && At(s, p + 1, w)
  {
    AtSplit(s, p, " ", w);
    AtIndex(s, p + 1, w, 0);
    AtIndex(s, p, " ", 0);
    OneSpace(s, p);
  }

  /** "and " after a filter, after at most one space. */
  lemma ReadsAndIn(s: string, p: nat, sp: string, vm: bool,
                   out: seq<Filter>, ops: seq<string>, prev: Option<string>, lit: bool)
    requires !ExpectsNewFilter(prev) && (sp == [] || sp == " ")
    requires At(s, p, sp + "and ")
    ensures FilterLoop(s, p, vm, lit, out, ops, prev)
            == FilterLoop(s, p + |sp| + 4, vm, lit, out, ops + ["and"], Some("and"))
  {
    SkipSpace(s, p, sp, "and ");
    assert "and " == "and" + " ";
    AtSplit(s, p + |sp|, "and", " ");
    AtIndex(s, p + |sp| + 3, " ", 0);
    ReadsAnd(s, p, p + |sp|, vm, out, ops, prev, lit);
  }

  /** "or " after a filter, after at most one space. */
  lemma ReadsOrIn(s: string, p: nat, sp: string, vm: bool,
                  out: seq<Filter>, ops: seq<string>, prev: Option<string>, lit: bool)
    requires !ExpectsNewFilter(prev) && (sp == [] || sp == " ")
    requires At(s, p, sp + "or ")
    requires Drain(out, ops, lit).Ok?
    ensures FilterLoop(s, p, vm, lit, out, ops, prev)
            == FilterLoop(s, p + |sp| + 3, vm, lit, Drain(out, ops, lit).value.out,
                          Drain(out, ops, lit).value.ops + ["or"], Some("or"))
  {
    SkipSpace(s, p, sp, "or ");
    assert "or " == "or" + " ";
    AtSplit(s, p + |sp|, "or", " ");
    AtIndex(s, p + |sp| + 2, " ", 0);
    ReadsOr(s, p, p + |sp|, vm, out, ops, prev, lit);
  }

  /** "(" where a filter may start. */
  lemma ReadsOpenIn(s: string, p: nat, vm: bool,
                    out: seq<Filter>, ops: seq<string>, prev: Option<string>, lit: bool)
    requires ExpectsNewFilter(prev)
    requires At(s, p, "(")
    ensures FilterLoop(s, p, vm, lit, out, ops, prev)
            == FilterLoop(s, p + 1, vm, lit, out, ops + ["("], Some("("))
  {
    AtIndex(s, p, "(", 0);
    NoSpaces(s, p);
    ReadsOpen(s, p, p, vm, out, ops, prev, lit);
  }

  /** "not (" where a filter may start. */
  lemma ReadsNotIn(s: string, p: nat, vm: bool,
                   out: seq<Filter>, ops: seq<string>, prev: Option<string>, lit: bool)
    requires ExpectsNewFilter(prev)
    requires At(s, p, "not (")
    ensures FilterLoop(s, p, vm, lit, out, ops, prev)
            == FilterLoop(s, p + 5, vm, lit, out, ops + ["not"], Some("not"))
  {
    AtIndex(s, p, "not (", 0);
    NoSpaces(s, p);
    ReadsNot(s, p, p, vm, out, ops, prev, lit);
  }

  /** ")" after a filter. */
  lemma ReadsCloseIn(s: string, p: nat, vm: bool,
                     out: seq<Filter>, ops: seq<string>, prev: Option<string>, lit: bool)
    requires !ExpectsNewFilter(prev)
    requires At(s, p, ")")
    ensures FilterLoop(s, p, vm, lit, out, ops, prev)
            == match Close(Cur(p + 1, p), ")", out, ops, lit)
               case Fail(e) => Err(e)
               case Break(c2) => FinishFilter(c2, out, ops)
               case Continue(c2, out2, ops2, prev2) => FilterLoop(s, p + 1, vm, lit, out2, ops2, prev2)
  {
    AtIndex(s, p, ")", 0);
    NoSpaces(s, p);
    ReadsClose(s, p, p, vm, out, ops, prev, lit);
  }

  // ---------------------------------------------------------------------
  // Segments: a presence test and what follows it

  /** "and " right after a filter. */
  lemma AndNext(s: string, q: nat, out: seq<Filter>, ops: seq<string>, prev: Option<string>, lit: bool)
    requires !ExpectsNewFilter(prev) && At(s, q, "and ")
    ensures FilterLoop(s, q, false, lit, out, ops, prev)
            == FilterLoop(s, q + 4, false, lit, out, ops + ["and"], Some("and"))
  {
    var e: string := [];
    assert e + "and " == "and " && q + |e| + 4 == q + 4;
    ReadsAndIn(s, q, e, false, out, ops, prev, lit);
  }

  /** "or " right after a filter. */
  lemma OrNext(s: string, q: nat, out: seq<Filter>, ops: seq<string>, prev: Option<string>,
               out2: seq<Filter>, ops2: seq<string>, lit: bool)
    requires !ExpectsNewFilter(prev) && At(s, q, "or ")
    requires Drain(out, ops, lit) == Ok(Stacks(out2, ops2))
    ensures FilterLoop(s, q, false, lit, out, ops, prev)
            == FilterLoop(s, q + 3, false, lit, out2, ops2 + ["or"], Some("or"))
  {
    var e: string := [];
    assert e + "or " == "or " && q + |e| + 3 == q + 3;
    ReadsOrIn(s, q, e, false, out, ops, prev, lit);
  }

  /** n, " pr" at the end of the input. */
  lemma SegmentLast(s: string, p: nat, n: string, out: seq<Filter>, ops: seq<string>,
                    prev: Option<string>, lit: bool)
    requires AttrName(n) && ExpectsNewFilter(prev)
    requires At(s, p, n) && At(s, p + |n|, " pr") && |s| == p + |n| + 3
    ensures FilterLoop(s, p, false, lit, out, ops, prev)
            == FinishFilter(Cur(|s|, |s|), out + [Pr(n)], ops)
  {
    ReadsPresentLast(s, p, n, false, out, ops, prev, lit);
    NoSpaces(s, |s|);
    ReadsEnd(s, |s|, false, out + [Pr(n)], ops, Some(n), lit);
  }

  /** A text that starts with a plain name and ends in "pr" or ")" needs
      no trimming; its filter is what the reader's loop returns at the end
      of it. */
  lemma ParsesAs(s: string, a: string, f: Filter, lit: bool)
    requires PlainName(a) && At(s, 0, a) && |s| > 0 && s[|s| - 1] in {'r', ')'}
    requires FilterLoop(s, 0, false, lit, [], [], None) == Ok(Parsed(f, Cur(|s|, |s|)))
    ensures ParseFilterSpec(s, lit) == Ok(f)
  {
    AtIndex(s, 0, a, 0);
    assert IsLetterOrDigit(a[0]);
    assert Trim(s) == s;
  }

  /** A text with no space or control character at either end: its filter
      is what the reader's loop returns at its end. */
  lemma ParsesFrom(s: string, f: Filter, lit: bool)
    requires |s| > 0 && s[0] > ' ' && s[|s| - 1] > ' '
    requires FilterLoop(s, 0, false, lit, [], [], None) == Ok(Parsed(f, Cur(|s|, |s|)))
    ensures ParseFilterSpec(s, lit) == Ok(f)
  {
  }

  // ---------------------------------------------------------------------
  // The same steps on a text and the rest that follows each piece

  /** "n pr " and then rest. */
  lemma PresentThen(s: string, p: int, q: int, n: string, rest: string,
                    out: seq<Filter>, ops: seq<string>, prev: Option<string>, lit: bool)
    requires 0 <= p && q == p + |n| + 4 && AttrName(n) && ExpectsNewFilter(prev) && At(s, p, n + (" pr " + rest))
    ensures At(s, q, rest)
    ensures FilterLoop(s, p, false, lit, out, ops, prev)
            == FilterLoop(s, q, false, lit, out + [Pr(n)], ops, Some(n))
  {
    PresentText(s, p, n, rest);
    ReadsPresentIn(s, p, n, false, out, ops, prev, lit);
  }

  lemma PresentText(s: string, p: nat, n: string, rest: string)
    requires At(s, p, n + (" pr " + rest))
    ensures At(s, p, n) && At(s, p + |n|, " pr ") && At(s, p + |n| + 4, rest)
  {
    AtSplit(s, p, n, " pr " + rest);
    AtSplit(s, p + |n|, " pr ", rest);
  }

  /** "n pr" right before ")" and then rest. */
  lemma PresentBeforeClose(s: string, p: int, q: int, n: string, rest: string,
                           out: seq<Filter>, ops: seq<string>, prev: Option<string>, lit: bool)
    requires 0 <= p && q == p + |n| + 3 && AttrName(n) && ExpectsNewFilter(prev) && At(s, p, n + (" pr" + (")" + rest)))
    ensures At(s, q, ")" + rest)
    ensures FilterLoop(s, p, false, lit, out, ops, prev)
            == FilterLoop(s, q, false, lit, out + [Pr(n)], ops, Some(n))
  {
    AtSplit(s, p, n, " pr" + (")" + rest));
    AtSplit(s, p + |n|, " pr", ")" + rest);
    AtSplit(s, p + |n| + 3, ")", rest);
    ReadsPresentBeforeClose(s, p, n, false, out, ops, prev, lit);
  }

  /** "n pr" at the end of the text. */
  lemma PresentLast(s: string, p: int, n: string,
                    out: seq<Filter>, ops: seq<string>, prev: Option<string>, lit: bool)
    requires 0 <= p && AttrName(n) && ExpectsNewFilter(prev) && At(s, p, n + " pr")
    requires |s| == p + |n| + 3
    ensures FilterLoop(s, p, false, lit, out, ops, prev)
            == FinishFilter(Cur(|s|, |s|), out + [Pr(n)], ops)
  {
    AtSplit(s, p, n, " pr");
    SegmentLast(s, p, n, out, ops, prev, lit);
  }

  /** "(" and then rest. */
  lemma OpenThen(s: string, p: int, q: int, rest: string,
                 out: seq<Filter>, ops: seq<string>, prev: Option<string>, lit: bool)
    requires 0 <= p && q == p + 1 && ExpectsNewFilter(prev) && At(s, p, "(" + rest)
    ensures At(s, q, rest)
    ensures FilterLoop(s, p, false, lit, out, ops, prev)
            == FilterLoop(s, q, false, lit, out, ops + ["("], Some("("))
  {
    AtSplit(s, p, "(", rest);
    ReadsOpenIn(s, p, false, out, ops, prev, lit);
  }

  /** "not (" and then rest. */
  lemma NotThen(s: string, p: int, q: int, rest: string,
                out: seq<Filter>, ops: seq<string>, prev: Option<string>, lit: bool)
    requires 0 <= p && q == p + 5 && ExpectsNewFilter(prev) && At(s, p, "not (" + rest)
    ensures At(s, q, rest)
    ensures FilterLoop(s, p, false, lit, out, ops, prev)
            == FilterLoop(s, q, false, lit, out, ops + ["not"], Some("not"))
  {
    AtSplit(s, p, "not (", rest);
    ReadsNotIn(s, p, false, out, ops, prev, lit);
  }

  /** "and " after at most one space, and then rest. */
  lemma AndThen(s: string, p: int, q: int, sp: string, rest: string,
                out: seq<Filter>, ops: seq<string>, prev: Option<string>, lit: bool)
    requires 0 <= p && q == p + |sp| + 4 && !ExpectsNewFilter(prev) && (sp == [] || sp == " ")
    requires At(s, p, sp + ("and " + rest))
    ensures At(s, q, rest)
    ensures FilterLoop(s, p, false, lit, out, ops, prev)
            == FilterLoop(s, q, false, lit, out, ops + ["and"], Some("and"))
  {
    AtRegroup(s, p, sp, "and ", rest);
    ReadsAndIn(s, p, sp, false, out, ops, prev, lit);
  }

  /** "or " after at most one space, and then rest. */
  lemma OrThen(s: string, p: int, q: int, sp: string, rest: string,
               out: seq<Filter>, ops: seq<string>, prev: Option<string>,
               out2: seq<Filter>, ops2: seq<string>, lit: bool)
    requires 0 <= p && q == p + |sp| + 3 && !ExpectsNewFilter(prev) && (sp == [] || sp == " ")
    requires At(s, p, sp + ("or " + rest))
    requires Drain(out, ops, lit) == Ok(Stacks(out2, ops2))
    ensures At(s, q, rest)
    ensures FilterLoop(s, p, false, lit, out, ops, prev)
            == FilterLoop(s, q, false, lit, out2, ops2 + ["or"], Some("or"))
  {
    AtRegroup(s, p, sp, "or ", rest);
    ReadsOrIn(s, p, sp, false, out, ops, prev, lit);
  }

  /** ")" that closes a group, and then rest. */
  lemma CloseThen(s: string, p: int, q: int, rest: string,
                  out: seq<Filter>, ops: seq<string>, prev: Option<string>,
                  out2: seq<Filter>, ops2: seq<string>, lit: bool)
    requires 0 <= p && q == p + 1 && !ExpectsNewFilter(prev) && At(s, p, ")" + rest)
    requires Close(Cur(q, p), ")", out, ops, lit) == Continue(Cur(q, p), out2, ops2, Some(")"))
    ensures At(s, q, rest)
    ensures FilterLoop(s, p, false, lit, out, ops, prev)
            == FilterLoop(s, q, false, lit, out2, ops2, Some(")"))
  {
    AtSplit(s, p, ")", rest);
    ReadsCloseIn(s, p, false, out, ops, prev, lit);
  }
}
