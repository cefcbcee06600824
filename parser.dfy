/** The SCIM filter and path parser (Parser.java): a string reader with a
    mark, the two tokenizers, the path reader and the filter reader with its
    operand and operator stacks.  Every method is proved to compute the
    reference definition of the same name in module ParserSpec. */
module Parser {
  import opened Common
  import opened JsonScalar
  import opened Filters
  import opened ParserSpec

  /** Parser.StringReader: a read position and a mark over a fixed string. */
  class StringReader {
    const s: string
    var pos: nat
    var mark: nat

    ghost predicate Valid()
      reads this
    {
      pos <= |s| && mark <= |s|
    }

    function Cursor(): Cur
      reads this
    {
      Cur(pos, mark)
    }

    constructor(str: string)
      ensures s == str && pos == 0 && mark == 0 && Valid()
    {
      s := str;
      pos := 0;
      mark := 0;
    }

    /** The next character as an int, or -1 at the end of the string. */
    method Read() returns (c: int)
      requires Valid()
      modifies this
      ensures Valid() && mark == old(mark)
      ensures old(pos) >= |s| ==> c == -1 && pos == old(pos)
      ensures old(pos) < |s| ==> c == s[old(pos)] as int && pos == old(pos) + 1
    {
      if pos >= |s| {
        return -1;
      }
      c := s[pos] as int;
      pos := pos + 1;
    }

    /** Move back over the character just read. */
    method Unread()
      requires Valid() && pos > 0
      modifies this
      ensures Valid() && pos == old(pos) - 1 && mark == old(mark)
    {
      pos := pos - 1;
    }

    method Mark()
      requires Valid()
      modifies this
      ensures Valid() && mark == old(pos) && pos == old(pos)
    {
      mark := pos;
    }

    method Reset()
      requires Valid()
      modifies this
      ensures Valid() && pos == old(mark) && mark == old(mark)
    {
      pos := mark;
    }

    /** Skip up to n characters, never past the end; returns how many. */
    method Skip(n: nat) returns (chars: nat)
      requires Valid()
      modifies this
      ensures Valid() && mark == old(mark)
      ensures chars == Min(|s| - old(pos), n) && pos == old(pos) + chars
    {
      chars := Min(|s| - pos, n);
      pos := pos + chars;
    }
  }

  // ---------------------------------------------------------------------
  // The tokenizers

  /** readPathToken */
  method ReadPathToken(r: StringReader) returns (res: Result<Option<string>>)
    requires r.Valid()
    modifies r
    ensures r.Valid()
    ensures Tokenized(res, r.Cursor()) == PathToken(r.s, old(r.pos))
  {
    ghost var s, start := r.s, r.pos;
    r.Mark();
    var c := r.Read();
    var b: string := "";
    while c > 0
      invariant r.Valid() && r.mark == start
      invariant start + |b| <= |s| && b == s[start..start + |b|]
      invariant PathTokenFrom(s, start, start + |b|) == PathToken(s, start)
      invariant start + |b| == |s| ==> c == -1 && r.pos == |s|
      invariant start + |b| < |s| ==> c == s[start + |b|] as int && r.pos == start + |b| + 1
      decreases |s| - |b|
    {
      ghost var k := start + |b|;
      var ch := c as char;
      assert ch == s[k];
      PathTokenAt(s, start, k);
      if ch == '.' && !(|b| > 0 && Last(b) == ':') {
        if r.pos >= |r.s| {
          return Err(UnexpectedEndOfPath);
        }
        return Ok(Some(b));
      }
      if ch == '[' {
        SliceSnoc(s, start, k);
        b := b + [ch];
        return Ok(Some(b));
      }
      if IsPathChar(ch) {
        SliceSnoc(s, start, k);
        b := b + [ch];
        assert start + |b| == k + 1;
      } else {
        return Err(UnexpectedCharacter(r.pos - 1, r.mark));
      }
      c := r.Read();
    }
    assert c == 0 ==> s[start + |b|] == NUL;
    if |b| > 0 {
      return Ok(Some(b));
    }
    return Ok(None);
  }

  /** The leading loop of readFilterToken: mark and read until the
      character read is not a space.  The mark is left on that character. */
  method SkipSpaces(r: StringReader) returns (c: int)
    requires r.Valid()
    modifies r
    ensures r.Valid() && r.mark == SpacesEnd(r.s, old(r.pos))
    ensures -1 <= c && (c == -1 <==> r.mark == |r.s|)
    ensures c == -1 ==> r.pos == |r.s|
    ensures c >= 0 ==> r.pos == r.mark + 1 && c == r.s[r.mark] as int
  {
    ghost var pos0 := r.pos;
    r.Mark();
    c := r.Read();
    while c == ' ' as int
      invariant -1 <= c
      invariant r.Valid() && SpacesEnd(r.s, r.mark) == SpacesEnd(r.s, pos0)
      invariant c == -1 <==> r.mark == |r.s|
      invariant c == -1 ==> r.pos == |r.s|
      invariant c >= 0 ==> r.pos == r.mark + 1 && c == r.s[r.mark] as int
      decreases |r.s| - r.mark
    {
      r.Mark();
      c := r.Read();
    }
    assert c >= 0 ==> r.s[r.mark] != ' ';
  }

  /** readFilterToken */
  method ReadFilterToken(r: StringReader, vm: bool) returns (res: Result<Option<string>>)
    requires r.Valid()
    modifies r
    ensures r.Valid()
    ensures Tokenized(res, r.Cursor()) == FilterToken(r.s, old(r.pos), vm)
  {
    var c := SkipSpaces(r);
    res := ReadFilterRun(r, vm, c);
  }

  /** The second loop of readFilterToken: the token's characters, from the
      first one after the spaces, which c holds and the mark is on. */
  method ReadFilterRun(r: StringReader, vm: bool, c0: int) returns (res: Result<Option<string>>)
    requires r.Valid() && -1 <= c0 && (c0 == -1 <==> r.mark == |r.s|)
    requires c0 == -1 ==> r.pos == |r.s|
    requires c0 >= 0 ==> r.pos == r.mark + 1 && c0 == r.s[r.mark] as int
    modifies r
    ensures r.Valid()
    ensures Tokenized(res, r.Cursor()) == FilterTokenFrom(r.s, old(r.mark), old(r.mark), vm)
  {
    ghost var s, start := r.s, r.mark;
    var c := c0;
    var b: string := "";
    while c > 0
      invariant r.Valid() && r.mark == start
      invariant start + |b| <= |s| && b == s[start..start + |b|]
      invariant FilterTokenFrom(s, start, start + |b|, vm) == FilterTokenFrom(s, start, start, vm)
      invariant start + |b| == |s| ==> c == -1 && r.pos == |s|
      invariant start + |b| < |s| ==> c == s[start + |b|] as int && r.pos == start + |b| + 1
      decreases |s| - |b|
    {
      ghost var k := start + |b|;
      var ch := c as char;
      assert ch == s[k];
      FilterTokenAt(s, start, k, vm);
      if ch == ' ' {
        // Terminating space: consumed, not kept.
        return Ok(Some(b));
      }
      // A parenthesis, or a ']' in a value filter: the code has one branch
      // for each, with the same body.
      if ch == '(' || ch == ')' || (vm && ch == ']') {
        if |b| > 0 {
          // Do not consume the delimiter.
          r.Unread();
        } else {
          b := [ch];
        }
        return Ok(Some(b));
      }
      if !vm && ch == '[' {
        SliceSnoc(s, start, k);
        b := b + [ch];
        return Ok(Some(b));
      }
      if IsFilterChar(ch) {
        SliceSnoc(s, start, k);
        b := b + [ch];
        assert start + |b| == k + 1;
      } else {
        return Err(UnexpectedCharacter(r.pos - 1, r.mark));
      }
      c := r.Read();
    }
    assert c == 0 ==> s[start + |b|] == NUL;
    if |b| > 0 {
      return Ok(Some(b));
    }
    return Ok(None);
  }

  /** closeGrouping, on the two stacks passed by value and returned. */
  method CloseGrouping(operators: seq<string>, output: seq<Filter>, atEnd: bool)
    returns (res: Result<Grouping>)
    ensures res == ParserSpec.CloseGrouping(operators, output, atEnd)
  {
    var ops, out := operators, output;
    var operator: Option<string> := None;
    var repeating: Option<string> := None;
    var components: seq<Filter> := [];
    while ops != []
      invariant CloseGroupingLoop(ops, out, atEnd, operator, repeating, components)
                == ParserSpec.CloseGrouping(operators, output, atEnd)
      decreases |ops|
    {
      ghost var ops0, out0, repeating0, components0 := ops, out, repeating, components;
      var op := Last(ops);
      ops := Init(ops);
      operator := Some(op);
      if op == "(" || EqualsIgnoreCase(op, "not") {
        if atEnd {
          return Err(UnexpectedEndOfFilter);
        }
        break;
      }
      if repeating.None? {
        repeating := Some(op);
      }
      if op != repeating.value {
        if out == [] {
          return Err(UnexpectedEndOfFilter);
        }
        ghost var rest := Init(out);
        components := [Last(out)] + components;
        out := Init(out);
        out := out + [Combine(repeating.value, components)];
        assert Last(out) == Combine(repeating.value, components) && Init(out) == rest;
        components := [];
        repeating := Some(op);
      }
      if out == [] {
        return Err(UnexpectedEndOfFilter);
      }
      components := [Last(out)] + components;
      out := Init(out);
      ghost var rep := if repeating0.None? then op else repeating0.value;
      assert out0 != [];
      assert op == rep ==> components == [Last(out0)] + components0;
      assert op != rep ==> components == [Combine(rep, [Last(out0)] + components0)];
      assert out == Init(out0);
      assert repeating == Some(op);
      assert CloseGroupingLoop(ops0, out0, atEnd, Some(op), repeating0, components0)
             == CloseGroupingLoop(ops, out, atEnd, operator, repeating, components);
    }
    assert CloseGroupingEnd(ops, out, operator, repeating, components)
           == ParserSpec.CloseGrouping(operators, output, atEnd);
    if repeating.Some? && components != [] {
      if out == [] {
        return Err(UnexpectedEndOfFilter);
      }
      components := [Last(out)] + components;
      out := Init(out);
      out := out + [Combine(repeating.value, components)];
    }
    return Ok(Grouping(operator, ops, out));
  }

  /** The "or" case of readFilter: pop the pending "and"s and their
      operands.  As in the code, the list of components is never cleared,
      so each AND pushed is popped back into the next one. */
  method DrainAnds(output: seq<Filter>, operators: seq<string>) returns (res: Result<Stacks>)
    ensures res == ParserSpec.DrainAnds(output, operators, [])
  {
    var out, ops := output, operators;
    var andComponents: seq<Filter> := [];
    while ops != []
      invariant ParserSpec.DrainAnds(out, ops, andComponents) == ParserSpec.DrainAnds(output, operators, [])
      decreases |ops|
    {
      if EqualsIgnoreCase(Last(ops), "and") {
        ops := Init(ops);
        if out == [] {
          return Err(EmptyStack);
        }
        andComponents := [Last(out)] + andComponents;
        out := Init(out);
      } else {
        break;
      }
      if andComponents != [] {
        if out == [] {
          return Err(EmptyStack);
        }
        andComponents := [Last(out)] + andComponents;
        out := Init(out) + [And(andComponents)];
      }
    }
    return Ok(Stacks(out, ops));
  }

  /** The operator and value of a comparison whose path has been read. */
  method ReadComparison(r: StringReader, vm: bool, path: Path) returns (res: Result<Filter>)
    requires r.Valid()
    modifies r
    ensures r.Valid()
    ensures res == Value(ComparisonTail(r.s, old(r.pos), vm, path))
    ensures res.Ok? ==> r.Cursor() == ComparisonTail(r.s, old(r.pos), vm, path).value.cur
  {
    var op := ReadFilterToken(r, vm);
    if op.Err? {
      return Err(op.error);
    }
    if op.value.None? {
      return Err(UnexpectedEndOfFilter);
    }
    var keyword := op.value.value;
    if EqualsIgnoreCase(keyword, "pr") {
      return Ok(Present(path));
    }
    // Mark the start of the JSON value; the scalar reader reads from there.
    r.Mark();
    var scanned := Scan(r.s[r.pos..]);
    if scanned.Malformed? {
      return Err(InvalidComparisonValue(r.mark));
    }
    r.Reset();
    if scanned.EndOfInput? {
      return Err(UnexpectedEndOfFilter);
    }
    var _ := r.Skip(scanned.offset + 1);
    var kind := ComparisonOp(keyword);
    if kind.None? {
      return Err(UnrecognizedOperator(keyword, r.mark));
    }
    return Ok(NewComparison(kind.value, path, Some(scanned.value)));
  }

  /** readFilter */
  method ReadFilter(r: StringReader, vm: bool) returns (res: Result<Filter>)
    requires r.Valid()
    modifies r
    ensures r.Valid()
    ensures res == Value(ReadFilterSpec(r.s, old(r.pos), vm, true))
    ensures res.Ok? ==> r.Cursor() == ReadFilterSpec(r.s, old(r.pos), vm, true).value.cur
    decreases |r.s| - r.pos, 3, 0
  {
    ghost var pos0 := r.pos;
    var outputStack: seq<Filter> := [];
    var precedenceStack: seq<string> := [];
    var previousToken: Option<string> := None;
    while true
      invariant r.Valid() && pos0 <= r.pos
      invariant FilterLoop(r.s, r.pos, vm, true, outputStack, precedenceStack, previousToken)
                == ReadFilterSpec(r.s, pos0, vm, true)
      decreases |r.s| - r.pos
    {
      ghost var before := r.pos;
      var token := ReadFilterToken(r, vm);
      if token.Err? {
        return Err(token.error);
      }
      if token.value.None? {
        assert FinishFilter(r.Cursor(), outputStack, precedenceStack) == ReadFilterSpec(r.s, pos0, vm, true);
        break;
      }
      var step := ReadFilterStep(r, vm, token.value.value, outputStack, precedenceStack,
                                 previousToken);
      match step
      case Fail(e) =>
        return Err(e);
      case Break(_) =>
        assert FinishFilter(r.Cursor(), outputStack, precedenceStack) == ReadFilterSpec(r.s, pos0, vm, true);
        break;
      case Continue(_, out, ops, prev) =>
        outputStack, precedenceStack, previousToken := out, ops, prev;
    }
    var grouping := CloseGrouping(precedenceStack, outputStack, true);
    if grouping.Err? {
      return Err(grouping.error);
    }
    if grouping.value.out == [] {
      return Err(UnexpectedEndOfFilter);
    }
    return Ok(Last(grouping.value.out));
  }

  /** The body of readFilter's loop for a token t just read. */
  method ReadFilterStep(r: StringReader, vm: bool, t: string, outputStack: seq<Filter>,
                        precedenceStack: seq<string>, previousToken: Option<string>)
    returns (step: Step)
    requires r.Valid() && TokenFrom(r.s, 0, Tok(Some(t), r.Cursor())) && t != []
    modifies r
    ensures r.Valid()
    ensures step == FilterStep(r.s, old(r.Cursor()), vm, true, t, outputStack, precedenceStack,
                               previousToken)
    ensures !step.Fail? ==> r.Cursor() == step.cur
    decreases |r.s| - r.mark, 2, 0
  {
    var expecting := ExpectsNewFilter(previousToken);
    if t == "(" && expecting {
      step := Continue(r.Cursor(), outputStack, precedenceStack + [t], Some(t));
    } else if EqualsIgnoreCase(t, "not") && expecting {
      step := ReadNotGroup(r, vm, t, outputStack, precedenceStack);
    } else if t == ")" && !expecting {
      step := CloseParenthesis(r, t, outputStack, precedenceStack);
    } else if EqualsIgnoreCase(t, "and") && !expecting {
      step := Continue(r.Cursor(), outputStack, precedenceStack + [t], Some(t));
    } else if EqualsIgnoreCase(t, "or") && !expecting {
      step := PushOr(r, t, outputStack, precedenceStack);
    } else if Last(t) == '[' && expecting {
      step := ReadComplexFilter(r, t, outputStack, precedenceStack);
    } else if vm && t == "]" && !expecting {
      step := Break(r.Cursor());
    } else if expecting {
      step := ReadComparisonFilter(r, vm, t, outputStack, precedenceStack);
    } else {
      step := Fail(UnexpectedToken(t, r.mark));
    }
  }

  /** "not" where a filter may start: it must be followed by "(". */
  method ReadNotGroup(r: StringReader, vm: bool, t: string, outputStack: seq<Filter>,
                      precedenceStack: seq<string>) returns (step: Step)
    requires r.Valid() && r.mark <= r.pos
    modifies r
    ensures r.Valid()
    ensures step == NotStep(r.s, old(r.Cursor()), vm, t, outputStack, precedenceStack)
    ensures !step.Fail? ==> r.Cursor() == step.cur
  {
    var next := ReadFilterToken(r, vm);
    if next.Err? {
      return Fail(next.error);
    }
    if next.value.None? {
      return Fail(UnexpectedEndOfFilter);
    }
    if next.value.value != "(" {
      return Fail(ExpectedOpenParenthesis(r.mark));
    }
    return Continue(r.Cursor(), outputStack, precedenceStack + [t], Some(t));
  }

  /** ")" after a filter: close the group, wrapping it in a NOT when "not"
      opened it.  As in the code, the ")" is rejected only when
      closeGrouping popped no operator at all. */
  method CloseParenthesis(r: StringReader, t: string, outputStack: seq<Filter>,
                          precedenceStack: seq<string>) returns (step: Step)
    requires r.Valid()
    ensures step == CloseStep(r.Cursor(), t, outputStack, precedenceStack)
  {
    var grouping := CloseGrouping(precedenceStack, outputStack, false);
    if grouping.Err? {
      return Fail(grouping.error);
    }
    var out := grouping.value.out;
    if grouping.value.operator.None? {
      return Fail(NoMatchingOpenParenthesis(r.mark));
    }
    if EqualsIgnoreCase(grouping.value.operator.value, "not") {
      if out == [] {
        return Fail(EmptyStack);
      }
      out := Init(out) + [Not(Last(out))];
    }
    return Continue(r.Cursor(), out, grouping.value.ops, Some(t));
  }

  /** "or" after a filter: combine the pending ANDs, then push "or". */
  method PushOr(r: StringReader, t: string, outputStack: seq<Filter>,
                precedenceStack: seq<string>) returns (step: Step)
    requires r.Valid()
    ensures step == OrStep(r.Cursor(), t, outputStack, precedenceStack, true)
  {
    var drained := DrainAnds(outputStack, precedenceStack);
    if drained.Err? {
      return Fail(drained.error);
    }
    return Continue(r.Cursor(), drained.value.out, drained.value.ops + [t], Some(t));
  }

  /** An attribute followed by '[': its path, then its value filter. */
  method ReadComplexFilter(r: StringReader, t: string, outputStack: seq<Filter>,
                           precedenceStack: seq<string>) returns (step: Step)
    requires r.Valid() && TokenFrom(r.s, 0, Tok(Some(t), r.Cursor())) && t != []
    modifies r
    ensures r.Valid()
    ensures step == ComplexStep(r.s, old(r.Cursor()), true, t, outputStack, precedenceStack)
    ensures !step.Fail? ==> r.Cursor() == step.cur
    decreases |r.s| - r.mark, 1, 1
  {
    var path := ParsePath(Init(t));
    if path.Err? {
      return Fail(InvalidAttributeReference(r.mark, path.error));
    }
    var valueFilter := ReadFilter(r, true);
    if valueFilter.Err? {
      return Fail(valueFilter.error);
    }
    return Continue(r.Cursor(), outputStack + [HasComplexValue(path.value, valueFilter.value)],
                    precedenceStack, Some(t));
  }

  /** Any other token where a filter may start: a comparison or presence
      test on the attribute path it names. */
  method ReadComparisonFilter(r: StringReader, vm: bool, t: string, outputStack: seq<Filter>,
                              precedenceStack: seq<string>) returns (step: Step)
    requires r.Valid() && TokenFrom(r.s, 0, Tok(Some(t), r.Cursor()))
    modifies r
    ensures r.Valid()
    ensures step == ComparisonStep(r.s, old(r.Cursor()), vm, t, outputStack, precedenceStack)
    ensures !step.Fail? ==> r.Cursor() == step.cur
    decreases |r.s| - r.mark, 1, 1
  {
    var path := ParsePath(t);
    if path.Err? {
      return Fail(InvalidAttributePath(r.mark, path.error));
    }
    var comparison := ReadComparison(r, vm, path.value);
    if comparison.Err? {
      return Fail(comparison.error);
    }
    return Continue(r.Cursor(), outputStack + [comparison.value], precedenceStack, Some(t));
  }

  /** readPath */
  method ReadPath(r: StringReader) returns (res: Result<Path>)
    requires r.Valid()
    modifies r
    ensures r.Valid()
    ensures res == PathLoop(r.s, old(r.pos), None)
    decreases |r.s| - r.pos, 0, 1
  {
    ghost var pos0 := r.pos;
    var path: Option<Path> := None;
    while true
      invariant r.Valid() && pos0 <= r.pos
      invariant PathLoop(r.s, r.pos, path) == PathLoop(r.s, pos0, None)
      decreases |r.s| - r.pos
    {
      var token := ReadPathToken(r);
      if token.Err? {
        return Err(token.error);
      }
      if token.value.None? {
        break;
      }
      var step := ReadPathSegment(r, path, token.value.value);
      match step
      case Done(result) =>
        return result;
      case NextSegment(_, next) =>
        path := next;
    }
    if path.None? {
      return Ok(Path(None, []));
    }
    return Ok(path.value);
  }

  /** The body of readPath's loop for a token t just read. */
  method ReadPathSegment(r: StringReader, path: Option<Path>, t: string) returns (step: SegmentStep)
    requires r.Valid() && r.mark < r.pos
    modifies r
    ensures r.Valid()
    ensures step == PathSegment(r.s, old(r.Cursor()), path, t)
    ensures step.NextSegment? ==> r.pos == step.pos
    decreases |r.s| - r.mark, 0, 0
  {
    if t == [] {
      // Allowed only after an attribute with a value filter.
      if path.None? || path.value.elements == [] || Last(path.value.elements).valueFilter.None? {
        return Done(Err(AttributeNameExpected(r.mark)));
      }
      return NextSegment(r.pos, path);
    }
    var schemaUrn: Option<string> := None;
    var name := t;
    var valueFilter: Option<Filter> := None;
    if path.None? && StartsWithUrn(t) {
      assert t[3] == ':';
      var i := LastColon(t);
      schemaUrn := Some(t[..i]);
      name := t[i + 1..];
      if name == [] {
        return Done(Ok(Path(schemaUrn, [])));
      }
    }
    if name != [] && Last(name) == '[' {
      name := Init(name);
      var f := ReadFilter(r, true);
      if f.Err? {
        return Done(Err(f.error));
      }
      valueFilter := Some(f.value);
    }
    return NextSegment(r.pos, Some(AddElement(path, schemaUrn, Element(name, valueFilter))));
  }

  /** parsePath */
  method ParsePath(pathString: string) returns (res: Result<Path>)
    ensures res == ParsePathSpec(pathString)
    decreases |pathString|, 1, 0
  {
    var trimmed := Trim(pathString);
    var r := new StringReader(trimmed);
    res := ReadPath(r);
    assert res == PathLoop(trimmed, 0, None);
  }

  /** parseFilter */
  method ParseFilter(filterString: string) returns (res: Result<Filter>)
    ensures res == ParseFilterSpec(filterString, true)
  {
    var trimmed := Trim(filterString);
    var r := new StringReader(trimmed);
    res := ReadFilter(r, false);
    assert res == Value(ReadFilterSpec(trimmed, 0, false, true));
  }
}
