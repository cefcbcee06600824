/** Reference definitions of the SCIM filter and path parser (Parser.java).
    Each function states, without mutable state, what one routine of the
    parser computes from the input string and the reader position: the two
    tokenizers, the path reader, the filter reader with its two stacks, the
    grouping step and the entry points.  The imperative methods of module
    Parser are proved to compute exactly these. */
module ParserSpec {
  import opened Common
  import opened JsonScalar
  import opened Filters

  /** The reader's position and mark. */
  datatype Cur = Cur(pos: nat, mark: nat)

  /** A token (None at the end of the input) and the reader state after it. */
  datatype Tok = Tok(token: Option<string>, cur: Cur)

  /** A parsed value and the reader state after it. */
  datatype Parsed<T> = Parsed(value: T, cur: Cur)

  predicate ValidCur(s: string, c: Cur) {
    c.mark <= c.pos <= |s|
  }

  /** What every token reader guarantees: the mark is at the token's first
      character, which is at or after where reading began; a token is the
      text at the mark, and at least one character was consumed for it. */
  predicate TokenFrom(s: string, pos: nat, tk: Tok) {
    pos <= tk.cur.mark && ValidCur(s, tk.cur)
    && (tk.token.Some? ==>
          tk.cur.mark < tk.cur.pos
          && tk.cur.mark + |tk.token.value| <= tk.cur.pos
          && tk.token.value == s[tk.cur.mark..tk.cur.mark + |tk.token.value|])
  }

  function NonEmpty(t: string): Option<string> {
    if t == [] then None else Some(t)
  }

  /** A token reader's outcome: its result and where it left the reader. */
  function Tokenized(res: Result<Option<string>>, c: Cur): Result<Tok> {
    match res
    case Ok(token) => Ok(Tok(token, c))
    case Err(e) => Err(e)
  }

  function Value<T>(r: Result<Parsed<T>>): Result<T> {
    match r
    case Ok(p) => Ok(p.value)
    case Err(e) => Err(e)
  }

  // ---------------------------------------------------------------------
  // Tokenizers

  /** readPathToken: the longest run of letters, digits, '-', '_' and ':'
      from pos, ended by the end of the input, a NUL, a '.' (consumed, not
      kept, and not allowed right after a ':' or as the last character) or a
      '[' (kept as the token's last character). */
  function PathToken(s: string, pos: nat): (r: Result<Tok>)
    requires pos <= |s|
    ensures r.Ok? ==> TokenFrom(s, pos, r.value) && r.value.cur.mark == pos
  {
    PathTokenFrom(s, pos, pos)
  }

  /** readPathToken's loop when s[start..k] has been read, with the next
      character at k. */
  function PathTokenFrom(s: string, start: nat, k: nat): (r: Result<Tok>)
    requires start <= k <= |s|
    ensures r.Ok? ==> TokenFrom(s, start, r.value) && r.value.cur.mark == start
    decreases |s| - k
  {
    if k == |s| then Ok(Tok(NonEmpty(s[start..k]), Cur(|s|, start)))
    else if s[k] == NUL then Ok(Tok(NonEmpty(s[start..k]), Cur(k + 1, start)))
    else if s[k] == '.' && !(k > start && s[k - 1] == ':') then
      if k + 1 >= |s| then Err(UnexpectedEndOfPath) else Ok(Tok(Some(s[start..k]), Cur(k + 1, start)))
    else if s[k] == '[' then Ok(Tok(Some(s[start..k + 1]), Cur(k + 1, start)))
    else if IsPathChar(s[k]) then PathTokenFrom(s, start, k + 1)
    else Err(UnexpectedCharacter(k, start))
  }

  /** One character of readPathToken's loop: what s[k] does to the token
      read from start. */
  lemma PathTokenAt(s: string, start: nat, k: nat)
    requires start <= k < |s| && s[k] != NUL
    ensures s[k] == '.' && !(k > start && s[k - 1] == ':') ==>
      PathTokenFrom(s, start, k)
      == if k + 1 >= |s| then Err(UnexpectedEndOfPath) else Ok(Tok(Some(s[start..k]), Cur(k + 1, start)))
    ensures s[k] == '[' ==> PathTokenFrom(s, start, k) == Ok(Tok(Some(s[start..k + 1]), Cur(k + 1, start)))
    ensures IsPathChar(s[k]) ==> PathTokenFrom(s, start, k) == PathTokenFrom(s, start, k + 1)
    ensures !IsPathChar(s[k]) && s[k] != '[' && !(s[k] == '.' && !(k > start && s[k - 1] == ':')) ==>
      PathTokenFrom(s, start, k) == Err(UnexpectedCharacter(k, start))
  {
  }

  /** The first index at or after pos that does not hold a space. */
  function SpacesEnd(s: string, pos: nat): (k: nat)
    requires pos <= |s|
    ensures pos <= k <= |s| && (k < |s| ==> s[k] != ' ')
    decreases |s| - pos
  {
    if pos < |s| && s[pos] == ' ' then SpacesEnd(s, pos + 1) else pos
  }

  /** readFilterToken: after any spaces, the longest run of letters,
      digits, '-', '_', '.' and ':', ended by the end of the input, a NUL, a
      space (consumed), a parenthesis (or, in a value filter, a ']'), which is
      the token by itself when the run is empty and is left unread otherwise,
      or, outside a value filter, a '[' kept as the token's last character. */
  function FilterToken(s: string, pos: nat, vm: bool): (r: Result<Tok>)
    requires pos <= |s|
    ensures r.Ok? ==> TokenFrom(s, pos, r.value)
    ensures r.Ok? && r.value.token.Some? ==> r.value.token.value != []
  {
    var start := SpacesEnd(s, pos);
    FilterTokenFrom(s, start, start, vm)
  }

  /** readFilterToken's second loop when s[start..k] has been read, with
      the next character at k. */
  function FilterTokenFrom(s: string, start: nat, k: nat, vm: bool): (r: Result<Tok>)
    requires start <= k <= |s|
    ensures r.Ok? ==> TokenFrom(s, start, r.value) && r.value.cur.mark == start
    ensures r.Ok? && r.value.token == Some([]) ==> k == start < |s| && s[k] == ' '
    decreases |s| - k
  {
    if k == |s| then Ok(Tok(NonEmpty(s[start..k]), Cur(|s|, start)))
    else if s[k] == NUL then Ok(Tok(NonEmpty(s[start..k]), Cur(k + 1, start)))
    else if s[k] == ' ' then Ok(Tok(Some(s[start..k]), Cur(k + 1, start)))
    else if s[k] == '(' || s[k] == ')' || (vm && s[k] == ']') then
      if k > start then Ok(Tok(Some(s[start..k]), Cur(k, start)))
      else Ok(Tok(Some([s[k]]), Cur(k + 1, start)))
    else if !vm && s[k] == '[' then Ok(Tok(Some(s[start..k + 1]), Cur(k + 1, start)))
    else if IsFilterChar(s[k]) then FilterTokenFrom(s, start, k + 1, vm)
    else Err(UnexpectedCharacter(k, start))
  }

  /** One character of readFilterToken's second loop: what s[k] does to
      the token read from start. */
  lemma FilterTokenAt(s: string, start: nat, k: nat, vm: bool)
    requires start <= k < |s| && s[k] != NUL
    ensures s[k] == ' ' ==> FilterTokenFrom(s, start, k, vm) == Ok(Tok(Some(s[start..k]), Cur(k + 1, start)))
    ensures s[k] == '(' || s[k] == ')' || (vm && s[k] == ']') ==>
      FilterTokenFrom(s, start, k, vm)
      == if k > start then Ok(Tok(Some(s[start..k]), Cur(k, start))) else Ok(Tok(Some([s[k]]), Cur(k + 1, start)))
    ensures !vm && s[k] == '[' ==> FilterTokenFrom(s, start, k, vm) == Ok(Tok(Some(s[start..k + 1]), Cur(k + 1, start)))
    ensures IsFilterChar(s[k]) ==> FilterTokenFrom(s, start, k, vm) == FilterTokenFrom(s, start, k + 1, vm)
    ensures !IsFilterChar(s[k]) && s[k] != ' ' && s[k] != '(' && s[k] != ')' && s[k] != '[' && s[k] != ']' ==>
      FilterTokenFrom(s, start, k, vm) == Err(UnexpectedCharacter(k, start))
    ensures vm && s[k] == '[' ==> FilterTokenFrom(s, start, k, vm) == Err(UnexpectedCharacter(k, start))
    ensures !vm && s[k] == ']' ==> FilterTokenFrom(s, start, k, vm) == Err(UnexpectedCharacter(k, start))
  {
  }

  // ---------------------------------------------------------------------
  // The operator stack

  /** expectsNewFilter: the previous token leaves room for a new filter. */
  predicate ExpectsNewFilter(prev: Option<string>) {
    prev.None? || prev.value == "(" || EqualsIgnoreCase(prev.value, "not")
    || EqualsIgnoreCase(prev.value, "and") || EqualsIgnoreCase(prev.value, "or")
  }

  /** An operator that opens a group: "(" or "not" in any case. */
  predicate OpensGroup(op: string) {
    op == "(" || EqualsIgnoreCase(op, "not")
  }

  /** Filter.and or Filter.or over the components, by the operator's name. */
  function Combine(op: string, components: seq<Filter>): (f: Filter)
    ensures EqualsIgnoreCase(op, "and") ==> f == And(components)
    ensures !EqualsIgnoreCase(op, "and") ==> f == Or(components)
  {
    if EqualsIgnoreCase(op, "and") then And(components) else Or(components)
  }

  /** The stacks closeGrouping leaves, and the last operator it popped. */
  datatype Grouping = Grouping(operator: Option<string>, ops: seq<string>, out: seq<Filter>)

  /** closeGrouping(operators, output, atEnd).  Stacks are sequences whose
      top is the last element. */
  function CloseGrouping(ops: seq<string>, out: seq<Filter>, atEnd: bool): Result<Grouping> {
    CloseGroupingLoop(ops, out, atEnd, None, None, [])
  }

  /** The loop of closeGrouping from a state with the given operator,
      repeating operator and components.  When the popped operator differs
      from the repeating one, the code pushes the combination of the
      components and pops it again at once as the first new component; the
      definition goes there directly. */
  function CloseGroupingLoop(ops: seq<string>, out: seq<Filter>, atEnd: bool,
                             operator: Option<string>, repeating: Option<string>,
                             components: seq<Filter>): Result<Grouping>
    decreases |ops|
  {
    if ops == [] then CloseGroupingEnd(ops, out, operator, repeating, components)
    else
      var op := Last(ops);
      if OpensGroup(op) then
        if atEnd then Err(UnexpectedEndOfFilter)
        else CloseGroupingEnd(Init(ops), out, Some(op), repeating, components)
      else
        var rep := if repeating.None? then op else repeating.value;
        if out == [] then Err(UnexpectedEndOfFilter)
        else if op != rep then
          CloseGroupingLoop(Init(ops), Init(out), atEnd, Some(op), Some(op),
                            [Combine(rep, [Last(out)] + components)])
        else
          CloseGroupingLoop(Init(ops), Init(out), atEnd, Some(op), Some(op),
                            [Last(out)] + components)
  }

  /** After the loop: the pending components and one more operand become a
      single AND or OR on the output stack. */
  function CloseGroupingEnd(ops: seq<string>, out: seq<Filter>, operator: Option<string>,
                            repeating: Option<string>, components: seq<Filter>): Result<Grouping>
  {
    if repeating.Some? && components != [] then
      if out == [] then Err(UnexpectedEndOfFilter)
      else Ok(Grouping(operator, ops, Init(out) + [Combine(repeating.value, [Last(out)] + components)]))
    else Ok(Grouping(operator, ops, out))
  }

  datatype Stacks = Stacks(out: seq<Filter>, ops: seq<string>)

  /** readFilter's "or" case as the code writes it.  Each pass of its loop
      pops one "and" and one operand into a list that is never cleared,
      pops one more operand in front of the list and pushes the AND of the
      whole list; the next pass pops that AND back into the same list.
      components is that list; an empty stack is Java's
      EmptyStackException. */
  function DrainAnds(out: seq<Filter>, ops: seq<string>, components: seq<Filter>): Result<Stacks>
    decreases |ops|
  {
    if ops == [] || !EqualsIgnoreCase(Last(ops), "and") then Ok(Stacks(out, ops))
    else if out == [] then Err(EmptyStack)
    else
      var popped := [Last(out)] + components;
      var rest := Init(out);
      if rest == [] then Err(EmptyStack)
      else
        var all := [Last(rest)] + popped;
        DrainAnds(Init(rest) + [And(all)], Init(ops), all)
  }

  /** The "or" case as evidently intended: the operands of the run of
      "and" operators on top of the operator stack become one AND filter,
      as closeGrouping combines a run of equal operators.  components holds
      the operands popped so far, in their order in the filter. */
  function DrainAndRun(out: seq<Filter>, ops: seq<string>, components: seq<Filter>): Result<Stacks>
    decreases |ops|
  {
    if ops == [] || !EqualsIgnoreCase(Last(ops), "and") then
      if components == [] then Ok(Stacks(out, ops))
      else if out == [] then Err(EmptyStack)
      else Ok(Stacks(Init(out) + [And([Last(out)] + components)], ops))
    else if out == [] then Err(EmptyStack)
    else DrainAndRun(Init(out), Init(ops), [Last(out)] + components)
  }

  /** The drain of the "or" case: the code's when literal holds, the
      intended one otherwise. */
  function Drain(out: seq<Filter>, ops: seq<string>, literal: bool): Result<Stacks> {
    if literal then DrainAnds(out, ops, []) else DrainAndRun(out, ops, [])
  }

  // ---------------------------------------------------------------------
  // The filter reader

  /** The outcome of one token in readFilter's loop. */
  datatype Step =
    | Continue(cur: Cur, out: seq<Filter>, ops: seq<string>, prev: Option<string>)
    | Break(cur: Cur)
    | Fail(error: ParseError)

  /** readFilter(reader, vm) from position pos.  With literal, the ")" and
      "or" cases are the code's (CloseStep, DrainAnds); without it, they
      are the intended ones (CloseMatchedStep, DrainAndRun).  Every other
      case is the same in both. */
  function ReadFilterSpec(s: string, pos: nat, vm: bool, literal: bool): (r: Result<Parsed<Filter>>)
    requires pos <= |s|
    ensures r.Ok? ==> pos <= r.value.cur.pos && ValidCur(s, r.value.cur)
    decreases |s| - pos, 3, 0
  {
    FilterLoop(s, pos, vm, literal, [], [], None)
  }

  /** readFilter's loop from position pos, with the given stacks and
      previous token. */
  function FilterLoop(s: string, pos: nat, vm: bool, literal: bool, out: seq<Filter>, ops: seq<string>,
                      prev: Option<string>): (r: Result<Parsed<Filter>>)
    requires pos <= |s|
    ensures r.Ok? ==> pos <= r.value.cur.pos && ValidCur(s, r.value.cur)
    decreases |s| - pos, 2, 1
  {
    match FilterToken(s, pos, vm)
    case Err(e) => Err(e)
    case Ok(Tok(None, c)) => FinishFilter(c, out, ops)
    case Ok(Tok(Some(t), c)) =>
      match FilterStep(s, c, vm, literal, t, out, ops, prev)
      case Fail(e) => Err(e)
      case Break(c2) => FinishFilter(c2, out, ops)
      case Continue(c2, out2, ops2, prev2) => FilterLoop(s, c2.pos, vm, literal, out2, ops2, prev2)
  }

  /** After the loop: close what is left at the end of the input and return
      the top of the output stack. */
  function FinishFilter(c: Cur, out: seq<Filter>, ops: seq<string>): Result<Parsed<Filter>> {
    match CloseGrouping(ops, out, true)
    case Err(e) => Err(e)
    case Ok(g) => if g.out == [] then Err(UnexpectedEndOfFilter) else Ok(Parsed(Last(g.out), c))
  }

  /** The body of readFilter's loop for token t, which the reader state c
      follows. */
  function FilterStep(s: string, c: Cur, vm: bool, literal: bool, t: string, out: seq<Filter>,
                      ops: seq<string>, prev: Option<string>): (r: Step)
    requires TokenFrom(s, 0, Tok(Some(t), c)) && t != []
    ensures r.Continue? ==> c.pos <= r.cur.pos && ValidCur(s, r.cur)
    ensures r.Break? ==> r.cur == c
    decreases |s| - c.mark, 2, 0
  {
    var expecting := ExpectsNewFilter(prev);
    if t == "(" && expecting then Continue(c, out, ops + [t], Some(t))
    else if EqualsIgnoreCase(t, "not") && expecting then NotStep(s, c, vm, t, out, ops)
    else if t == ")" && !expecting then Close(c, t, out, ops, literal)
    else if EqualsIgnoreCase(t, "and") && !expecting then Continue(c, out, ops + [t], Some(t))
    else if EqualsIgnoreCase(t, "or") && !expecting then OrStep(c, t, out, ops, literal)
    else if Last(t) == '[' && expecting then ComplexStep(s, c, literal, t, out, ops)
    else if vm && t == "]" && !expecting then Break(c)
    else if expecting then ComparisonStep(s, c, vm, t, out, ops)
    else Fail(UnexpectedToken(t, c.mark))
  }

  /** "not" where a filter may start: the next token must be "(", and "not"
      goes on the operator stack. */
  function NotStep(s: string, c: Cur, vm: bool, t: string, out: seq<Filter>, ops: seq<string>): (r: Step)
    requires ValidCur(s, c)
    ensures r.Continue? ==> c.pos <= r.cur.pos && ValidCur(s, r.cur)
    ensures !r.Break?
  {
    match FilterToken(s, c.pos, vm)
    case Err(e) => Fail(e)
    case Ok(Tok(None, _)) => Fail(UnexpectedEndOfFilter)
    case Ok(Tok(Some(next), c2)) =>
      if next != "(" then Fail(ExpectedOpenParenthesis(c2.mark))
      else Continue(c2, out, ops + [t], Some(t))
  }

  /** ")" after a filter, as the code writes it: close the group; a group
      opened by "not" wraps the top operand in a NOT.  The ")" is rejected
      only when closeGrouping popped no operator at all, so a ")" that
      closes a run of "and" or "or" with no "(" under it goes through. */
  function CloseStep(c: Cur, t: string, out: seq<Filter>, ops: seq<string>): (r: Step)
    ensures r.Continue? ==> r.cur == c
    ensures !r.Break?
  {
    match CloseGrouping(ops, out, false)
    case Err(e) => Fail(e)
    case Ok(Grouping(operator, ops1, out1)) =>
      if operator.None? then Fail(NoMatchingOpenParenthesis(c.mark))
      else if EqualsIgnoreCase(operator.value, "not") then
        if out1 == [] then Fail(EmptyStack)
        else Continue(c, Init(out1) + [Not(Last(out1))], ops1, Some(t))
      else Continue(c, out1, ops1, Some(t))
  }

  /** ")" after a filter as evidently intended: it is rejected unless
      closeGrouping stopped at "(" or "not". */
  function CloseMatchedStep(c: Cur, t: string, out: seq<Filter>, ops: seq<string>): (r: Step)
    ensures r.Continue? ==> r.cur == c
    ensures !r.Break?
  {
    match CloseGrouping(ops, out, false)
    case Err(e) => Fail(e)
    case Ok(Grouping(operator, ops1, out1)) =>
      if operator.None? || !OpensGroup(operator.value) then Fail(NoMatchingOpenParenthesis(c.mark))
      else if EqualsIgnoreCase(operator.value, "not") then
        if out1 == [] then Fail(EmptyStack)
        else Continue(c, Init(out1) + [Not(Last(out1))], ops1, Some(t))
      else Continue(c, out1, ops1, Some(t))
  }

  /** The ")" case: the code's when literal holds, the intended one
      otherwise. */
  function Close(c: Cur, t: string, out: seq<Filter>, ops: seq<string>, literal: bool): (r: Step)
    ensures r.Continue? ==> r.cur == c
    ensures !r.Break?
  {
    if literal then CloseStep(c, t, out, ops) else CloseMatchedStep(c, t, out, ops)
  }

  /** "or" after a filter: first combine the pending ANDs, then push "or". */
  function OrStep(c: Cur, t: string, out: seq<Filter>, ops: seq<string>, literal: bool): (r: Step)
    ensures r.Continue? ==> r.cur == c
    ensures !r.Break?
  {
    match Drain(out, ops, literal)
    case Err(e) => Fail(e)
    case Ok(Stacks(out1, ops1)) => Continue(c, out1, ops1 + [t], Some(t))
  }

  /** An attribute followed by '[' where a filter may start: its path, then
      the value filter up to the matching ']'. */
  function ComplexStep(s: string, c: Cur, literal: bool, t: string, out: seq<Filter>, ops: seq<string>): (r: Step)
    requires TokenFrom(s, 0, Tok(Some(t), c)) && t != []
    ensures r.Continue? ==> c.pos <= r.cur.pos && ValidCur(s, r.cur)
    ensures !r.Break?
    decreases |s| - c.mark, 1, 1
  {
    match ParsePathSpec(Init(t))
    case Err(e) => Fail(InvalidAttributeReference(c.mark, e))
    case Ok(p) =>
      match ReadFilterSpec(s, c.pos, true, literal)
      case Err(e) => Fail(e)
      case Ok(Parsed(f, c2)) => Continue(c2, out + [HasComplexValue(p, f)], ops, Some(t))
  }

  /** Any other token where a filter may start: an attribute path, then the
      operator and value. */
  function ComparisonStep(s: string, c: Cur, vm: bool, t: string, out: seq<Filter>,
                          ops: seq<string>): (r: Step)
    requires TokenFrom(s, 0, Tok(Some(t), c))
    ensures r.Continue? ==> c.pos <= r.cur.pos && ValidCur(s, r.cur)
    ensures !r.Break?
    decreases |s| - c.mark, 1, 1
  {
    match ParsePathSpec(t)
    case Err(e) => Fail(InvalidAttributePath(c.mark, e))
    case Ok(p) =>
      match ComparisonTail(s, c.pos, vm, p)
      case Err(e) => Fail(e)
      case Ok(Parsed(f, c2)) => Continue(c2, out + [f], ops, Some(t))
  }

  /** The rest of a comparison after its attribute path: the operator, and
      unless it is "pr" the JSON value.  The value is read from the text
      after the operator; the reader is then reset to the mark set there and
      skips offset + 1 characters. */
  function ComparisonTail(s: string, pos: nat, vm: bool, p: Path): (r: Result<Parsed<Filter>>)
    requires pos <= |s|
    ensures r.Ok? ==> pos <= r.value.cur.pos && ValidCur(s, r.value.cur)
  {
    match FilterToken(s, pos, vm)
    case Err(e) => Err(e)
    case Ok(Tok(None, _)) => Err(UnexpectedEndOfFilter)
    case Ok(Tok(Some(op), c)) =>
      if EqualsIgnoreCase(op, "pr") then Ok(Parsed(Present(p), c))
      else
        var v := c.pos;
        match Scan(s[v..])
        case Malformed => Err(InvalidComparisonValue(v))
        case EndOfInput => Err(UnexpectedEndOfFilter)
        case Scanned(value, offset) =>
          match ComparisonOp(op)
          case None => Err(UnrecognizedOperator(op, v))
          case Some(o) => Ok(Parsed(NewComparison(o, p, Some(value)), Cur(v + Min(|s| - v, offset + 1), v)))
  }

  // ---------------------------------------------------------------------
  // The path reader

  /** The first four characters are "urn:" in any case. */
  predicate StartsWithUrn(t: string) {
    |t| >= 4 && EqualsIgnoreCase(t[..4], "urn:")
  }

  /** String.lastIndexOf(':'). */
  function LastColon(t: string): (i: nat)
    requires ':' in t
    ensures i < |t| && t[i] == ':'
    ensures forall j :: i < j < |t| ==> t[j] != ':'
  {
    if Last(t) == ':' then |t| - 1 else LastColon(Init(t))
  }

  /** Path.attribute for the first element, Path.sub for the others. */
  function AddElement(path: Option<Path>, urn: Option<string>, e: Element): (p: Path)
    ensures path.None? ==> p == Path(urn, [e])
    ensures path.Some? ==> p.schemaUrn == path.value.schemaUrn && p.elements == path.value.elements + [e]
  {
    if path.None? then Path(urn, [e]) else Path(path.value.schemaUrn, path.value.elements + [e])
  }

  /** readPath's loop from position pos with the path read so far. */
  function PathLoop(s: string, pos: nat, path: Option<Path>): Result<Path>
    requires pos <= |s|
    decreases |s| - pos, 0, 1
  {
    match PathToken(s, pos)
    case Err(e) => Err(e)
    case Ok(Tok(None, _)) => Ok(if path.None? then Path(None, []) else path.value)
    case Ok(Tok(Some(t), c)) =>
      match PathSegment(s, c, path, t)
      case Done(result) => result
      case NextSegment(pos2, path2) => PathLoop(s, pos2, path2)
  }

  /** The outcome of one token in readPath's loop: go on from a position
      with a new path, or the result of readPath. */
  datatype SegmentStep = NextSegment(pos: nat, path: Option<Path>) | Done(result: Result<Path>)

  /** The body of readPath's loop for the token t, which the reader state c
      follows.  An empty token (a '.' right after a value filter's ']') is
      allowed only there; a first token "urn:...:name" carries the schema
      URN; a token ending in '[' is followed by the attribute's value filter
      up to its ']', read by readFilter as the code writes it. */
  function PathSegment(s: string, c: Cur, path: Option<Path>, t: string): (r: SegmentStep)
    requires c.mark < c.pos <= |s|
    ensures r.NextSegment? ==> c.pos <= r.pos <= |s|
    decreases |s| - c.mark, 0, 0
  {
    if t == [] then
      if path.None? || path.value.elements == [] || Last(path.value.elements).valueFilter.None? then
        Done(Err(AttributeNameExpected(c.mark)))
      else NextSegment(c.pos, path)
    else
      var urnPrefixed := path.None? && StartsWithUrn(t);
      assert urnPrefixed ==> t[3] == ':';
      var urn := if urnPrefixed then Some(t[..LastColon(t)]) else None;
      var name := if urnPrefixed then t[LastColon(t) + 1..] else t;
      if urnPrefixed && name == [] then Done(Ok(Path(urn, [])))
      else if name != [] && Last(name) == '[' then
        match ReadFilterSpec(s, c.pos, true, true)
        case Err(e) => Done(Err(e))
        case Ok(Parsed(f, c2)) => NextSegment(c2.pos, Some(AddElement(path, urn, Element(Init(name), Some(f)))))
      else NextSegment(c.pos, Some(AddElement(path, urn, Element(name, None))))
  }

  /** parsePath: read a path from the trimmed string. */
  function ParsePathSpec(t: string): Result<Path>
    decreases |t|, 1, 0
  {
    var trimmed := Trim(t);
    PathLoop(trimmed, 0, None)
  }

  /** parseFilter: read a filter from the trimmed string, with the code's
      ")" and "or" cases when literal holds. */
  function ParseFilterSpec(t: string, literal: bool): Result<Filter> {
    Value(ReadFilterSpec(Trim(t), 0, false, literal))
  }
}
