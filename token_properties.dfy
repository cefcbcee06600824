/** What the two tokenizers and the path reader of Parser.java do on each
    kind of character, stated over the reference definitions of module
    ParserSpec: readPathToken, readFilterToken and readPath. */
module TokenProperties {
  import opened Common
  import opened Filters
  import opened ParserSpec
  import opened FilterSteps

  predicate AllPathChars(w: string) {
    forall i :: 0 <= i < |w| ==> IsPathChar(w[i])
  }

  predicate AllFilterChars(w: string) {
    forall i :: 0 <= i < |w| ==> IsFilterChar(w[i])
  }

  lemma SliceExtend(s: string, i: nat, w: string, c: char)
    requires i + |w| < |s| && s[i..i + |w|] == w && s[i + |w|] == c
    ensures s[i..i + |w| + 1] == w + [c]
  {
    assert s[i..i + |w| + 1] == s[i..i + |w|] + [s[i + |w|]];
  }

  // ---------------------------------------------------------------------
  // readPathToken

  /** A run w of path characters at pos is read into the token; what
      follows it decides how the token ends. */
  lemma PathWord(s: string, pos: nat, w: string, rest: string)
    requires At(s, pos, w + rest) && AllPathChars(w)
    ensures pos + |w| <= |s| && s[pos..pos + |w|] == w && At(s, pos + |w|, rest)
    ensures PathToken(s, pos) == PathTokenFrom(s, pos, pos + |w|)
  {
    AtSplit(s, pos, w, rest);
    AtSlice(s, pos, w);
    forall i | pos <= i < pos + |w|
      ensures IsPathChar(s[i])
    {
      AtIndex(s, pos, w, i - pos);
    }
    PathTokenFromRun(s, pos, pos, pos + |w|);
  }

  /** Path characters up to the end of the input are the token; when there
      are none the token is null. */
  lemma PathTokenToEnd(s: string, pos: nat, w: string)
    requires At(s, pos, w) && pos + |w| == |s| && AllPathChars(w)
    ensures PathToken(s, pos) == Ok(Tok(if w == [] then None else Some(w), Cur(|s|, pos)))
  {
    assert w + [] == w;
    PathWord(s, pos, w, []);
  }

  /** A NUL, which Reader.read returns as 0, ends the input the same way. */
  lemma PathTokenNul(s: string, pos: nat, w: string)
    requires At(s, pos, w + [NUL]) && AllPathChars(w)
    ensures PathToken(s, pos) == Ok(Tok(if w == [] then None else Some(w), Cur(pos + |w| + 1, pos)))
  {
    PathWord(s, pos, w, [NUL]);
  }

  /** A '.' that does not follow a ':' ends the token and is consumed; as
      the last character of the input it is an error. */
  lemma PathTokenDot(s: string, pos: nat, w: string)
    requires At(s, pos, w + ".") && AllPathChars(w) && (w == [] || Last(w) != ':')
    ensures PathToken(s, pos)
         == if pos + |w| + 1 == |s| then Err(UnexpectedEndOfPath)
            else Ok(Tok(Some(w), Cur(pos + |w| + 1, pos)))
  {
    PathWord(s, pos, w, ".");
    if w != [] {
      assert s[pos..pos + |w|][|w| - 1] == s[pos + |w| - 1];
    }
  }

  /** Right after a ':' a '.' is no separator, and being no path character
      it fails the token at its position. */
  lemma PathTokenColonDot(s: string, pos: nat, w: string)
    requires At(s, pos, w + ".") && AllPathChars(w) && w != [] && Last(w) == ':'
    ensures PathToken(s, pos) == Err(UnexpectedCharacter(pos + |w|, pos))
  {
    ColonDotText(s, pos, w);
    PathWord(s, pos, w, ".");
  }

  lemma ColonDotText(s: string, pos: nat, w: string)
    requires At(s, pos, w + ".") && w != [] && Last(w) == ':'
    ensures pos + |w| < |s| && s[pos + |w| - 1] == ':' && s[pos + |w|] == '.'
  {
    var x := w + ".";
    AtIndex(s, pos, x, |w| - 1);
    AtIndex(s, pos, x, |w|);
  }

  /** A '[' ends the token and is kept as its last character. */
  lemma PathTokenBracket(s: string, pos: nat, w: string)
    requires At(s, pos, w + "[") && AllPathChars(w)
    ensures PathToken(s, pos) == Ok(Tok(Some(w + "["), Cur(pos + |w| + 1, pos)))
  {
    PathWord(s, pos, w, "[");
    var k := pos + |w|;
    assert s[k] == '[';
    PathBracketEnds(s, pos, k);
    SliceExtend(s, pos, w, '[');
  }

  lemma PathBracketEnds(s: string, start: nat, k: nat)
    requires start <= k < |s| && s[k] == '['
    ensures PathTokenFrom(s, start, k) == Ok(Tok(Some(s[start..k + 1]), Cur(k + 1, start)))
  {
  }

  /** Any other character fails the token at its position. */
  lemma PathTokenBadChar(s: string, pos: nat, w: string, c: char)
    requires At(s, pos, w + [c]) && AllPathChars(w)
    requires !IsPathChar(c) && c != '.' && c != '[' && c != NUL
    ensures PathToken(s, pos) == Err(UnexpectedCharacter(pos + |w|, pos))
  {
    PathWord(s, pos, w, [c]);
  }

  /** readPathToken returns null exactly when the input ends (or a NUL
      comes) before any character was read. */
  lemma PathTokenNone(s: string, pos: nat)
    requires pos <= |s|
    ensures (PathToken(s, pos).Ok? && PathToken(s, pos).value.token.None?)
        <==> (pos == |s| || s[pos] == NUL)
  {
    if pos < |s| && s[pos] != NUL {
      PathTokenSomeFrom(s, pos, pos);
    }
  }

  lemma {:induction false} PathTokenSomeFrom(s: string, start: nat, k: nat)
    requires start <= k <= |s| && (start < k || (k < |s| && s[k] != NUL))
    ensures PathTokenFrom(s, start, k).Ok? ==> PathTokenFrom(s, start, k).value.token.Some?
    decreases |s| - k
  {
    if k < |s| && s[k] != NUL && s[k] != '[' && IsPathChar(s[k]) {
      PathTokenSomeFrom(s, start, k + 1);
    }
  }

  // ---------------------------------------------------------------------
  // readFilterToken

  /** Leading spaces are skipped: the token read at pos is the one read
      after them, mark included. */
  lemma {:induction false} FilterTokenSkipsSpaces(s: string, pos: nat, n: nat, vm: bool)
    requires pos + n <= |s| && forall i :: pos <= i < pos + n ==> s[i] == ' '
    ensures FilterToken(s, pos, vm) == FilterToken(s, pos + n, vm)
    decreases n
  {
    if n > 0 {
      FilterTokenSkipsSpaces(s, pos + 1, n - 1, vm);
    }
  }

  /** A run w of filter characters at pos, where no space is to be
      skipped, is read into the token; what follows it decides how the
      token ends. */
  lemma FilterWord(s: string, pos: nat, w: string, rest: string, vm: bool)
    requires At(s, pos, w + rest) && AllFilterChars(w)
    requires w != [] || (rest != [] && rest[0] != ' ')
    ensures pos + |w| <= |s| && s[pos..pos + |w|] == w && At(s, pos + |w|, rest)
    ensures FilterToken(s, pos, vm) == FilterTokenFrom(s, pos, pos + |w|, vm)
  {
    FilterRun(s, pos, w, rest, vm);
    if w != [] {
      AtIndex(s, pos, w, 0);
    } else {
      AtIndex(s, pos, rest, 0);
    }
    NoSpaces(s, pos);
  }

  lemma FilterRun(s: string, pos: nat, w: string, rest: string, vm: bool)
    requires At(s, pos, w + rest) && AllFilterChars(w)
    ensures pos + |w| <= |s| && s[pos..pos + |w|] == w && At(s, pos + |w|, rest) && At(s, pos, w)
    ensures FilterTokenFrom(s, pos, pos, vm) == FilterTokenFrom(s, pos, pos + |w|, vm)
  {
    AtSplit(s, pos, w, rest);
    AtSlice(s, pos, w);
    forall i | pos <= i < pos + |w|
      ensures IsFilterChar(s[i])
    {
      AtIndex(s, pos, w, i - pos);
    }
    FilterTokenFromRun(s, pos, pos, pos + |w|, vm);
  }

  /** Filter characters up to the end of the input are the token. */
  lemma FilterTokenToEnd(s: string, pos: nat, w: string, vm: bool)
    requires At(s, pos, w) && pos + |w| == |s| && AllFilterChars(w) && w != []
    ensures FilterToken(s, pos, vm) == Ok(Tok(Some(w), Cur(|s|, pos)))
  {
    assert w + [] == w;
    FilterWord(s, pos, w, [], vm);
  }

  /** A space ends the token and is consumed. */
  lemma FilterTokenSpace(s: string, pos: nat, w: string, vm: bool)
    requires At(s, pos, w + " ") && AllFilterChars(w) && w != []
    ensures FilterToken(s, pos, vm) == Ok(Tok(Some(w), Cur(pos + |w| + 1, pos)))
  {
    FilterWord(s, pos, w, " ", vm);
  }

  /** A parenthesis, and in a value filter a ']', is a token by itself when
      nothing precedes it; otherwise it ends the token and is left unread. */
  lemma FilterTokenDelimiter(s: string, pos: nat, w: string, c: char, vm: bool)
    requires At(s, pos, w + [c]) && AllFilterChars(w)
    requires c == '(' || c == ')' || (vm && c == ']')
    ensures FilterToken(s, pos, vm)
         == if w == [] then Ok(Tok(Some([c]), Cur(pos + 1, pos)))
            else Ok(Tok(Some(w), Cur(pos + |w|, pos)))
  {
    FilterWord(s, pos, w, [c], vm);
  }

  /** Outside a value filter a '[' ends the token and is kept as its last
      character. */
  lemma FilterTokenBracket(s: string, pos: nat, w: string, vm: bool)
    requires At(s, pos, w + "[") && AllFilterChars(w) && !vm
    ensures FilterToken(s, pos, vm) == Ok(Tok(Some(w + "["), Cur(pos + |w| + 1, pos)))
  {
    BracketText(s, pos, w);
    FilterWord(s, pos, w, "[", vm);
  }

  lemma BracketText(s: string, pos: nat, w: string)
    requires At(s, pos, w + "[")
    ensures pos + |w| < |s| && s[pos + |w|] == '[' && s[pos..pos + |w| + 1] == w + "["
  {
    AtSlice(s, pos, w + "[");
    AtIndex(s, pos, w + "[", |w|);
  }

  /** Any other character fails the token at its position: in a value
      filter a '[', outside one a ']', and everything that is neither a
      filter character nor a delimiter. */
  lemma FilterTokenBadChar(s: string, pos: nat, w: string, c: char, vm: bool)
    requires At(s, pos, w + [c]) && AllFilterChars(w)
    requires !IsFilterChar(c) && c != ' ' && c != '(' && c != ')' && c != NUL
    requires vm ==> c != ']'
    requires !vm ==> c != '['
    ensures FilterToken(s, pos, vm) == Err(UnexpectedCharacter(pos + |w|, pos))
  {
    FilterWord(s, pos, w, [c], vm);
  }

  /** readFilterToken returns null exactly when only spaces are left
      before the end of the input (or a NUL). */
  lemma FilterTokenNone(s: string, pos: nat, vm: bool)
    requires pos <= |s|
    ensures (FilterToken(s, pos, vm).Ok? && FilterToken(s, pos, vm).value.token.None?)
        <==> (SpacesEnd(s, pos) == |s| || s[SpacesEnd(s, pos)] == NUL)
  {
    var start := SpacesEnd(s, pos);
    if start < |s| && s[start] != NUL {
      FilterTokenSomeFrom(s, start, start, vm);
    }
  }

  lemma {:induction false} FilterTokenSomeFrom(s: string, start: nat, k: nat, vm: bool)
    requires start <= k <= |s| && (start < k || (k < |s| && s[k] != NUL))
    ensures FilterTokenFrom(s, start, k, vm).Ok? ==> FilterTokenFrom(s, start, k, vm).value.token.Some?
    decreases |s| - k
  {
    if k < |s| && IsFilterChar(s[k]) {
      FilterTokenSomeFrom(s, start, k + 1, vm);
    }
  }
}
