/** Properties of the scanner specification (bareish/schema/lex.go). */
module LexProps {
  import opened Results
  import opened Lex

  /** Every entry of the keyword table is a keyword, under its spelling. */
  lemma KeywordTableSpellsKeywords(w: string, k: TokenKind)
    requires KeywordKind(w) == Some(k)
    ensures IsKeyword(k) && Token(k, "").String() == w
  {
  }

  /** Every keyword's spelling is in the keyword table. */
  lemma SpellingsAreInKeywordTable(k: TokenKind)
    requires IsKeyword(k)
    ensures KeywordKind(Token(k, "").String()) == Some(k)
  {
    match k
    case TTYPE =>
    case TENUM =>
    case TUINT =>
    case TU8 =>
    case TU16 =>
    case TU32 =>
    case TU64 =>
    case TINT =>
    case TI8 =>
    case TI16 =>
    case TI32 =>
    case TI64 =>
    case TF32 =>
    case TF64 =>
    case TBOOL =>
    case TSTRING =>
    case TDATA =>
    case TVOID =>
    case TMAP =>
    case TOPTIONAL =>
  }

  /** The keyword table and Token.String are inverse on the twenty keywords:
      a word scans to a keyword exactly when it is that keyword's spelling. */
  lemma KeywordTableMatchesSpelling(w: string, k: TokenKind)
    ensures KeywordKind(w) == Some(k) <==> IsKeyword(k) && Token(k, "").String() == w
  {
    if KeywordKind(w) == Some(k) {
      KeywordTableSpellsKeywords(w, k);
    }
    if IsKeyword(k) && Token(k, "").String() == w {
      SpellingsAreInKeywordTable(k);
    }
  }

  /** A word made only of word characters is scanned whole. */
  lemma {:induction false} WordLengthOfWord(w: string, rest: string)
    requires forall i :: 0 <= i < |w| ==> IsWordChar(w[i])
    requires rest == [] || !IsWordChar(rest[0])
    ensures WordLength(w + rest) == |w|
  {
    if w != [] {
      assert (w + rest)[1..] == w[1..] + rest;
      WordLengthOfWord(w[1..], rest);
    } else {
      assert w + rest == rest;
    }
  }

  /** A digit run is scanned whole. */
  lemma {:induction false} DigitLengthOfDigits(d: string, rest: string)
    requires forall i :: 0 <= i < |d| ==> IsDigit(d[i])
    requires rest == [] || !IsDigit(rest[0])
    ensures DigitLength(d + rest) == |d|
  {
    if d != [] {
      assert (d + rest)[1..] == d[1..] + rest;
      DigitLengthOfDigits(d[1..], rest);
    } else {
      assert d + rest == rest;
    }
  }

  /** A word followed by a non-word character (or the end) scans to its
      keyword or to a name carrying exactly the word. */
  lemma ScanWordToken(w: string, rest: string)
    requires IsWord(w)
    requires rest == [] || !IsWordChar(rest[0])
    ensures Scan(w + rest) == (Ok(ClassifyWord(w)), rest)
    ensures KeywordKind(w).None? ==> ClassifyWord(w) == Token(TNAME, w)
    ensures KeywordKind(w).Some? ==> ClassifyWord(w).value == ""
  {
    var s := w + rest;
    WordLengthOfWord(w, rest);
    assert s[0] == w[0];
    assert s[..|w|] == w;
    assert s[|w|..] == rest;
    ScanAtLetter(s);
  }

  lemma ScanAtLetter(s: string)
    requires s != [] && IsLetter(s[0])
    ensures Scan(s) == (Ok(ClassifyWord(s[..WordLength(s)])), s[WordLength(s)..])
  {
    assert !IsSpace(s[0]);
  }

  lemma KeywordSpellingIsWord(k: TokenKind)
    requires IsKeyword(k)
    ensures IsWord(Token(k, "").String())
  {
    match k
    case TTYPE =>
    case TENUM =>
    case TUINT =>
    case TU8 =>
    case TU16 =>
    case TU32 =>
    case TU64 =>
    case TINT =>
    case TI8 =>
    case TI16 =>
    case TI32 =>
    case TI64 =>
    case TF32 =>
    case TF64 =>
    case TBOOL =>
    case TSTRING =>
    case TDATA =>
    case TVOID =>
    case TMAP =>
    case TOPTIONAL =>
  }

  /** Each keyword scanned alone yields its token with no text, then the end of
      input, and keeps yielding the end of input. */
  lemma ScanKeywordAlone(k: TokenKind)
    requires IsKeyword(k)
    ensures var w := Token(k, "").String();
      NextToken(LexState(w, [])) == Lexed(Ok(Token(k, "")), LexState("", []))
      && NextToken(LexState("", [])) == Lexed(Err(EndOfInput), LexState("", []))
  {
    var w := Token(k, "").String();
    KeywordTableMatchesSpelling(w, k);
    assert ClassifyWord(w) == Token(k, "");
    KeywordSpellingIsWord(k);
    ScanWordToken(w, "");
    assert w + "" == w;
    assert Scan(w) == (Ok(Token(k, "")), "");
  }

  /** A digit run followed by a non-digit (or the end) scans to an integer
      token carrying exactly its text. */
  lemma ScanIntegerToken(d: string, rest: string)
    requires IsDigits(d)
    requires rest == [] || !IsDigit(rest[0])
    ensures Scan(d + rest) == (Ok(Token(TINTEGER, d)), rest)
  {
    var s := d + rest;
    DigitLengthOfDigits(d, rest);
    assert s[0] == d[0];
    assert s[..|d|] == d;
    assert s[|d|..] == rest;
    ScanAtDigit(s);
  }

  lemma ScanAtDigit(s: string)
    requires s != [] && IsDigit(s[0])
    ensures Scan(s) == (Ok(Token(TINTEGER, s[..DigitLength(s)])), s[DigitLength(s)..])
  {
    assert !IsSpace(s[0]) && !IsLetter(s[0]);
  }

  /** Exactly the eleven characters < > { } [ ] ( ) | = : are punctuation. */
  lemma PunctuationCharacters(c: char)
    ensures Punctuation(c).Some? <==> c in "<>{}[]()|=:"
  {
  }

  lemma PunctuationIsNoOtherClass(c: char)
    requires Punctuation(c).Some?
    ensures !IsSpace(c) && !IsLetter(c) && !IsDigit(c) && c != '#'
  {
  }

  /** A punctuation character scans to its own token with no text. */
  lemma ScanPunctuationToken(c: char, rest: string)
    requires Punctuation(c).Some?
    ensures Scan([c] + rest) == (Ok(Token(Punctuation(c).value, "")), rest)
  {
    PunctuationIsNoOtherClass(c);
    var s := [c] + rest;
    assert s[0] == c && s[1..] == rest;
  }

  /** Token.String spells each punctuation token as its character. */
  lemma PunctuationSpelling(c: char)
    requires Punctuation(c).Some?
    ensures Token(Punctuation(c).value, "").String() == [c]
  {
    match c
    case '<' => case '>' => case '{' => case '}' => case '[' => case ']' =>
    case '(' => case ')' => case '|' => case '=' => case ':' =>
    case _ =>
  }

  /** Any other character is an unknown token; it is consumed. */
  lemma ScanUnknownCharacter(c: char, rest: string)
    requires !IsSpace(c) && !IsLetter(c) && !IsDigit(c) && c != '#'
    requires c !in "<>{}[]()|=:"
    ensures Scan([c] + rest) == (Err(UnknownToken(c)), rest)
  {
    PunctuationCharacters(c);
    var s := [c] + rest;
    assert s[0] == c && s[1..] == rest;
  }

  /** Text made of white space and comments, each comment running from '#' to
      the end of its line. */
  predicate IsBlank(s: string)
    decreases |s|
  {
    s == []
    || (IsSpace(s[0]) && IsBlank(s[1..]))
    || (s[0] == '#' && IsBlank(AfterLine(s[1..])))
  }

  /** The input has no token left exactly when the rest is blank. */
  lemma {:induction false} NoTokenIffBlank(s: string)
    ensures Scan(s).0 == Err(EndOfInput) <==> IsBlank(s)
    decreases |s|
  {
    if s != [] {
      if IsSpace(s[0]) {
        NoTokenIffBlank(s[1..]);
      } else if s[0] == '#' {
        NoTokenIffBlank(AfterLine(s[1..]));
      } else {
        ScanAtToken(s);
      }
    }
  }

  /** A character that is neither white space nor '#' starts a token or an
      unknown-token error, never the end of input. */
  lemma ScanAtToken(s: string)
    requires s != [] && !IsSpace(s[0]) && s[0] != '#'
    ensures Scan(s).0 != Err(EndOfInput)
    ensures !IsBlank(s)
  {
  }

  /** White space in front of the input produces no token. */
  lemma {:induction false} ScanSkipsSpace(ws: string, s: string)
    requires forall i :: 0 <= i < |ws| ==> IsSpace(ws[i])
    ensures Scan(ws + s) == Scan(s)
  {
    if ws != [] {
      assert (ws + s)[0] == ws[0];
      assert (ws + s)[1..] == ws[1..] + s;
      ScanSkipsSpace(ws[1..], s);
    } else {
      assert ws + s == s;
    }
  }

  lemma {:induction false} AfterLineOfComment(body: string, s: string)
    requires forall i :: 0 <= i < |body| ==> body[i] != '\n'
    ensures AfterLine(body + "\n" + s) == s
  {
    if body == [] {
      assert body + "\n" + s == "\n" + s;
    } else {
      assert (body + "\n" + s)[0] == body[0];
      assert (body + "\n" + s)[1..] == body[1..] + "\n" + s;
      AfterLineOfComment(body[1..], s);
    }
  }

  /** A comment line produces no token. */
  lemma ScanSkipsComment(body: string, s: string)
    requires forall i :: 0 <= i < |body| ==> body[i] != '\n'
    ensures Scan("#" + body + "\n" + s) == Scan(s)
  {
    var t := "#" + body + "\n" + s;
    assert t[0] == '#';
    assert t[1..] == body + "\n" + s;
    AfterLineOfComment(body, s);
  }

  /** Takes n tokens from the scanner, stopping at the first error. */
  function NextTokens(st: LexState, n: nat): (seq<Result<Token, LexError>>, LexState)
    decreases n
  {
    if n == 0 then ([], st)
    else
      var r := NextToken(st);
      if r.result.Err? then ([r.result], r.state)
      else
        var (rs, st') := NextTokens(r.state, n - 1);
        ([r.result] + rs, st')
  }

  function Oks(ts: seq<Token>): (rs: seq<Result<Token, LexError>>)
    ensures |rs| == |ts| && forall i :: 0 <= i < |ts| ==> rs[i] == Ok(ts[i])
  {
    if ts == [] then [] else [Ok(ts[0])] + Oks(ts[1..])
  }

  /** Pushed-back tokens come out first, in the order they were pushed, and
      reading them consumes no input. */
  lemma {:induction false} PushedTokensComeOutInOrder(rest: string, queue: seq<Token>, ts: seq<Token>)
    ensures NextTokens(LexState(rest, queue + ts), |queue| + |ts|) == (Oks(queue + ts), LexState(rest, []))
    decreases |queue| + |ts|
  {
    var q := queue + ts;
    if q != [] {
      assert q[1..] == q[1..] + [];
      PushedTokensComeOutInOrder(rest, q[1..], []);
      assert q[1..] + [] == q[1..];
      assert Oks(q) == [Ok(q[0])] + Oks(q[1..]);
    } else {
      assert Oks(q) == [];
    }
  }

  /** Pushing tokens one after the other onto an empty queue and reading them
      back returns them in push order and leaves the input untouched. */
  lemma FifoPushBack(rest: string, t1: Token, t2: Token)
    ensures var st := Pushed(Pushed(LexState(rest, []), t1), t2);
      NextToken(st) == Lexed(Ok(t1), LexState(rest, [t2]))
      && NextToken(NextToken(st).state) == Lexed(Ok(t2), LexState(rest, []))
  {
  }

  /** With the queue empty and only blanks left, Next reports the end of
      input, and keeps doing so. */
  lemma EndOfInputIsSticky(st: LexState)
    requires st.pushback == [] && IsBlank(st.rest)
    ensures NextToken(st) == Lexed(Err(EndOfInput), LexState("", []))
    ensures NextToken(NextToken(st).state) == NextToken(st)
  {
    NoTokenIffBlank(st.rest);
  }
}
