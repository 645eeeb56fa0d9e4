/** Properties of the parser (bareish/schema/parser.go): how union tags and
    enum values are numbered, how documents are assembled, and what a few
    documents parse to. */
module GrammarProps {
  import opened Results
  import opened Strconv
  import opened Ast
  import opened Lex
  import opened LexProps
  import opened Grammar

  // ---------------------------------------------------------------------------
  // Numbering

  /** Each union tag is the member's explicit tag, or else one more than the
      tag of the member before it; the first member gets the starting tag. */
  lemma {:induction false} TagsClosedForm(alts: seq<RawAlternative>, tag: uint64)
    ensures forall i :: 0 <= i < |alts| && alts[i].given.Some? ==>
      AssignTags(alts, tag)[i].tag == alts[i].given.value
    ensures |alts| > 0 && alts[0].given.None? ==> AssignTags(alts, tag)[0].tag == tag
    ensures forall i :: 0 < i < |alts| && alts[i].given.None? ==>
      AssignTags(alts, tag)[i].tag == Inc64(AssignTags(alts, tag)[i - 1].tag)
  {
    if alts != [] {
      var (t, next) := TagStep(alts[0], tag);
      TagsClosedForm(alts[1..], next);
      var r := AssignTags(alts, tag);
      var r' := AssignTags(alts[1..], next);
      assert r == [UnionSubtype(alts[0].subtype, t)] + r';
      forall i | 0 < i < |alts|
        ensures r[i] == r'[i - 1] && alts[i] == alts[1..][i - 1]
      {}
      forall i | 0 < i < |alts| && alts[i].given.None?
        ensures r[i].tag == Inc64(r[i - 1].tag)
      {
        if i == 1 {
          assert r[0].tag == t && next == Inc64(t);
        } else {
          assert r[i - 1] == r'[i - 2] && alts[i - 1] == alts[1..][i - 2];
        }
      }
    }
  }

  /** Without explicit tags, the members are numbered from the starting tag
      upwards, modulo 2^64. */
  lemma {:induction false} TagsCountUp(alts: seq<RawAlternative>, tag: uint64)
    requires forall i :: 0 <= i < |alts| ==> alts[i].given.None?
    ensures forall i :: 0 <= i < |alts| ==> AssignTags(alts, tag)[i].tag == (tag + i) % Wrap64
  {
    if alts != [] {
      var next := TagStep(alts[0], tag).1;
      TagsCountUp(alts[1..], next);
      var r := AssignTags(alts, tag);
      var r' := AssignTags(alts[1..], next);
      assert r == [UnionSubtype(alts[0].subtype, tag)] + r';
      forall i | 1 <= i < |alts|
        ensures r[i].tag == (tag + i) % Wrap64
      {
        assert r[i] == r'[i - 1];
        assert r'[i - 1].tag == (next + (i - 1)) % Wrap64;
        ShiftAfterIncrement(tag, i);
      }
    }
  }

  /** Counting on from the incremented tag is counting on from the tag. */
  lemma ShiftAfterIncrement(tag: uint64, i: nat)
    requires i >= 1
    ensures (Inc64(tag) + (i - 1)) % Wrap64 == (tag + i) % Wrap64
  {
    if tag == MaxUint64 {
      assert tag + i == (i - 1) + Wrap64;
    }
  }

  /** AssignValues on a non-empty run: the first entry takes EnumStep's value
      and the rest are numbered from the counter after it. */
  lemma ValuesUnfold(entries: seq<RawEntry>, counter: uint64)
    requires entries != []
    ensures var r := AssignValues(entries, counter);
      var r' := AssignValues(entries[1..], EnumStep(entries[0], counter).1);
      r[0].value == EnumStep(entries[0], counter).0 &&
      forall i :: 0 < i < |entries| ==> r[i] == r'[i - 1] && entries[i] == entries[1..][i - 1]
  {
    var r := AssignValues(entries, counter);
    var r' := AssignValues(entries[1..], EnumStep(entries[0], counter).1);
    assert r == [EnumValue(entries[0].name, EnumStep(entries[0], counter).0)] + r';
  }

  /** Each entry with an explicit `= N` gets N; the first entry without one
      gets the starting counter. */
  lemma {:induction false} ExplicitValuesAreKept(entries: seq<RawEntry>, counter: uint64)
    ensures forall i :: 0 <= i < |entries| && entries[i].given.Some? ==>
      AssignValues(entries, counter)[i].value == entries[i].given.value
    ensures |entries| > 0 && entries[0].given.None? ==> AssignValues(entries, counter)[0].value == counter
  {
    if entries != [] {
      ValuesUnfold(entries, counter);
      ExplicitValuesAreKept(entries[1..], EnumStep(entries[0], counter).1);
    }
  }

  /** An implicit value right after an explicit `= N` is N again, because
      the counter is set to N without incrementing. */
  lemma {:induction false} ValueAfterExplicitIsRepeated(entries: seq<RawEntry>, counter: uint64)
    ensures forall i :: 0 < i < |entries| && entries[i].given.None? && entries[i - 1].given.Some? ==>
      AssignValues(entries, counter)[i].value == AssignValues(entries, counter)[i - 1].value
  {
    if entries != [] {
      var next := EnumStep(entries[0], counter).1;
      var r, r' := AssignValues(entries, counter), AssignValues(entries[1..], next);
      ValuesUnfold(entries, counter);
      ValueAfterExplicitIsRepeated(entries[1..], next);
      if |entries| > 1 && entries[1].given.None? && entries[0].given.Some? {
        ValuesUnfold(entries[1..], next);
        assert r[1].value == next == r[0].value;
      }
      forall i | 1 < i < |entries| && entries[i].given.None? && entries[i - 1].given.Some?
        ensures r[i].value == r[i - 1].value
      {
        assert r[i - 1] == r'[i - 2] && entries[i - 1] == entries[1..][i - 2];
      }
    }
  }

  /** An implicit value after an implicit one is one more, modulo 2^64. */
  lemma {:induction false} ValueAfterImplicitIncrements(entries: seq<RawEntry>, counter: uint64)
    ensures forall i :: 0 < i < |entries| && entries[i].given.None? && entries[i - 1].given.None? ==>
      AssignValues(entries, counter)[i].value == Inc64(AssignValues(entries, counter)[i - 1].value)
  {
    if entries != [] {
      var next := EnumStep(entries[0], counter).1;
      var r, r' := AssignValues(entries, counter), AssignValues(entries[1..], next);
      ValuesUnfold(entries, counter);
      ValueAfterImplicitIncrements(entries[1..], next);
      if |entries| > 1 && entries[1].given.None? && entries[0].given.None? {
        ValuesUnfold(entries[1..], next);
        assert r[1].value == next == Inc64(r[0].value);
      }
      forall i | 1 < i < |entries| && entries[i].given.None? && entries[i - 1].given.None?
        ensures r[i].value == Inc64(r[i - 1].value)
      {
        assert r[i - 1] == r'[i - 2] && entries[i - 1] == entries[1..][i - 2];
      }
    }
  }

  /** Without explicit values, enum values count up from the counter. */
  lemma {:induction false} ValuesCountUp(entries: seq<RawEntry>, counter: uint64)
    requires forall i :: 0 <= i < |entries| ==> entries[i].given.None?
    ensures forall i :: 0 <= i < |entries| ==> AssignValues(entries, counter)[i].value == (counter + i) % Wrap64
  {
    if entries != [] {
      var next := EnumStep(entries[0], counter).1;
      ValuesCountUp(entries[1..], next);
      var r := AssignValues(entries, counter);
      var r' := AssignValues(entries[1..], next);
      assert r == [EnumValue(entries[0].name, counter)] + r';
      forall i | 1 <= i < |entries|
        ensures r[i].value == (counter + i) % Wrap64
      {
        assert r[i] == r'[i - 1];
        assert r'[i - 1].value == (next + (i - 1)) % Wrap64;
      }
    }
  }

  /** The value after an explicit `= N` repeats N. */
  lemma ImplicitValueAfterExplicitRepeats(a: string, b: string, n: uint64, counter: uint64)
    ensures AssignValues([RawEntry(a, Some(n)), RawEntry(b, None)], counter)
         == [EnumValue(a, n), EnumValue(b, n)]
  {
    var entries := [RawEntry(a, Some(n)), RawEntry(b, None)];
    assert entries[1..] == [RawEntry(b, None)];
    assert entries[1..][1..] == [];
  }

  /** A union member after one tagged `= N` gets N + 1. */
  lemma TagAfterExplicitIncrements(t1: Type, t2: Type, n: uint64, tag: uint64)
    ensures AssignTags([RawAlternative(t1, Some(n)), RawAlternative(t2, None)], tag)
         == [UnionSubtype(t1, n), UnionSubtype(t2, Inc64(n))]
  {
    var alts := [RawAlternative(t1, Some(n)), RawAlternative(t2, None)];
    assert alts[1..] == [RawAlternative(t2, None)];
    assert alts[1..][1..] == [];
  }

  // ---------------------------------------------------------------------------
  // Documents

  /** Prepends the declarations already read to the outcome of the rest. */
  function Prepend(acc: seq<SchemaType>, r: Result<seq<SchemaType>, ParseError>): Result<seq<SchemaType>, ParseError> {
    if r.Ok? then Ok(acc + r.value) else r
  }

  lemma DeclarationsOnError(st: LexState, acc: seq<SchemaType>)
    requires Declaration(st).result.Err?
    ensures Declarations(st, acc) == Prepend(acc, Declarations(st, []))
  {
    assert acc + [] == acc;
  }

  lemma DeclarationsAfterDeclaration(st: LexState, acc: seq<SchemaType>, d: SchemaType, rest: LexState)
    requires Declaration(st) == Parsed(Ok(d), rest)
    ensures Size(rest) < Size(st)
    ensures Declarations(st, acc) == Declarations(rest, acc + [d])
  {
  }

  lemma PrependTwice(acc: seq<SchemaType>, d: SchemaType, r: Result<seq<SchemaType>, ParseError>)
    ensures Prepend(acc + [d], r) == Prepend(acc, Prepend([d], r))
  {
    if r.Ok? {
      assert (acc + [d]) + r.value == acc + ([d] + r.value);
    }
  }

  /** The declarations already read stay in front, in order, of those that
      follow; an error anywhere after them discards them all. */
  lemma {:induction false} DeclarationsKeepOrder(st: LexState, acc: seq<SchemaType>)
    ensures Declarations(st, acc) == Prepend(acc, Declarations(st, []))
    decreases Size(st)
  {
    var p := Declaration(st);
    if p.result.Err? {
      DeclarationsOnError(st, acc);
    } else {
      var d, rest := p.result.value, p.state;
      DeclarationsAfterDeclaration(st, acc, d, rest);
      DeclarationsAfterDeclaration(st, [], d, rest);
      DeclarationsKeepOrder(rest, acc + [d]);
      assert [] + [d] == [d];
      DeclarationsKeepOrder(rest, [d]);
      PrependTwice(acc, d, Declarations(rest, []));
    }
  }

  /** A document is its first declaration followed by the declarations of
      the text after it, or the error that ends those. */
  lemma FirstDeclarationComesFirst(text: string, d: SchemaType, after: LexState)
    requires Declaration(LexState(text, [])) == Parsed(Ok(d), after)
    ensures Document(text) == Prepend([d], Declarations(after, []))
  {
    DeclarationsAfterDeclaration(LexState(text, []), [], d, after);
    assert [] + [d] == [d];
    DeclarationsKeepOrder(after, [d]);
  }

  /** A document with no tokens, only white space and comments, declares
      nothing. */
  lemma BlankDocumentIsEmpty(text: string)
    requires IsBlank(text)
    ensures Document(text) == Ok([])
  {
    NoTokenIffBlank(text);
  }

  /** A document whose first token is neither `type` nor `enum` is rejected
      with that token. */
  lemma MisplacedTokenIsRejected(text: string, tok: Token, rest: string)
    requires Scan(text) == (Ok(tok), rest)
    requires tok.kind != TTYPE && tok.kind != TENUM
    ensures Document(text) == Err(UnexpectedToken(tok, "'type' or 'enum'"))
  {
  }

  /** A character that starts no token makes the document fail at once. */
  lemma UnknownCharacterIsRejected(text: string, c: char, rest: string)
    requires Scan(text) == (Err(UnknownToken(c)), rest)
    ensures Document(text) == Err(ScanError(UnknownToken(c)))
  {
  }

  // ---------------------------------------------------------------------------
  // Documents, token by token

  lemma NextSkipsSpace(s: string)
    ensures NextToken(LexState(" " + s, [])) == NextToken(LexState(s, []))
  {
    ScanSkipsSpace(" ", s);
  }

  /** A keyword's spelling followed by a character that ends words. */
  lemma NextKeyword(k: TokenKind, more: string)
    requires IsKeyword(k)
    requires more == [] || !IsWordChar(more[0])
    ensures NextToken(LexState(Token(k, "").String() + more, [])) == Lexed(Ok(Token(k, "")), LexState(more, []))
  {
    var w := Token(k, "").String();
    KeywordSpellingIsWord(k);
    KeywordTableMatchesSpelling(w, k);
    ScanWordToken(w, more);
  }

  /** A single letter is a word and no keyword. */
  lemma LetterIsName(c: char)
    requires IsLetter(c)
    ensures IsWord([c]) && KeywordKind([c]).None?
  {
  }

  /** A word that is no keyword, followed by a character that ends words. */
  lemma NextName(w: string, more: string)
    requires IsWord(w) && KeywordKind(w).None?
    requires more == [] || !IsWordChar(more[0])
    ensures NextToken(LexState(w + more, [])) == Lexed(Ok(Token(TNAME, w)), LexState(more, []))
  {
    ScanWordToken(w, more);
  }

  lemma NextPunctuation(c: char, more: string)
    requires Punctuation(c).Some?
    ensures NextToken(LexState([c] + more, [])) == Lexed(Ok(Token(Punctuation(c).value, "")), LexState(more, []))
  {
    ScanPunctuationToken(c, more);
  }

  lemma NextInteger(d: string, more: string)
    requires IsDigits(d)
    requires more == [] || !IsDigit(more[0])
    ensures NextToken(LexState(d + more, [])) == Lexed(Ok(Token(TINTEGER, d)), LexState(more, []))
  {
    ScanIntegerToken(d, more);
  }

  /** A blank, then a one-letter name. */
  lemma NextSpacedLetter(c: char, more: string)
    requires IsLetter(c)
    requires more == [] || !IsWordChar(more[0])
    ensures NextToken(LexState([' ', c] + more, [])) == Lexed(Ok(Token(TNAME, [c])), LexState(more, []))
  {
    LetterIsName(c);
    NextName([c], more);
    NextSkipsSpace([c] + more);
    assert [' ', c] + more == " " + ([c] + more);
  }

  /** A blank, then a punctuation character. */
  lemma NextSpacedPunctuation(c: char, more: string)
    requires Punctuation(c).Some?
    ensures NextToken(LexState([' ', c] + more, [])) == Lexed(Ok(Token(Punctuation(c).value, "")), LexState(more, []))
  {
    NextPunctuation(c, more);
    NextSkipsSpace([c] + more);
    assert [' ', c] + more == " " + ([c] + more);
  }

  /** A blank, then a one-digit integer. */
  lemma NextSpacedDigit(c: char, more: string)
    requires IsDigit(c)
    requires more == [] || !IsDigit(more[0])
    ensures NextToken(LexState([' ', c] + more, [])) == Lexed(Ok(Token(TINTEGER, [c])), LexState(more, []))
  {
    NextInteger([c], more);
    NextSkipsSpace([c] + more);
    assert [' ', c] + more == " " + ([c] + more);
  }

  /** A blank, then a word; sw is the blank and the word. */
  lemma NextSpacedWord(w: string, sw: string, more: string)
    requires IsWord(w) && sw == " " + w
    requires more == [] || !IsWordChar(more[0])
    ensures NextToken(LexState(sw + more, [])) == Lexed(Ok(ClassifyWord(w)), LexState(more, []))
  {
    assert sw + more == " " + (w + more);
    ScanWordToken(w, more);
    NextSkipsSpace(w + more);
  }

  lemma NextBlank(s: string)
    requires IsBlank(s)
    ensures NextToken(LexState(s, [])) == Lexed(Err(EndOfInput), LexState("", []))
  {
    NoTokenIffBlank(s);
  }

  lemma DeclarationAtType(st: LexState, st1: LexState)
    requires NextToken(st) == Lexed(Ok(Token(TTYPE, "")), st1)
    ensures Declaration(st) == UserTypeDecl(Pushed(st1, Token(TTYPE, "")))
  {
  }

  lemma DeclarationAtEnum(st: LexState, st1: LexState)
    requires NextToken(st) == Lexed(Ok(Token(TENUM, "")), st1)
    ensures Declaration(st) == UserEnumDecl(Pushed(st1, Token(TENUM, "")))
  {
  }

  lemma PushedOnEmpty(rest: string, tok: Token)
    ensures Pushed(LexState(rest, []), tok) == LexState(rest, [tok])
  {
    assert [] + [tok] == [tok];
  }

  /** A document whose first declaration fails ends with that failure, or
      successfully and empty when the failure is the end of input. */
  lemma FirstDeclarationFails(text: string)
    requires Declaration(LexState(text, [])).result.Err?
    ensures var e := Declaration(LexState(text, [])).result.error;
      Document(text) == if e == ScanError(EndOfInput) then Ok([]) else Err(e)
  {
  }


  /** A token waiting in the pushback queue is read before any input. */
  lemma NextFromPushback(r: string, tok: Token)
    ensures NextToken(LexState(r, [tok])) == Lexed(Ok(tok), LexState(r, []))
  {
    assert [tok][1..] == [];
  }

  lemma TypeDeclarationStart(r0: string, r1: string)
    requires NextToken(LexState(r0, [])) == Lexed(Ok(Token(TTYPE, "")), LexState(r1, []))
    ensures Declaration(LexState(r0, [])) == UserTypeDecl(LexState(r1, [Token(TTYPE, "")]))
  {
    DeclarationAtType(LexState(r0, []), LexState(r1, []));
    PushedOnEmpty(r1, Token(TTYPE, ""));
  }

  lemma EnumDeclarationStart(r0: string, r1: string)
    requires NextToken(LexState(r0, [])) == Lexed(Ok(Token(TENUM, "")), LexState(r1, []))
    ensures Declaration(LexState(r0, [])) == UserEnumDecl(LexState(r1, [Token(TENUM, "")]))
  {
    DeclarationAtEnum(LexState(r0, []), LexState(r1, []));
    PushedOnEmpty(r1, Token(TENUM, ""));
  }

  /** parseUserType after `type Name`: the type is parsed first and the name
      is checked only when the type has parsed. */
  lemma UserTypeAfterName(r1: string, name: string, r2: string)
    requires NextToken(LexState(r1, [])) == Lexed(Ok(Token(TNAME, name)), LexState(r2, []))
    ensures var t := TypeExpr(LexState(r2, []));
      UserTypeDecl(LexState(r1, [Token(TTYPE, "")])) ==
        if t.result.Err? then Parsed(Err(t.result.error), t.state)
        else if MatchString(UserTypeNamePattern, name) then Parsed(Ok(UserDefinedType(name, t.result.value)), t.state)
        else Parsed(Err(InvalidName(UserTypeName, name)), t.state)
  {
    NextFromPushback(r1, Token(TTYPE, ""));
  }

  // ---------------------------------------------------------------------------
  // Successions of tokens

  lemma ReadOfNext(st: LexState, t: Token, st1: LexState)
    requires NextToken(st) == Lexed(Ok(t), st1)
    ensures Read(st) == Parsed(Ok(t), st1)
  {
  }

  /** parseType pushes a `{` back and parses a struct. */
  lemma TypeExprAtBrace(st: LexState, st1: LexState)
    requires Read(st) == Parsed(Ok(Token(TLBRACE, "")), st1)
    ensures TypeExpr(st) == StructExpr(Pushed(st1, Token(TLBRACE, "")))
  {
  }

  lemma StructFieldsAtEnd(r3: string)
    requires NextToken(LexState(r3, [])).result == Err(EndOfInput)
    ensures StructFields(LexState(r3, []), []).result == Err(ScanError(EndOfInput))
  {
  }

  lemma StructExprAtEnd(r3: string)
    requires NextToken(LexState(r3, [])).result == Err(EndOfInput)
    ensures StructExpr(LexState(r3, [Token(TLBRACE, "")])).result == Err(ScanError(EndOfInput))
  {
    NextFromPushback(r3, Token(TLBRACE, ""));
    StructFieldsAtEnd(r3);
  }

  /** The end of input right after the `{` of a struct type. */
  lemma StructCutShort(r2: string, r3: string)
    requires NextToken(LexState(r2, [])) == Lexed(Ok(Token(TLBRACE, "")), LexState(r3, []))
    requires NextToken(LexState(r3, [])).result == Err(EndOfInput)
    ensures TypeExpr(LexState(r2, [])).result == Err(ScanError(EndOfInput))
  {
    ReadOfNext(LexState(r2, []), Token(TLBRACE, ""), LexState(r3, []));
    TypeExprAtBrace(LexState(r2, []), LexState(r3, []));
    PushedOnEmpty(r3, Token(TLBRACE, ""));
    StructExprAtEnd(r3);
  }

  /** The end of input in the middle of a declaration ends the document
      successfully, and the unfinished declaration is dropped: the tokens
      `type Name {` and then nothing give no declarations at all. */
  lemma UnfinishedDeclarationIsDropped(r0: string, r1: string, r2: string, r3: string, name: string)
    requires NextToken(LexState(r0, [])) == Lexed(Ok(Token(TTYPE, "")), LexState(r1, []))
    requires NextToken(LexState(r1, [])) == Lexed(Ok(Token(TNAME, name)), LexState(r2, []))
    requires NextToken(LexState(r2, [])) == Lexed(Ok(Token(TLBRACE, "")), LexState(r3, []))
    requires NextToken(LexState(r3, [])).result == Err(EndOfInput)
    ensures Document(r0) == Ok([])
  {
    TypeDeclarationStart(r0, r1);
    UserTypeAfterName(r1, name, r2);
    StructCutShort(r2, r3);
    FirstDeclarationFails(r0);
  }

  /** After an enum's name, a token that is neither a width keyword nor `{`
      is pushed back as the kind UINT, and then fails as the expected `{`. */
  lemma NonWidthKindIsRejected(r0: string, r1: string, r2: string, r3: string, name: string, tok: Token)
    requires NextToken(LexState(r0, [])) == Lexed(Ok(Token(TENUM, "")), LexState(r1, []))
    requires NextToken(LexState(r1, [])) == Lexed(Ok(Token(TNAME, name)), LexState(r2, []))
    requires NextToken(LexState(r2, [])) == Lexed(Ok(tok), LexState(r3, []))
    requires tok.kind != TU8 && tok.kind != TU16 && tok.kind != TU32 && tok.kind != TU64
    requires tok.kind != TLBRACE
    ensures Document(r0) == Err(UnexpectedToken(tok, "{"))
  {
    EnumDeclarationStart(r0, r1);
    NextFromPushback(r1, Token(TENUM, ""));
    EnumKindOther(LexState(r2, []), tok, LexState(r3, []));
    PushedOnEmpty(r3, tok);
    NextFromPushback(r3, tok);
    assert Declaration(LexState(r0, [])).result == Err(UnexpectedToken(tok, "{"));
    FirstDeclarationFails(r0);
  }

  /** A type's name is checked only once its type has been parsed: `type
      name T` with a primitive T fails on the name after T has been read,
      and nothing after T is scanned. */
  lemma TypeNameIsCheckedLast(r0: string, r1: string, r2: string, r3: string, name: string, tok: Token)
    requires NextToken(LexState(r0, [])) == Lexed(Ok(Token(TTYPE, "")), LexState(r1, []))
    requires NextToken(LexState(r1, [])) == Lexed(Ok(Token(TNAME, name)), LexState(r2, []))
    requires NextToken(LexState(r2, [])) == Lexed(Ok(tok), LexState(r3, []))
    requires PrimitiveOfToken(tok.kind).Some?
    requires !MatchString(UserTypeNamePattern, name)
    ensures Document(r0) == Err(InvalidName(UserTypeName, name))
  {
    TypeDeclarationStart(r0, r1);
    UserTypeAfterName(r1, name, r2);
    assert TypeExpr(LexState(r2, [])) == Parsed(Ok(PrimitiveType(PrimitiveOfToken(tok.kind).value)), LexState(r3, []));
    FirstDeclarationFails(r0);
  }

  /** One round of the loop of parseUserEnum: after a value, `}` ends the
      enum and a name starts the next value. */
  lemma EnumEntriesStep(st: LexState, acc: seq<RawEntry>, e: RawEntry, st1: LexState, tok: Token, st2: LexState)
    requires EnumEntry(st) == Parsed(Ok(e), st1)
    requires NextToken(st1) == Lexed(Ok(tok), st2)
    ensures tok.kind == TRBRACE ==> EnumEntries(st, acc) == Parsed(Ok(acc + [e]), st2)
    ensures tok.kind == TNAME ==> EnumEntries(st, acc) == EnumEntries(Pushed(st2, tok), acc + [e])
  {
  }

  /** The name, the kind and the `{` of an enum, then its body. */
  lemma EnumHead(text: string, name: string, st1: LexState, kind: TypeKind, st2: LexState, st3: LexState)
    requires NextToken(LexState(text, [])) == Lexed(Ok(Token(TNAME, name)), st1)
    requires EnumKind(st1) == Parsed(Ok(kind), st2)
    requires NextToken(st2) == Lexed(Ok(Token(TLBRACE, "")), st3)
    ensures IsEnumKind(kind)
    ensures UserEnumDecl(LexState(text, [Token(TENUM, "")])) == EnumBody(name, kind, st3)
  {
  }

  lemma EnumKindOther(st: LexState, tok: Token, st1: LexState)
    requires NextToken(st) == Lexed(Ok(tok), st1)
    requires tok.kind != TU8 && tok.kind != TU16 && tok.kind != TU32 && tok.kind != TU64
    ensures EnumKind(st) == Parsed(Ok(UINT), Pushed(st1, tok))
  {
  }

  lemma EnumBodyOf(name: string, kind: TypeKind, st: LexState, entries: seq<RawEntry>, st1: LexState)
    requires IsEnumKind(kind)
    requires EnumEntries(st, []) == Parsed(Ok(entries), st1)
    requires MatchString(UserEnumNamePattern, name)
    ensures EnumBody(name, kind, st) == Parsed(Ok(UserDefinedEnum(name, kind, AssignValues(entries, 0))), st1)
  {
  }

  /** An enum value `a = d`. */
  lemma ExplicitEntryAt(r3: string, a: string, r4: string, r5: string, d: string, r6: string)
    requires NextToken(LexState(r3, [])) == Lexed(Ok(Token(TNAME, a)), LexState(r4, []))
    requires NextToken(LexState(r4, [])) == Lexed(Ok(Token(TEQUAL, "")), LexState(r5, []))
    requires NextToken(LexState(r5, [])) == Lexed(Ok(Token(TINTEGER, d)), LexState(r6, []))
    requires MatchString(EnumValuePattern, a)
    ensures EnumEntry(LexState(r3, [])) == Parsed(Ok(RawEntry(a, Some(ParseUint(d, MaxUint32) as uint64))), LexState(r6, []))
  {
    assert OptionalLabel(LexState(r4, []), MaxUint32) == Parsed(Ok(Some(ParseUint(d, MaxUint32) as uint64)), LexState(r6, []));
  }

  /** An enum value `b` with no `=`, read after its name was pushed back. */
  lemma ImplicitEntryAt(r7: string, b: string, tok: Token, r8: string)
    requires NextToken(LexState(r7, [])) == Lexed(Ok(tok), LexState(r8, []))
    requires tok.kind != TEQUAL
    requires MatchString(EnumValuePattern, b)
    ensures EnumEntry(LexState(r7, [Token(TNAME, b)])) == Parsed(Ok(RawEntry(b, None)), LexState(r8, [tok]))
  {
    NextFromPushback(r7, Token(TNAME, b));
    PushedOnEmpty(r8, tok);
  }

  /** The first round of the loop over `{ a = d b }`: the value `a = d`,
      then the name b, pushed back. */
  lemma FirstEntryRound(r3: string, a: string, r4: string, r5: string, d: string, r6: string, b: string, r7: string)
    requires NextToken(LexState(r3, [])) == Lexed(Ok(Token(TNAME, a)), LexState(r4, []))
    requires NextToken(LexState(r4, [])) == Lexed(Ok(Token(TEQUAL, "")), LexState(r5, []))
    requires NextToken(LexState(r5, [])) == Lexed(Ok(Token(TINTEGER, d)), LexState(r6, []))
    requires NextToken(LexState(r6, [])) == Lexed(Ok(Token(TNAME, b)), LexState(r7, []))
    requires MatchString(EnumValuePattern, a)
    ensures EnumEntries(LexState(r3, []), [])
         == EnumEntries(LexState(r7, [Token(TNAME, b)]), [RawEntry(a, Some(ParseUint(d, MaxUint32) as uint64))])
  {
    var ea, name := RawEntry(a, Some(ParseUint(d, MaxUint32) as uint64)), Token(TNAME, b);
    ExplicitEntryAt(r3, a, r4, r5, d, r6);
    EnumEntriesStep(LexState(r3, []), [], ea, LexState(r6, []), name, LexState(r7, []));
    PushedOnEmpty(r7, name);
    assert [] + [ea] == [ea];
  }

  /** The second round: the value b, then `}`. */
  lemma LastEntryRound(r7: string, b: string, r8: string, ea: RawEntry)
    requires NextToken(LexState(r7, [])) == Lexed(Ok(Token(TRBRACE, "")), LexState(r8, []))
    requires MatchString(EnumValuePattern, b)
    ensures EnumEntries(LexState(r7, [Token(TNAME, b)]), [ea]) == Parsed(Ok([ea, RawEntry(b, None)]), LexState(r8, []))
  {
    var eb, rbrace := RawEntry(b, None), Token(TRBRACE, "");
    ImplicitEntryAt(r7, b, rbrace, r8);
    NextFromPushback(r8, rbrace);
    EnumEntriesStep(LexState(r7, [Token(TNAME, b)]), [ea], eb, LexState(r8, [rbrace]), rbrace, LexState(r8, []));
    assert [ea] + [eb] == [ea, eb];
  }

  /** `enum Name {` with no kind keyword: the `{` read as the kind is pushed
      back and the kind is UINT. */
  lemma EnumHeadWithoutKind(r1: string, name: string, r2: string, r3: string)
    requires NextToken(LexState(r1, [])) == Lexed(Ok(Token(TNAME, name)), LexState(r2, []))
    requires NextToken(LexState(r2, [])) == Lexed(Ok(Token(TLBRACE, "")), LexState(r3, []))
    ensures UserEnumDecl(LexState(r1, [Token(TENUM, "")])) == EnumBody(name, UINT, LexState(r3, []))
  {
    var lbrace := Token(TLBRACE, "");
    EnumKindOther(LexState(r2, []), lbrace, LexState(r3, []));
    PushedOnEmpty(r3, lbrace);
    NextFromPushback(r3, lbrace);
    EnumHead(r1, name, LexState(r2, []), UINT, LexState(r3, [lbrace]), LexState(r3, []));
  }

  /** An implicit value after `= N` repeats N: `enum Name { a = d b }` gives
      both values the number d. */
  lemma ImplicitValueRepeatsExplicit(r0: string, r1: string, r2: string, r3: string, r4: string, r5: string,
                                     r6: string, r7: string, r8: string, name: string, a: string, d: string, b: string)
    requires NextToken(LexState(r0, [])) == Lexed(Ok(Token(TENUM, "")), LexState(r1, []))
    requires NextToken(LexState(r1, [])) == Lexed(Ok(Token(TNAME, name)), LexState(r2, []))
    requires NextToken(LexState(r2, [])) == Lexed(Ok(Token(TLBRACE, "")), LexState(r3, []))
    requires NextToken(LexState(r3, [])) == Lexed(Ok(Token(TNAME, a)), LexState(r4, []))
    requires NextToken(LexState(r4, [])) == Lexed(Ok(Token(TEQUAL, "")), LexState(r5, []))
    requires NextToken(LexState(r5, [])) == Lexed(Ok(Token(TINTEGER, d)), LexState(r6, []))
    requires NextToken(LexState(r6, [])) == Lexed(Ok(Token(TNAME, b)), LexState(r7, []))
    requires NextToken(LexState(r7, [])) == Lexed(Ok(Token(TRBRACE, "")), LexState(r8, []))
    requires MatchString(UserEnumNamePattern, name)
    requires MatchString(EnumValuePattern, a) && MatchString(EnumValuePattern, b)
    ensures var v := ParseUint(d, MaxUint32) as uint64;
      Declaration(LexState(r0, [])) == Parsed(Ok(UserDefinedEnum(name, UINT, [EnumValue(a, v), EnumValue(b, v)])), LexState(r8, []))
  {
    var v := ParseUint(d, MaxUint32) as uint64;
    var entries := [RawEntry(a, Some(v)), RawEntry(b, None)];
    var decl := UserDefinedEnum(name, UINT, [EnumValue(a, v), EnumValue(b, v)]);
    EnumDeclarationStart(r0, r1);
    EnumHeadWithoutKind(r1, name, r2, r3);
    FirstEntryRound(r3, a, r4, r5, d, r6, b, r7);
    LastEntryRound(r7, b, r8, RawEntry(a, Some(v)));
    EnumBodyOf(name, UINT, LexState(r3, []), entries, LexState(r8, []));
    ImplicitValueAfterExplicitRepeats(a, b, v, 0);
  }

  /** A declaration followed by blank text is the whole document. */
  lemma SoleDeclaration(text: string, d: SchemaType, after: string)
    requires Declaration(LexState(text, [])) == Parsed(Ok(d), LexState(after, []))
    requires IsBlank(after)
    ensures Document(text) == Ok([d])
  {
    FirstDeclarationComesFirst(text, d, LexState(after, []));
    BlankDocumentIsEmpty(after);
    assert [d] + [] == [d];
  }

  // ---------------------------------------------------------------------------
  // Data, array and struct types, token by token

  /** parseType pushes `data` back and parses a data type. */
  lemma TypeExprAtData(st: LexState, st1: LexState)
    requires Read(st) == Parsed(Ok(Token(TDATA, "")), st1)
    ensures TypeExpr(st) == DataExpr(Pushed(st1, Token(TDATA, "")))
  {
  }

  /** parseType pushes `[` back and parses an array type. */
  lemma TypeExprAtBracket(st: LexState, st1: LexState)
    requires Read(st) == Parsed(Ok(Token(TLBRACKET, "")), st1)
    ensures TypeExpr(st) == ArrayExpr(Pushed(st1, Token(TLBRACKET, "")))
  {
  }

  /** A primitive keyword is a whole type. */
  lemma TypeExprAtPrimitive(st: LexState, t: Token, st1: LexState)
    requires Read(st) == Parsed(Ok(t), st1) && PrimitiveOfToken(t.kind).Some?
    ensures TypeExpr(st) == Parsed(Ok(PrimitiveType(PrimitiveOfToken(t.kind).value)), st1)
  {
  }

  /** `data` not followed by `<` has length 0, and the token after it is
      pushed back. */
  lemma DataWithoutLength(st: LexState, st1: LexState, tok: Token, st2: LexState)
    requires Read(st) == Parsed(Ok(Token(TDATA, "")), st1)
    requires Read(st1) == Parsed(Ok(tok), st2) && tok.kind != TLANGLE
    ensures DataExpr(st) == Parsed(Ok(DataType(0)), Pushed(st2, tok))
  {
  }

  /** `data<N>` has the length N as 32-bit ParseUint reads it. */
  lemma DataWithLength(st: LexState, st1: LexState, st2: LexState, d: string, st3: LexState, st4: LexState)
    requires Read(st) == Parsed(Ok(Token(TDATA, "")), st1)
    requires Read(st1) == Parsed(Ok(Token(TLANGLE, "")), st2)
    requires Read(st2) == Parsed(Ok(Token(TINTEGER, d)), st3)
    requires Read(st3) == Parsed(Ok(Token(TRANGLE, "")), st4)
    ensures DataExpr(st) == Parsed(Ok(DataType(ParseUint(d, MaxUint32) as uint64)), st4)
  {
  }

  /** The end of input right after `data`, where parseDataType looks for `<`. */
  lemma DataCutShort(st: LexState, st1: LexState)
    requires Read(st) == Parsed(Ok(Token(TDATA, "")), st1)
    requires NextToken(st1).result == Err(EndOfInput)
    ensures DataExpr(st).result == Err(ScanError(EndOfInput))
  {
  }

  /** `[]T` has length 0. */
  lemma ArrayWithoutLength(st: LexState, st1: LexState, st2: LexState, m: Type, st3: LexState)
    requires Read(st) == Parsed(Ok(Token(TLBRACKET, "")), st1)
    requires Read(st1) == Parsed(Ok(Token(TRBRACKET, "")), st2)
    requires TypeExpr(st2) == Parsed(Ok(m), st3)
    ensures ArrayExpr(st) == Parsed(Ok(ArrayType(m, 0)), st3)
  {
  }

  /** `[N]T` has the length N as 32-bit ParseUint reads it. */
  lemma ArrayWithLength(st: LexState, st1: LexState, d: string, st2: LexState, st3: LexState, m: Type, st4: LexState)
    requires Read(st) == Parsed(Ok(Token(TLBRACKET, "")), st1)
    requires Read(st1) == Parsed(Ok(Token(TINTEGER, d)), st2)
    requires Read(st2) == Parsed(Ok(Token(TRBRACKET, "")), st3)
    requires TypeExpr(st3) == Parsed(Ok(m), st4)
    ensures ArrayExpr(st) == Parsed(Ok(ArrayType(m, ParseUint(d, MaxUint32) as uint64)), st4)
  {
  }

  /** After `[`, anything other than an integer or `]` is rejected. */
  lemma ArrayLengthIsRejected(st: LexState, st1: LexState, tok: Token, st2: LexState)
    requires Read(st) == Parsed(Ok(Token(TLBRACKET, "")), st1)
    requires Read(st1) == Parsed(Ok(tok), st2) && tok.kind != TINTEGER && tok.kind != TRBRACKET
    ensures ArrayExpr(st) == Parsed(Err(UnexpectedToken(tok, "]")), st2)
  {
  }

  /** `}` ends the fields, keeping those read so far. */
  lemma StructFieldsAtClose(st: LexState, acc: seq<StructField>, close: Token, st1: LexState)
    requires Read(st) == Parsed(Ok(close), st1) && close.kind == TRBRACE
    ensures StructFields(st, acc) == Parsed(Ok(acc), st1)
  {
  }

  /** One `name: T` field is appended after those read so far. */
  lemma StructFieldsStep(st: LexState, acc: seq<StructField>, name: string, st1: LexState,
                         colon: Token, st2: LexState, t: Type, st3: LexState)
    requires Read(st) == Parsed(Ok(Token(TNAME, name)), st1) && MatchString(FieldNamePattern, name)
    requires Read(st1) == Parsed(Ok(colon), st2) && colon.kind == TCOLON
    requires TypeExpr(st2) == Parsed(Ok(t), st3)
    ensures StructFields(st, acc) == StructFields(st3, acc + [StructField(name, t)])
  {
  }

  /** parseStructType: `{` and then the fields. */
  lemma StructOfFields(st: LexState, st1: LexState, fs: seq<StructField>, st2: LexState)
    requires Read(st) == Parsed(Ok(Token(TLBRACE, "")), st1)
    requires StructFields(st1, []) == Parsed(Ok(fs), st2)
    ensures StructExpr(st) == Parsed(Ok(StructType(fs)), st2)
  {
  }

  /** Prepends the fields already read to the outcome of the rest. */
  function PrependFields(acc: seq<StructField>, p: Parsed<seq<StructField>>): Parsed<seq<StructField>> {
    if p.result.Ok? then Parsed(Ok(acc + p.result.value), p.state) else p
  }

  lemma PrependFieldsTwice(acc: seq<StructField>, f: StructField, p: Parsed<seq<StructField>>)
    ensures PrependFields(acc + [f], p) == PrependFields(acc, PrependFields([f], p))
  {
    if p.result.Ok? {
      assert (acc + [f]) + p.result.value == acc + ([f] + p.result.value);
    }
  }

  /** The next `name: T` field is read completely. */
  predicate FieldFollows(st: LexState) {
    var tok := Read(st);
    tok.result.Ok? && tok.result.value.kind == TNAME && MatchString(FieldNamePattern, tok.result.value.value)
    && Read(tok.state).result.Ok? && Read(tok.state).result.value.kind == TCOLON
    && TypeExpr(Read(tok.state).state).result.Ok?
  }

  /** The field FieldFollows reads, and the state after it. */
  function NextField(st: LexState): (StructField, LexState)
    requires FieldFollows(st)
  {
    var tok := Read(st);
    var colon := Read(tok.state);
    var t := TypeExpr(colon.state);
    (StructField(tok.result.value.value, t.result.value), t.state)
  }

  /** A complete field is appended, and the loop goes on after it. */
  lemma StructFieldsAdvance(st: LexState, acc: seq<StructField>)
    requires FieldFollows(st)
    ensures Size(NextField(st).1) < Size(st)
    ensures StructFields(st, acc) == StructFields(NextField(st).1, acc + [NextField(st).0])
  {
    var tok := Read(st);
    assert tok.result.value == Token(TNAME, tok.result.value.value);
    var colon := Read(tok.state);
    var t := TypeExpr(colon.state);
    StructFieldsStep(st, acc, tok.result.value.value, tok.state, colon.result.value, colon.state, t.result.value, t.state);
  }

  /** Neither `}` nor a complete field: the loop fails, whatever it has read so far. */
  lemma StructFieldsFailAlike(st: LexState, acc: seq<StructField>)
    requires !(Read(st).result.Ok? && Read(st).result.value.kind == TRBRACE) && !FieldFollows(st)
    ensures StructFields(st, acc).result.Err? && StructFields(st, acc) == StructFields(st, [])
  {
  }

  /** The fields already read stay in front, in order, of those that follow;
      an error anywhere after them discards them all. */
  lemma {:induction false} StructFieldsKeepOrder(st: LexState, acc: seq<StructField>)
    ensures StructFields(st, acc) == PrependFields(acc, StructFields(st, []))
    decreases Size(st)
  {
    var tok := Read(st);
    if tok.result.Ok? && tok.result.value.kind == TRBRACE {
      StructFieldsAtClose(st, acc, tok.result.value, tok.state);
      StructFieldsAtClose(st, [], tok.result.value, tok.state);
      assert acc + [] == acc;
    } else if FieldFollows(st) {
      var (f, rest) := NextField(st);
      StructFieldsAdvance(st, acc);
      StructFieldsAdvance(st, []);
      StructFieldsKeepOrder(rest, acc + [f]);
      assert [] + [f] == [f];
      StructFieldsKeepOrder(rest, [f]);
      PrependFieldsTwice(acc, f, StructFields(rest, []));
    } else {
      StructFieldsFailAlike(st, acc);
    }
  }

  /** `type Name T` followed by blank text, where T is a whole type, is the
      entire document. */
  lemma SoleUserType(r0: string, r1: string, name: string, r2: string, t: Type, after: string)
    requires NextToken(LexState(r0, [])) == Lexed(Ok(Token(TTYPE, "")), LexState(r1, []))
    requires NextToken(LexState(r1, [])) == Lexed(Ok(Token(TNAME, name)), LexState(r2, []))
    requires TypeExpr(LexState(r2, [])) == Parsed(Ok(t), LexState(after, []))
    requires MatchString(UserTypeNamePattern, name) && IsBlank(after)
    ensures Document(r0) == Ok([UserDefinedType(name, t)])
  {
    TypeDeclarationStart(r0, r1);
    UserTypeAfterName(r1, name, r2);
    SoleDeclaration(r0, UserDefinedType(name, t), after);
  }

  /** `type Name data` and then the end of input: the look-ahead for `<`
      meets the end, so the declaration is dropped and the document is
      empty. */
  lemma FinalDataDeclarationIsDropped(r0: string, r1: string, name: string, r2: string, r3: string)
    requires NextToken(LexState(r0, [])) == Lexed(Ok(Token(TTYPE, "")), LexState(r1, []))
    requires NextToken(LexState(r1, [])) == Lexed(Ok(Token(TNAME, name)), LexState(r2, []))
    requires NextToken(LexState(r2, [])) == Lexed(Ok(Token(TDATA, "")), LexState(r3, []))
    requires NextToken(LexState(r3, [])).result == Err(EndOfInput)
    ensures Document(r0) == Ok([])
  {
    var data := Token(TDATA, "");
    ReadOfNext(LexState(r2, []), data, LexState(r3, []));
    TypeExprAtData(LexState(r2, []), LexState(r3, []));
    PushedOnEmpty(r3, data);
    NextFromPushback(r3, data);
    ReadOfNext(LexState(r3, [data]), data, LexState(r3, []));
    DataCutShort(LexState(r3, [data]), LexState(r3, []));
    TypeDeclarationStart(r0, r1);
    UserTypeAfterName(r1, name, r2);
    FirstDeclarationFails(r0);
  }

  // ---------------------------------------------------------------------------
  // Concrete documents

  lemma TypeSpelling()
    ensures Token(TTYPE, "").String() == "type"
  {
  }

  lemma EnumSpelling()
    ensures Token(TENUM, "").String() == "enum"
  {
  }

  lemma SpacedKeywords()
    ensures IsWord("uint") && ClassifyWord("uint") == Token(TUINT, "") && " uint" == " " + "uint"
    ensures IsWord("u8") && ClassifyWord("u8") == Token(TU8, "") && " u8" == " " + "u8"
  {
  }

  lemma PunctuationOfExamples()
    ensures Punctuation('{') == Some(TLBRACE) && Punctuation('=') == Some(TEQUAL) && Punctuation('}') == Some(TRBRACE)
  {
  }

  lemma FiveParses()
    ensures ParseUint("5", MaxUint32) == 5
  {
  }

  lemma NamesOfRepeatExample()
    ensures MatchString(UserEnumNamePattern, "E")
    ensures MatchString(EnumValuePattern, "A") && MatchString(EnumValuePattern, "B")
  {
  }

  /** `type T {` and nothing more is an empty schema. */
  lemma TruncatedDeclarationIsDropped(rest: string)
    requires IsBlank(rest)
    ensures Document("type" + (" T" + (" {" + rest))) == Ok([])
  {
    PunctuationOfExamples();
    TypeSpelling();
    NextKeyword(TTYPE, " T" + (" {" + rest));
    NextSpacedLetter('T', " {" + rest);
    NextSpacedPunctuation('{', rest);
    NextBlank(rest);
    UnfinishedDeclarationIsDropped("type" + (" T" + (" {" + rest)), " T" + (" {" + rest), " {" + rest, rest, "T");
  }

  /** `enum E uint`: the kind keyword uint is not accepted after an enum name. */
  lemma ExplicitUintEnumKindIsRejected(rest: string)
    requires rest == [] || !IsWordChar(rest[0])
    ensures Document("enum" + (" E" + (" uint" + rest))) == Err(UnexpectedToken(Token(TUINT, ""), "{"))
  {
    EnumSpelling();
    NextKeyword(TENUM, " E" + (" uint" + rest));
    NextSpacedLetter('E', " uint" + rest);
    SpacedKeywords();
    NextSpacedWord("uint", " uint", rest);
    NonWidthKindIsRejected("enum" + (" E" + (" uint" + rest)), " E" + (" uint" + rest), " uint" + rest, rest, "E", Token(TUINT, ""));
  }

  /** The three tokens of `type a u8`. */
  lemma LazyNameTokens(rest: string)
    requires rest == [] || !IsWordChar(rest[0])
    ensures NextToken(LexState("type" + (" a" + (" u8" + rest)), [])) == Lexed(Ok(Token(TTYPE, "")), LexState(" a" + (" u8" + rest), []))
    ensures NextToken(LexState(" a" + (" u8" + rest), [])) == Lexed(Ok(Token(TNAME, "a")), LexState(" u8" + rest, []))
    ensures NextToken(LexState(" u8" + rest, [])) == Lexed(Ok(Token(TU8, "")), LexState(rest, []))
  {
    TypeSpelling();
    NextKeyword(TTYPE, " a" + (" u8" + rest));
    NextSpacedLetter('a', " u8" + rest);
    SpacedKeywords();
    NextSpacedWord("u8", " u8", rest);
  }

  /** `type a u8`: the lower-case name is reported after u8 has been read,
      whatever follows. */
  lemma InvalidTypeNameIsReportedLazily(rest: string)
    requires rest == [] || !IsWordChar(rest[0])
    ensures Document("type" + (" a" + (" u8" + rest))) == Err(InvalidName(UserTypeName, "a"))
  {
    LazyNameTokens(rest);
    assert !MatchString(UserTypeNamePattern, "a");
    TypeNameIsCheckedLast("type" + (" a" + (" u8" + rest)), " a" + (" u8" + rest), " u8" + rest, rest, "a", Token(TU8, ""));
  }

  /** The first three tokens of `enum E { A = 5 B }`. */
  lemma RepeatHeadTokens(rest: string)
    ensures NextToken(LexState("enum" + (" E" + (" {" + (" A" + (" =" + (" 5" + (" B" + (" }" + rest))))))), [])) == Lexed(Ok(Token(TENUM, "")), LexState(" E" + (" {" + (" A" + (" =" + (" 5" + (" B" + (" }" + rest)))))), []))
    ensures NextToken(LexState(" E" + (" {" + (" A" + (" =" + (" 5" + (" B" + (" }" + rest)))))), [])) == Lexed(Ok(Token(TNAME, "E")), LexState(" {" + (" A" + (" =" + (" 5" + (" B" + (" }" + rest))))), []))
    ensures NextToken(LexState(" {" + (" A" + (" =" + (" 5" + (" B" + (" }" + rest))))), [])) == Lexed(Ok(Token(TLBRACE, "")), LexState(" A" + (" =" + (" 5" + (" B" + (" }" + rest)))), []))
  {
    PunctuationOfExamples();
    EnumSpelling();
    NextKeyword(TENUM, " E" + (" {" + (" A" + (" =" + (" 5" + (" B" + (" }" + rest)))))));
    NextSpacedLetter('E', " {" + (" A" + (" =" + (" 5" + (" B" + (" }" + rest))))));
    NextSpacedPunctuation('{', " A" + (" =" + (" 5" + (" B" + (" }" + rest)))));
  }

  /** The other five tokens of `enum E { A = 5 B }`. */
  lemma RepeatBodyTokens(rest: string)
    ensures NextToken(LexState(" A" + (" =" + (" 5" + (" B" + (" }" + rest)))), [])) == Lexed(Ok(Token(TNAME, "A")), LexState(" =" + (" 5" + (" B" + (" }" + rest))), []))
    ensures NextToken(LexState(" =" + (" 5" + (" B" + (" }" + rest))), [])) == Lexed(Ok(Token(TEQUAL, "")), LexState(" 5" + (" B" + (" }" + rest)), []))
    ensures NextToken(LexState(" 5" + (" B" + (" }" + rest)), [])) == Lexed(Ok(Token(TINTEGER, "5")), LexState(" B" + (" }" + rest), []))
    ensures NextToken(LexState(" B" + (" }" + rest), [])) == Lexed(Ok(Token(TNAME, "B")), LexState(" }" + rest, []))
    ensures NextToken(LexState(" }" + rest, [])) == Lexed(Ok(Token(TRBRACE, "")), LexState(rest, []))
  {
    PunctuationOfExamples();
    NextSpacedLetter('A', " =" + (" 5" + (" B" + (" }" + rest))));
    NextSpacedPunctuation('=', " 5" + (" B" + (" }" + rest)));
    NextSpacedDigit('5', " B" + (" }" + rest));
    NextSpacedLetter('B', " }" + rest);
    NextSpacedPunctuation('}', rest);
  }

  /** `enum E { A = 5 B }` declares A and B both with the value 5. */
  lemma ValueAfterExplicitRepeats(rest: string)
    requires IsBlank(rest)
    ensures Document("enum" + (" E" + (" {" + (" A" + (" =" + (" 5" + (" B" + (" }" + rest))))))))
         == Ok([UserDefinedEnum("E", UINT, [EnumValue("A", 5), EnumValue("B", 5)])])
  {
    var d := UserDefinedEnum("E", UINT, [EnumValue("A", 5), EnumValue("B", 5)]);
    FiveParses();
    NamesOfRepeatExample();
    RepeatHeadTokens(rest);
    RepeatBodyTokens(rest);
    var r7 := " }" + rest;
    var r6 := " B" + r7;
    var r5 := " 5" + r6;
    var r4 := " =" + r5;
    var r3 := " A" + r4;
    var r2 := " {" + r3;
    var r1 := " E" + r2;
    ImplicitValueRepeatsExplicit("enum" + r1, r1, r2, r3, r4, r5, r6, r7, rest, "E", "A", "5", "B");
    SoleDeclaration("enum" + r1, d, rest);
  }

  // Data, array and struct declarations, text by text

  lemma ReadPushedBack(r: string, tok: Token)
    ensures Read(LexState(r, [tok])) == Parsed(Ok(tok), LexState(r, []))
  {
    NextFromPushback(r, tok);
  }

  /** `data<d>` read from text: fixed-length data of ParseUint(d) bytes. */
  lemma DataOfLengthText(r2: string, r3: string, r4: string, d: string, r5: string, after: string)
    requires NextToken(LexState(r2, [])) == Lexed(Ok(Token(TDATA, "")), LexState(r3, []))
    requires NextToken(LexState(r3, [])) == Lexed(Ok(Token(TLANGLE, "")), LexState(r4, []))
    requires NextToken(LexState(r4, [])) == Lexed(Ok(Token(TINTEGER, d)), LexState(r5, []))
    requires NextToken(LexState(r5, [])) == Lexed(Ok(Token(TRANGLE, "")), LexState(after, []))
    ensures TypeExpr(LexState(r2, [])) == Parsed(Ok(DataType(ParseUint(d, MaxUint32) as uint64)), LexState(after, []))
  {
    var data := Token(TDATA, "");
    ReadOfNext(LexState(r2, []), data, LexState(r3, []));
    TypeExprAtData(LexState(r2, []), LexState(r3, []));
    PushedOnEmpty(r3, data);
    ReadPushedBack(r3, data);
    ReadOfNext(LexState(r3, []), Token(TLANGLE, ""), LexState(r4, []));
    ReadOfNext(LexState(r4, []), Token(TINTEGER, d), LexState(r5, []));
    ReadOfNext(LexState(r5, []), Token(TRANGLE, ""), LexState(after, []));
    DataWithLength(LexState(r3, [data]), LexState(r3, []), LexState(r4, []), d, LexState(r5, []), LexState(after, []));
  }

  /** `[d]` and a member type read from text: an array of ParseUint(d) members. */
  lemma ArrayOfLengthText(r2: string, r3: string, d: string, r4: string, r5: string, m: Type, after: string)
    requires NextToken(LexState(r2, [])) == Lexed(Ok(Token(TLBRACKET, "")), LexState(r3, []))
    requires NextToken(LexState(r3, [])) == Lexed(Ok(Token(TINTEGER, d)), LexState(r4, []))
    requires NextToken(LexState(r4, [])) == Lexed(Ok(Token(TRBRACKET, "")), LexState(r5, []))
    requires TypeExpr(LexState(r5, [])) == Parsed(Ok(m), LexState(after, []))
    ensures TypeExpr(LexState(r2, [])) == Parsed(Ok(ArrayType(m, ParseUint(d, MaxUint32) as uint64)), LexState(after, []))
  {
    var open := Token(TLBRACKET, "");
    ReadOfNext(LexState(r2, []), open, LexState(r3, []));
    TypeExprAtBracket(LexState(r2, []), LexState(r3, []));
    PushedOnEmpty(r3, open);
    ReadPushedBack(r3, open);
    ReadOfNext(LexState(r3, []), Token(TINTEGER, d), LexState(r4, []));
    ReadOfNext(LexState(r4, []), Token(TRBRACKET, ""), LexState(r5, []));
    ArrayWithLength(LexState(r3, [open]), LexState(r3, []), d, LexState(r4, []), LexState(r5, []), m, LexState(after, []));
  }

  /** `[]` and a member type read from text: a slice, length 0. */
  lemma ArrayOfNoLengthText(r2: string, r3: string, r5: string, m: Type, after: string)
    requires NextToken(LexState(r2, [])) == Lexed(Ok(Token(TLBRACKET, "")), LexState(r3, []))
    requires NextToken(LexState(r3, [])) == Lexed(Ok(Token(TRBRACKET, "")), LexState(r5, []))
    requires TypeExpr(LexState(r5, [])) == Parsed(Ok(m), LexState(after, []))
    ensures TypeExpr(LexState(r2, [])) == Parsed(Ok(ArrayType(m, 0)), LexState(after, []))
  {
    var open := Token(TLBRACKET, "");
    ReadOfNext(LexState(r2, []), open, LexState(r3, []));
    TypeExprAtBracket(LexState(r2, []), LexState(r3, []));
    PushedOnEmpty(r3, open);
    ReadPushedBack(r3, open);
    ReadOfNext(LexState(r3, []), Token(TRBRACKET, ""), LexState(r5, []));
    ArrayWithoutLength(LexState(r3, [open]), LexState(r3, []), LexState(r5, []), m, LexState(after, []));
  }

  /** `{` and the fields read from text: a struct of those fields. */
  lemma StructOfText(r2: string, body: string, fs: seq<StructField>, after: string)
    requires NextToken(LexState(r2, [])) == Lexed(Ok(Token(TLBRACE, "")), LexState(body, []))
    requires StructFields(LexState(body, []), []) == Parsed(Ok(fs), LexState(after, []))
    ensures TypeExpr(LexState(r2, [])) == Parsed(Ok(StructType(fs)), LexState(after, []))
  {
    var open := Token(TLBRACE, "");
    ReadOfNext(LexState(r2, []), open, LexState(body, []));
    TypeExprAtBrace(LexState(r2, []), LexState(body, []));
    PushedOnEmpty(body, open);
    ReadPushedBack(body, open);
    StructOfFields(LexState(body, [open]), LexState(body, []), fs, LexState(after, []));
  }

  /** A primitive keyword read from text is a whole type. */
  lemma PrimitiveText(r: string, tok: Token, after: string)
    requires NextToken(LexState(r, [])) == Lexed(Ok(tok), LexState(after, []))
    requires PrimitiveOfToken(tok.kind).Some?
    ensures TypeExpr(LexState(r, [])) == Parsed(Ok(PrimitiveType(PrimitiveOfToken(tok.kind).value)), LexState(after, []))
  {
    ReadOfNext(LexState(r, []), tok, LexState(after, []));
    TypeExprAtPrimitive(LexState(r, []), tok, LexState(after, []));
  }

  /** A field `name: primitive` read from text, appended to the fields so far. */
  lemma PrimitiveFieldText(r: string, acc: seq<StructField>, name: string, r1: string, r2: string, tok: Token, after: string)
    requires NextToken(LexState(r, [])) == Lexed(Ok(Token(TNAME, name)), LexState(r1, []))
    requires MatchString(FieldNamePattern, name)
    requires NextToken(LexState(r1, [])) == Lexed(Ok(Token(TCOLON, "")), LexState(r2, []))
    requires NextToken(LexState(r2, [])) == Lexed(Ok(tok), LexState(after, []))
    requires PrimitiveOfToken(tok.kind).Some?
    ensures StructFields(LexState(r, []), acc)
         == StructFields(LexState(after, []), acc + [StructField(name, PrimitiveType(PrimitiveOfToken(tok.kind).value))])
  {
    ReadOfNext(LexState(r, []), Token(TNAME, name), LexState(r1, []));
    ReadOfNext(LexState(r1, []), Token(TCOLON, ""), LexState(r2, []));
    PrimitiveText(r2, tok, after);
    StructFieldsStep(LexState(r, []), acc, name, LexState(r1, []), Token(TCOLON, ""), LexState(r2, []),
                     PrimitiveType(PrimitiveOfToken(tok.kind).value), LexState(after, []));
  }

  lemma TypeKeywordsOfExamples()
    ensures IsWord("data") && ClassifyWord("data") == Token(TDATA, "")
    ensures IsWord("bool") && ClassifyWord("bool") == Token(TBOOL, "")
    ensures IsWord("u8") && ClassifyWord("u8") == Token(TU8, "")
    ensures PrimitiveOfToken(TU8) == Some(U8) && PrimitiveOfToken(TBOOL) == Some(Bool)
  {
  }

  lemma NamesOfTypeExamples()
    ensures MatchString(UserTypeNamePattern, "D") && MatchString(UserTypeNamePattern, "A")
    ensures MatchString(UserTypeNamePattern, "S")
    ensures MatchString(FieldNamePattern, "a") && MatchString(FieldNamePattern, "b")
  {
  }

  lemma BracketsOfExamples()
    ensures Punctuation('<') == Some(TLANGLE) && Punctuation('>') == Some(TRANGLE)
    ensures Punctuation('[') == Some(TLBRACKET) && Punctuation(']') == Some(TRBRACKET)
    ensures Punctuation('{') == Some(TLBRACE) && Punctuation('}') == Some(TRBRACE)
    ensures Punctuation(':') == Some(TCOLON)
  {
  }

  lemma LengthsOfExamples()
    ensures ParseUint("128", MaxUint32) == 128 && ParseUint("4", MaxUint32) == 4
  {
    assert "128"[1..] == "28" && "28"[1..] == "8" && "8"[1..] == [];
    assert Accumulate("8", 12, MaxUint32) == 128;
    assert Accumulate("28", 1, MaxUint32) == 128;
    assert "4"[1..] == [];
  }

  lemma BlankEndsWord(rest: string)
    requires IsBlank(rest)
    ensures rest == [] || !IsWordChar(rest[0])
  {
  }

  /** The head `type N` of the declaration examples. */
  lemma TypeHeadTokens(c: char, more: string)
    requires IsLetter(c) && more != [] && IsSpace(more[0])
    ensures NextToken(LexState("type" + ([' ', c] + more), [])) == Lexed(Ok(Token(TTYPE, "")), LexState([' ', c] + more, []))
    ensures NextToken(LexState([' ', c] + more, [])) == Lexed(Ok(Token(TNAME, [c])), LexState(more, []))
  {
    TypeSpelling();
    NextKeyword(TTYPE, [' ', c] + more);
    NextSpacedLetter(c, more);
  }

  /** The tokens of ` data<128>`. */
  lemma SizedDataTokens(rest: string)
    ensures NextToken(LexState(" data" + ("<" + ("128" + (">" + rest))), [])) == Lexed(Ok(Token(TDATA, "")), LexState("<" + ("128" + (">" + rest)), []))
    ensures NextToken(LexState("<" + ("128" + (">" + rest)), [])) == Lexed(Ok(Token(TLANGLE, "")), LexState("128" + (">" + rest), []))
    ensures NextToken(LexState("128" + (">" + rest), [])) == Lexed(Ok(Token(TINTEGER, "128")), LexState(">" + rest, []))
    ensures NextToken(LexState(">" + rest, [])) == Lexed(Ok(Token(TRANGLE, "")), LexState(rest, []))
  {
    TypeKeywordsOfExamples();
    BracketsOfExamples();
    NextSpacedWord("data", " data", "<" + ("128" + (">" + rest)));
    NextPunctuation('<', "128" + (">" + rest));
    NextInteger("128", ">" + rest);
    NextPunctuation('>', rest);
  }

  /** `type D data<128>` declares D as 128 bytes of fixed-length data. */
  lemma SizedDataDeclaration(rest: string)
    requires IsBlank(rest)
    ensures Document("type" + (" D" + (" data" + ("<" + ("128" + (">" + rest)))))) == Ok([UserDefinedType("D", DataType(128))])
  {
    var r2 := " data" + ("<" + ("128" + (">" + rest)));
    TypeHeadTokens('D', r2);
    SizedDataTokens(rest);
    LengthsOfExamples();
    NamesOfTypeExamples();
    DataOfLengthText(r2, "<" + ("128" + (">" + rest)), "128" + (">" + rest), "128", ">" + rest, rest);
    SoleUserType("type" + (" D" + r2), " D" + r2, "D", r2, DataType(128), rest);
  }

  /** ` data` as the last token before blanks. */
  lemma FinalDataTokens(rest: string)
    requires IsBlank(rest)
    ensures NextToken(LexState(" data" + rest, [])) == Lexed(Ok(Token(TDATA, "")), LexState(rest, []))
    ensures NextToken(LexState(rest, [])).result == Err(EndOfInput)
  {
    TypeKeywordsOfExamples();
    BlankEndsWord(rest);
    NextSpacedWord("data", " data", rest);
    NextBlank(rest);
  }

  /** `type D data` and then only blanks: the declaration is dropped. */
  lemma FinalDataIsDropped(rest: string)
    requires IsBlank(rest)
    ensures Document("type" + (" D" + (" data" + rest))) == Ok([])
  {
    TypeHeadTokens('D', " data" + rest);
    FinalDataTokens(rest);
    FinalDataDeclarationIsDropped("type" + (" D" + (" data" + rest)), " D" + (" data" + rest), "D", " data" + rest, rest);
  }

  /** ` u8` as the last token before blanks. */
  lemma FinalU8Tokens(rest: string)
    requires IsBlank(rest)
    ensures NextToken(LexState(" u8" + rest, [])) == Lexed(Ok(Token(TU8, "")), LexState(rest, []))
  {
    TypeKeywordsOfExamples();
    BlankEndsWord(rest);
    NextSpacedWord("u8", " u8", rest);
  }

  /** The tokens of ` [4]`. */
  lemma SizedArrayTokens(more: string)
    ensures NextToken(LexState(" [" + ("4" + ("]" + more)), [])) == Lexed(Ok(Token(TLBRACKET, "")), LexState("4" + ("]" + more), []))
    ensures NextToken(LexState("4" + ("]" + more), [])) == Lexed(Ok(Token(TINTEGER, "4")), LexState("]" + more, []))
    ensures NextToken(LexState("]" + more, [])) == Lexed(Ok(Token(TRBRACKET, "")), LexState(more, []))
  {
    BracketsOfExamples();
    NextSpacedPunctuation('[', "4" + ("]" + more));
    NextInteger("4", "]" + more);
    NextPunctuation(']', more);
  }

  /** The tokens of ` []`. */
  lemma UnsizedArrayTokens(more: string)
    ensures NextToken(LexState(" [" + ("]" + more), [])) == Lexed(Ok(Token(TLBRACKET, "")), LexState("]" + more, []))
    ensures NextToken(LexState("]" + more, [])) == Lexed(Ok(Token(TRBRACKET, "")), LexState(more, []))
  {
    BracketsOfExamples();
    NextSpacedPunctuation('[', "]" + more);
    NextPunctuation(']', more);
  }

  /** ` [4] u8` is an array of four u8. */
  lemma SizedArrayText(rest: string)
    requires IsBlank(rest)
    ensures TypeExpr(LexState(" [" + ("4" + ("]" + (" u8" + rest))), [])) == Parsed(Ok(ArrayType(PrimitiveType(U8), 4)), LexState(rest, []))
  {
    SizedArrayTokens(" u8" + rest);
    FinalU8Tokens(rest);
    LengthsOfExamples();
    TypeKeywordsOfExamples();
    PrimitiveText(" u8" + rest, Token(TU8, ""), rest);
    ArrayOfLengthText(" [" + ("4" + ("]" + (" u8" + rest))), "4" + ("]" + (" u8" + rest)), "4", "]" + (" u8" + rest), " u8" + rest, PrimitiveType(U8), rest);
  }

  /** `type A [4] u8` declares A as an array of four u8. */
  lemma SizedArrayDeclaration(rest: string)
    requires IsBlank(rest)
    ensures Document("type" + (" A" + (" [" + ("4" + ("]" + (" u8" + rest)))))) == Ok([UserDefinedType("A", ArrayType(PrimitiveType(U8), 4))])
  {
    var r2 := " [" + ("4" + ("]" + (" u8" + rest)));
    TypeHeadTokens('A', r2);
    SizedArrayText(rest);
    NamesOfTypeExamples();
    SoleUserType("type" + (" A" + r2), " A" + r2, "A", r2, ArrayType(PrimitiveType(U8), 4), rest);
  }

  /** `type A [] u8` declares A as a slice of u8: length 0. */
  lemma UnsizedArrayDeclaration(rest: string)
    requires IsBlank(rest)
    ensures Document("type" + (" A" + (" [" + ("]" + (" u8" + rest))))) == Ok([UserDefinedType("A", ArrayType(PrimitiveType(U8), 0))])
  {
    var r2 := " [" + ("]" + (" u8" + rest));
    TypeHeadTokens('A', r2);
    UnsizedArrayTokens(" u8" + rest);
    FinalU8Tokens(rest);
    NamesOfTypeExamples();
    TypeKeywordsOfExamples();
    PrimitiveText(" u8" + rest, Token(TU8, ""), rest);
    ArrayOfNoLengthText(r2, "]" + (" u8" + rest), " u8" + rest, PrimitiveType(U8), rest);
    SoleUserType("type" + (" A" + r2), " A" + r2, "A", r2, ArrayType(PrimitiveType(U8), 0), rest);
  }

  /** `type S {` followed by the fields' text: struct S has those fields. */
  lemma StructDeclaration(body: string, fs: seq<StructField>, rest: string)
    requires StructFields(LexState(body, []), []) == Parsed(Ok(fs), LexState(rest, []))
    requires IsBlank(rest)
    ensures Document("type" + (" S" + (" {" + body))) == Ok([UserDefinedType("S", StructType(fs))])
  {
    TypeHeadTokens('S', " {" + body);
    BracketsOfExamples();
    NextSpacedPunctuation('{', body);
    NamesOfTypeExamples();
    StructOfText(" {" + body, body, fs, rest);
    SoleUserType("type" + (" S" + (" {" + body)), " S" + (" {" + body), "S", " {" + body, StructType(fs), rest);
  }

  /** `type S { }` declares a struct with no fields. */
  lemma EmptyStructDeclaration(rest: string)
    requires IsBlank(rest)
    ensures Document("type" + (" S" + (" {" + (" }" + rest)))) == Ok([UserDefinedType("S", StructType([]))])
  {
    ClosingBrace(rest, []);
    StructDeclaration(" }" + rest, [], rest);
  }

  /** The tokens of a field ` c: w`, w a keyword. */
  lemma FieldTokens(c: char, w: string, sw: string, more: string)
    requires IsLetter(c) && IsWord(w) && sw == " " + w
    requires more == [] || !IsWordChar(more[0])
    ensures NextToken(LexState([' ', c] + (":" + (sw + more)), [])) == Lexed(Ok(Token(TNAME, [c])), LexState(":" + (sw + more), []))
    ensures NextToken(LexState(":" + (sw + more), [])) == Lexed(Ok(Token(TCOLON, "")), LexState(sw + more, []))
    ensures NextToken(LexState(sw + more, [])) == Lexed(Ok(ClassifyWord(w)), LexState(more, []))
  {
    BracketsOfExamples();
    NextSpacedLetter(c, ":" + (sw + more));
    NextPunctuation(':', sw + more);
    NextSpacedWord(w, sw, more);
  }

  /** A field ` c: w`, w a primitive keyword, appended to the fields so far. */
  lemma SpacedPrimitiveField(c: char, w: string, sw: string, more: string, acc: seq<StructField>)
    requires IsLetter(c) && MatchString(FieldNamePattern, [c])
    requires IsWord(w) && sw == " " + w && PrimitiveOfToken(ClassifyWord(w).kind).Some?
    requires more == [] || !IsWordChar(more[0])
    ensures StructFields(LexState([' ', c] + (":" + (sw + more)), []), acc)
         == StructFields(LexState(more, []), acc + [StructField([c], PrimitiveType(PrimitiveOfToken(ClassifyWord(w).kind).value))])
  {
    FieldTokens(c, w, sw, more);
    PrimitiveFieldText([' ', c] + (":" + (sw + more)), acc, [c], ":" + (sw + more), sw + more, ClassifyWord(w), more);
  }

  /** The field ` a: u8` comes first. */
  lemma FirstOfTwoFieldsText(rest: string)
    ensures StructFields(LexState(" a" + (":" + (" u8" + (" b" + (":" + (" bool" + (" }" + rest)))))), []), [])
         == StructFields(LexState(" b" + (":" + (" bool" + (" }" + rest))), []), [StructField("a", PrimitiveType(U8))])
  {
    TypeKeywordsOfExamples();
    NamesOfTypeExamples();
    SpacedPrimitiveField('a', "u8", " u8", " b" + (":" + (" bool" + (" }" + rest))), []);
    assert [] + [StructField("a", PrimitiveType(U8))] == [StructField("a", PrimitiveType(U8))];
  }

  /** The field ` b: bool` comes after a, and then the struct closes. */
  lemma SecondOfTwoFieldsText(rest: string)
    ensures StructFields(LexState(" b" + (":" + (" bool" + (" }" + rest))), []), [StructField("a", PrimitiveType(U8))])
         == Parsed(Ok([StructField("a", PrimitiveType(U8)), StructField("b", PrimitiveType(Bool))]), LexState(rest, []))
  {
    var fa := StructField("a", PrimitiveType(U8));
    var fb := StructField("b", PrimitiveType(Bool));
    TypeKeywordsOfExamples();
    NamesOfTypeExamples();
    SpacedPrimitiveField('b', "bool", " bool", " }" + rest, [fa]);
    assert [fa] + [fb] == [fa, fb];
    ClosingBrace(rest, [fa, fb]);
  }

  /** ` }` ends the fields. */
  lemma ClosingBrace(rest: string, acc: seq<StructField>)
    ensures StructFields(LexState(" }" + rest, []), acc) == Parsed(Ok(acc), LexState(rest, []))
  {
    BracketsOfExamples();
    NextSpacedPunctuation('}', rest);
    ReadOfNext(LexState(" }" + rest, []), Token(TRBRACE, ""), LexState(rest, []));
    StructFieldsAtClose(LexState(" }" + rest, []), acc, Token(TRBRACE, ""), LexState(rest, []));
  }

  /** `type S { a: u8 b: bool }` declares S with the fields a and b, in that order. */
  lemma TwoFieldStructDeclaration(rest: string)
    requires IsBlank(rest)
    ensures Document("type" + (" S" + (" {" + (" a" + (":" + (" u8" + (" b" + (":" + (" bool" + (" }" + rest))))))))))
         == Ok([UserDefinedType("S", StructType([StructField("a", PrimitiveType(U8)), StructField("b", PrimitiveType(Bool))]))])
  {
    FirstOfTwoFieldsText(rest);
    SecondOfTwoFieldsText(rest);
    StructDeclaration(" a" + (":" + (" u8" + (" b" + (":" + (" bool" + (" }" + rest)))))),
                      [StructField("a", PrimitiveType(U8)), StructField("b", PrimitiveType(Bool))], rest);
  }

}
