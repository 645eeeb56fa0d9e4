/** The scanner of the BARE schema language (bareish/schema/lex.go).

    The bufio reader becomes the unread rest of the input, a string; the scanner
    object keeps that rest and its FIFO pushback queue. `NextToken` is the pure
    specification of one call of `Scanner.Next`. */
module Lex {
  import opened Results

  // ---------------------------------------------------------------------------
  // Tokens

  datatype TokenKind =
    | TTYPE | TENUM
    | TNAME | TINTEGER
    | TUINT | TU8 | TU16 | TU32 | TU64
    | TINT | TI8 | TI16 | TI32 | TI64
    | TF32 | TF64 | TBOOL | TSTRING | TDATA | TVOID | TMAP | TOPTIONAL
    | TLANGLE | TRANGLE | TLBRACE | TRBRACE | TLBRACKET | TRBRACKET
    | TLPAREN | TRPAREN | TPIPE | TEQUAL | TCOLON

  /** A token and the text it carries (only names and integers carry text). */
  datatype Token = Token(kind: TokenKind, value: string) {

    /** The description used in error messages: the keyword or the punctuation
        character itself, "name" or "integer". */
    function String(): string {
      match kind
      case TTYPE => "type"
      case TENUM => "enum"
      case TNAME => "name"
      case TINTEGER => "integer"
      case TUINT => "uint"
      case TU8 => "u8"
      case TU16 => "u16"
      case TU32 => "u32"
      case TU64 => "u64"
      case TINT => "int"
      case TI8 => "i8"
      case TI16 => "i16"
      case TI32 => "i32"
      case TI64 => "i64"
      case TF32 => "f32"
      case TF64 => "f64"
      case TBOOL => "bool"
      case TSTRING => "string"
      case TDATA => "data"
      case TVOID => "void"
      case TMAP => "map"
      case TOPTIONAL => "optional"
      case TLANGLE => "<"
      case TRANGLE => ">"
      case TLBRACE => "{"
      case TRBRACE => "}"
      case TLBRACKET => "["
      case TRBRACKET => "]"
      case TLPAREN => "("
      case TRPAREN => ")"
      case TPIPE => "|"
      case TEQUAL => "="
      case TCOLON => ":"
    }
  }

  /** The twenty kinds that a reserved word scans to. */
  predicate IsKeyword(k: TokenKind) {
    k.TTYPE? || k.TENUM? || k.TUINT? || k.TU8? || k.TU16? || k.TU32? || k.TU64?
    || k.TINT? || k.TI8? || k.TI16? || k.TI32? || k.TI64? || k.TF32? || k.TF64?
    || k.TBOOL? || k.TSTRING? || k.TDATA? || k.TVOID? || k.TMAP? || k.TOPTIONAL?
  }

  /** The keyword table consulted by scanWord. */
  function KeywordKind(w: string): Option<TokenKind> {
    if w == "type" then Some(TTYPE)
    else if w == "enum" then Some(TENUM)
    else if w == "uint" then Some(TUINT)
    else if w == "u8" then Some(TU8)
    else if w == "u16" then Some(TU16)
    else if w == "u32" then Some(TU32)
    else if w == "u64" then Some(TU64)
    else if w == "int" then Some(TINT)
    else if w == "i8" then Some(TI8)
    else if w == "i16" then Some(TI16)
    else if w == "i32" then Some(TI32)
    else if w == "i64" then Some(TI64)
    else if w == "f32" then Some(TF32)
    else if w == "f64" then Some(TF64)
    else if w == "bool" then Some(TBOOL)
    else if w == "string" then Some(TSTRING)
    else if w == "data" then Some(TDATA)
    else if w == "void" then Some(TVOID)
    else if w == "optional" then Some(TOPTIONAL)
    else if w == "map" then Some(TMAP)
    else None
  }

  /** The token a scanned word becomes: its keyword with no text, or a name
      carrying the word. */
  function ClassifyWord(w: string): Token {
    match KeywordKind(w)
    case Some(k) => Token(k, "")
    case None => Token(TNAME, w)
  }

  /** The single-character punctuation tokens. */
  function Punctuation(c: char): Option<TokenKind> {
    match c
    case '<' => Some(TLANGLE)
    case '>' => Some(TRANGLE)
    case '{' => Some(TLBRACE)
    case '}' => Some(TRBRACE)
    case '[' => Some(TLBRACKET)
    case ']' => Some(TRBRACKET)
    case '(' => Some(TLPAREN)
    case ')' => Some(TRPAREN)
    case '|' => Some(TPIPE)
    case '=' => Some(TEQUAL)
    case ':' => Some(TCOLON)
    case _ => None
  }

  // ---------------------------------------------------------------------------
  // Character classes

  /** Go's unicode.IsSpace: the Unicode White_Space property. */
  predicate IsSpace(c: char) {
    var n := c as int;
    (9 <= n <= 13) || n == 32 || n == 0x85 || n == 0xA0 || n == 0x1680
    || (0x2000 <= n <= 0x200A) || n == 0x2028 || n == 0x2029 || n == 0x202F
    || n == 0x205F || n == 0x3000
  }

  /** unicode.IsLetter, restricted to ASCII. */
  predicate IsLetter(c: char) {
    ('A' <= c <= 'Z') || ('a' <= c <= 'z')
  }

  /** unicode.IsDigit, restricted to ASCII. */
  predicate IsDigit(c: char) {
    '0' <= c <= '9'
  }

  /** A character that continues a word. */
  predicate IsWordChar(c: char) {
    IsLetter(c) || IsDigit(c) || c == '_'
  }

  /** A word as scanWord reads it: a letter, then word characters. */
  predicate IsWord(w: string) {
    |w| > 0 && IsLetter(w[0]) && forall i :: 0 <= i < |w| ==> IsWordChar(w[i])
  }

  /** A non-empty run of decimal digits. */
  predicate IsDigits(d: string) {
    |d| > 0 && forall i :: 0 <= i < |d| ==> IsDigit(d[i])
  }

  // ---------------------------------------------------------------------------
  // The scanning functions

  /** The length of the longest prefix of word characters. */
  function WordLength(s: string): (n: nat)
    ensures n <= |s|
    ensures forall i :: 0 <= i < n ==> IsWordChar(s[i])
    ensures n < |s| ==> !IsWordChar(s[n])
  {
    if s != [] && IsWordChar(s[0]) then 1 + WordLength(s[1..]) else 0
  }

  /** Moving the first character of s to the end of buf keeps buf + s. */
  lemma MoveFirst(buf: string, s: string)
    requires s != []
    ensures (buf + [s[0]]) + s[1..] == buf + s
  {
    assert s == [s[0]] + s[1..];
  }

  /** The two parts of a concatenation, recovered by slicing. */
  lemma Unappend(front: string, back: string)
    ensures (front + back)[..|front|] == front && (front + back)[|front|..] == back
  {
  }

  /** The length of the longest prefix of digits. */
  function DigitLength(s: string): (n: nat)
    ensures n <= |s|
    ensures forall i :: 0 <= i < n ==> IsDigit(s[i])
    ensures n < |s| ==> !IsDigit(s[n])
  {
    if s != [] && IsDigit(s[0]) then 1 + DigitLength(s[1..]) else 0
  }

  /** What is left after ReadString('\n'): the text after the first newline,
      or nothing when there is none. */
  function AfterLine(s: string): (r: string)
    ensures |r| <= |s| && r == s[|s| - |r|..]
    ensures (forall i :: 0 <= i < |s| ==> s[i] != '\n') ==> r == []
  {
    if s == [] then []
    else if s[0] == '\n' then s[1..]
    else AfterLine(s[1..])
  }

  datatype LexError = EndOfInput | UnknownToken(c: char)

  /** One token read from fresh input, and the input left over. */
  function Scan(s: string): (r: (Result<Token, LexError>, string))
    ensures |r.1| <= |s| && r.1 == s[|s| - |r.1|..]
    ensures r.0.Ok? ==> |r.1| < |s|
    ensures r.0 == Err(EndOfInput) ==> r.1 == []
    decreases |s|
  {
    if s == [] then (Err(EndOfInput), [])
    else
      var c := s[0];
      if IsSpace(c) then Scan(s[1..])
      else if IsLetter(c) then
        var n := WordLength(s);
        (Ok(ClassifyWord(s[..n])), s[n..])
      else if IsDigit(c) then
        var n := DigitLength(s);
        (Ok(Token(TINTEGER, s[..n])), s[n..])
      else if c == '#' then Scan(AfterLine(s[1..]))
      else
        match Punctuation(c)
        case Some(k) => (Ok(Token(k, "")), s[1..])
        case None => (Err(UnknownToken(c)), s[1..])
  }

  /** The scanner's whole state: unread input and the pushback queue. */
  datatype LexState = LexState(rest: string, pushback: seq<Token>)

  /** The outcome of one `Next` and the state after it. */
  datatype Lexed = Lexed(result: Result<Token, LexError>, state: LexState)

  /** The measure that every successful read decreases. */
  function Size(st: LexState): nat {
    |st.rest| + |st.pushback|
  }

  /** Specification of Scanner.Next: the oldest pushed-back token if there is
      one, else a token scanned from the input. */
  function NextToken(st: LexState): (n: Lexed)
    ensures Size(n.state) <= Size(st)
    ensures n.result.Ok? ==> Size(n.state) < Size(st)
  {
    if |st.pushback| != 0 then
      Lexed(Ok(st.pushback[0]), LexState(st.rest, st.pushback[1..]))
    else
      var (r, rest) := Scan(st.rest);
      Lexed(r, LexState(rest, []))
  }

  /** Specification of Scanner.PushBack. */
  function Pushed(st: LexState, tok: Token): LexState {
    LexState(st.rest, st.pushback + [tok])
  }

  // ---------------------------------------------------------------------------
  // The scanner object

  class Scanner {
    var rest: string
    var pushback: seq<Token>

    constructor (input: string)
      ensures rest == input && pushback == []
    {
      rest := input;
      pushback := [];
    }

    function State(): LexState
      reads this
    {
      LexState(rest, pushback)
    }

    /** Returns the next token: from the pushback queue first, else from the
        input, skipping white space and comments. */
    method Next() returns (r: Result<Token, LexError>)
      modifies this
      ensures Lexed(r, State()) == NextToken(old(State()))
    {
      if |pushback| != 0 {
        r := Ok(pushback[0]);
        pushback := pushback[1..];
        return;
      }
      while rest != []
        invariant pushback == []
        invariant Scan(rest) == Scan(old(rest))
        decreases |rest|
      {
        // ReadRune followed by UnreadRune is a peek at rest[0]
        var c := rest[0];
        if IsSpace(c) {
          rest := rest[1..];
          continue;
        }
        if IsLetter(c) {
          r := ScanWord();
          return;
        }
        if IsDigit(c) {
          r := ScanInteger();
          return;
        }
        rest := rest[1..];
        if c == '#' {
          ReadLine();
          continue;
        }
        match Punctuation(c)
        case Some(k) =>
          r := Ok(Token(k, ""));
          return;
        case None =>
          r := Err(UnknownToken(c));
          return;
      }
      r := Err(EndOfInput);
    }

    /** Appends a token to the pushback queue. */
    method PushBack(tok: Token)
      modifies this
      ensures State() == Pushed(old(State()), tok)
    {
      pushback := pushback + [tok];
    }

    /** Reads the longest run of word characters and classifies it. */
    method ScanWord() returns (r: Result<Token, LexError>)
      modifies this
      ensures var n := WordLength(old(rest));
        r == Ok(ClassifyWord(old(rest)[..n])) && rest == old(rest)[n..]
      ensures pushback == old(pushback)
    {
      var buf, input := "", rest;
      while input != [] && IsWordChar(input[0])
        invariant buf + input == old(rest)
        invariant WordLength(old(rest)) == |buf| + WordLength(input)
        invariant rest == old(rest) && pushback == old(pushback)
        decreases |input|
      {
        MoveFirst(buf, input);
        buf := buf + [input[0]];
        input := input[1..];
      }
      Unappend(buf, input);
      rest := input;
      r := Ok(ClassifyWord(buf));
    }

    /** Reads the longest run of digits as an integer token. */
    method ScanInteger() returns (r: Result<Token, LexError>)
      modifies this
      ensures var n := DigitLength(old(rest));
        r == Ok(Token(TINTEGER, old(rest)[..n])) && rest == old(rest)[n..]
      ensures pushback == old(pushback)
    {
      var buf, input := "", rest;
      while input != [] && IsDigit(input[0])
        invariant buf + input == old(rest)
        invariant DigitLength(old(rest)) == |buf| + DigitLength(input)
        invariant rest == old(rest) && pushback == old(pushback)
        decreases |input|
      {
        MoveFirst(buf, input);
        buf := buf + [input[0]];
        input := input[1..];
      }
      Unappend(buf, input);
      rest := input;
      r := Ok(Token(TINTEGER, buf));
    }

    /** Consumes the input up to and including the next newline. */
    method ReadLine()
      modifies this
      ensures rest == AfterLine(old(rest)) && pushback == old(pushback)
    {
      while rest != [] && rest[0] != '\n'
        invariant AfterLine(rest) == AfterLine(old(rest))
        invariant pushback == old(pushback)
        decreases |rest|
      {
        rest := rest[1..];
      }
      if rest != [] {
        rest := rest[1..];
      }
    }
  }
}
