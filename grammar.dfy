/** The recursive-descent parser of bareish/schema/parser.go, as pure functions
    over the scanner state. Each function returns its result together with the
    scanner state it leaves behind; the methods of module Parser are proved to
    compute exactly these. */
module Grammar {
  import opened Results
  import opened Strconv
  import opened Ast
  import opened Lex

  // ---------------------------------------------------------------------------
  // Name patterns

  /** The character classes used by the four name patterns. */
  datatype CharClass = UpperLetters | LowerLetters | UpperDigitUnderscore | Alphanumerics

  predicate InClass(c: char, cls: CharClass) {
    match cls
    case UpperLetters => 'A' <= c <= 'Z'
    case LowerLetters => 'a' <= c <= 'z'
    case UpperDigitUnderscore => ('A' <= c <= 'Z') || ('0' <= c <= '9') || c == '_'
    case Alphanumerics => ('A' <= c <= 'Z') || ('a' <= c <= 'z') || ('0' <= c <= '9')
  }

  /** A pattern `[head][tail]*`. */
  datatype NamePattern = NamePattern(head: CharClass, tail: CharClass)

  const UserTypeNamePattern := NamePattern(UpperLetters, Alphanumerics)
  const UserEnumNamePattern := NamePattern(UpperLetters, Alphanumerics)
  const FieldNamePattern := NamePattern(LowerLetters, Alphanumerics)
  const EnumValuePattern := NamePattern(UpperLetters, UpperDigitUnderscore)

  /** s[i..j] is matched by the pattern. */
  ghost predicate MatchesSpan(p: NamePattern, s: string, i: int, j: int)
    requires 0 <= i < j <= |s|
  {
    InClass(s[i], p.head) && forall k :: i < k < j ==> InClass(s[k], p.tail)
  }

  /** Regexp.MatchString: the pattern matches some substring of s (the
      patterns are not anchored). */
  ghost predicate Matches(p: NamePattern, s: string) {
    exists i, j :: 0 <= i < j <= |s| && MatchesSpan(p, s, i, j)
  }

  /** Some character of s lies in the class. */
  function HasClass(s: string, cls: CharClass): (b: bool)
    ensures b <==> exists i :: 0 <= i < |s| && InClass(s[i], cls)
  {
    if s == [] then false
    else if InClass(s[0], cls) then true
    else
      var b := HasClass(s[1..], cls);
      assert forall i :: 1 <= i < |s| ==> s[i] == s[1..][i - 1];
      b
  }

  /** The match test the parser performs: since the tail may repeat zero
      times, a pattern matches exactly when some character is in its head
      class. */
  function MatchString(p: NamePattern, s: string): (b: bool)
    ensures b <==> Matches(p, s)
  {
    MatchesIffHeadOccurs(p, s);
    HasClass(s, p.head)
  }

  lemma MatchesIffHeadOccurs(p: NamePattern, s: string)
    ensures Matches(p, s) <==> exists i :: 0 <= i < |s| && InClass(s[i], p.head)
  {
    if i :| 0 <= i < |s| && InClass(s[i], p.head) {
      assert MatchesSpan(p, s, i, i + 1);
    }
  }

  // ---------------------------------------------------------------------------
  // Errors and results

  /** Which name check failed. */
  datatype NameRole = UserTypeName | UserEnumName | FieldName | EnumValueName

  datatype ParseError =
      /** An error from Scanner.Next; ScanError(EndOfInput) is io.EOF. */
    | ScanError(scan: LexError)
      /** ErrUnexpectedToken: the token read and a description of what was
          expected there. */
    | UnexpectedToken(token: Token, expected: string)
      /** A name that its pattern does not match. */
    | InvalidName(role: NameRole, name: string)

  /** The text of ErrUnexpectedToken.Error. */
  function UnexpectedTokenMessage(tok: Token, expected: string): string {
    "Unexpected token '" + tok.String() + "'; expected " + expected
  }

  /** A parse result together with the scanner state after it. */
  datatype Parsed<+T> = Parsed(result: Result<T, ParseError>, state: LexState) {

    predicate IsFailure() {
      result.Err?
    }

    function PropagateFailure<U>(): Parsed<U>
      requires result.Err?
    {
      Parsed(Err(result.error), state)
    }

    function Extract(): (T, LexState)
      requires result.Ok?
    {
      (result.value, state)
    }
  }

  /** One union member, with its explicit `= N` tag if it has one. */
  datatype RawAlternative = RawAlternative(subtype: Type, given: Option<uint64>)

  /** One enum value, with its explicit `= N` value if it has one. */
  datatype RawEntry = RawEntry(name: string, given: Option<uint64>)

  // ---------------------------------------------------------------------------
  // What the parser produces

  /** The shape of every type the parser returns: primitives built from UINT
      to Void only, lengths that fit in 32 bits, unions with at least one
      member, field names matching their pattern. */
  predicate WellFormed(t: Type) {
    match t
    case PrimitiveType(k) => IsPrimitiveKind(k)
    case OptionalType(s) => WellFormed(s)
    case DataType(n) => n <= MaxUint32
    case MapType(k, v) => WellFormed(k) && WellFormed(v)
    case ArrayType(m, n) => WellFormed(m) && n <= MaxUint32
    case UnionType(ts) => |ts| > 0 && forall i :: 0 <= i < |ts| ==> WellFormed(ts[i].subtype)
    case StructType(fs) => forall i :: 0 <= i < |fs| ==> FieldOk(fs[i])
    case NamedUserType(_) => true
  }

  predicate FieldOk(f: StructField) {
    MatchString(FieldNamePattern, f.name) && WellFormed(f.typ)
  }

  /** The shape of every declaration the parser returns. */
  predicate WellFormedDeclaration(d: SchemaType) {
    match d
    case UserDefinedType(name, t) => MatchString(UserTypeNamePattern, name) && WellFormed(t)
    case UserDefinedEnum(name, kind, values) => WellFormedEnum(name, kind, values)
  }

  predicate ValueNamesOk(entries: seq<RawEntry>) {
    forall i :: 0 <= i < |entries| ==> MatchString(EnumValuePattern, entries[i].name)
  }

  predicate SubtypesOk(alts: seq<RawAlternative>) {
    forall i :: 0 <= i < |alts| ==> WellFormed(alts[i].subtype)
  }

  predicate FieldsOk(fields: seq<StructField>) {
    forall i :: 0 <= i < |fields| ==> FieldOk(fields[i])
  }

  predicate DeclarationsOk(decls: seq<SchemaType>) {
    forall i :: 0 <= i < |decls| ==> WellFormedDeclaration(decls[i])
  }

  lemma ValueNamesAppend(entries: seq<RawEntry>, e: RawEntry)
    requires MatchString(EnumValuePattern, e.name)
    ensures ValueNamesOk(entries) ==> ValueNamesOk(entries + [e])
  {
  }

  lemma SubtypesAppend(alts: seq<RawAlternative>, a: RawAlternative)
    requires WellFormed(a.subtype)
    ensures SubtypesOk(alts) ==> SubtypesOk(alts + [a])
  {
  }

  lemma FieldsAppend(fields: seq<StructField>, f: StructField)
    requires FieldOk(f)
    ensures FieldsOk(fields) ==> FieldsOk(fields + [f])
  {
  }

  lemma DeclarationsAppend(decls: seq<SchemaType>, d: SchemaType)
    requires WellFormedDeclaration(d)
    ensures DeclarationsOk(decls) ==> DeclarationsOk(decls + [d])
  {
  }

  /** The kinds an enum may have. */
  predicate IsEnumKind(k: TypeKind) {
    k.UINT? || k.U8? || k.U16? || k.U32? || k.U64?
  }

  predicate WellFormedEnum(name: string, kind: TypeKind, values: seq<EnumValue>) {
    MatchString(UserEnumNamePattern, name)
    && (IsEnumKind(kind))
    && |values| > 0
    && forall i :: 0 <= i < |values| ==> MatchString(EnumValuePattern, values[i].name)
  }

  // ---------------------------------------------------------------------------
  // Numbering

  const Wrap64: nat := 0x1_0000_0000_0000_0000

  /** Go's `n++` on a uint (taken as 64 bits): MaxUint64 wraps around to 0. */
  function Inc64(n: uint64): (m: uint64)
    ensures m == if n == MaxUint64 then 0 else n + 1
  {
    ((n + 1) % Wrap64) as uint64
  }

  /** The tag of one union member and the running tag after it: an explicit
      tag replaces the running tag, and the running tag is incremented (with
      uint64 wrap-around) after every member. */
  function TagStep(a: RawAlternative, tag: uint64): (uint64, uint64) {
    var t := match a.given case Some(n) => n case None => tag;
    (t, Inc64(t))
  }

  function AssignTags(alts: seq<RawAlternative>, tag: uint64): (r: seq<UnionSubtype>)
    ensures |r| == |alts|
    ensures forall i :: 0 <= i < |alts| ==> r[i].subtype == alts[i].subtype
  {
    if alts == [] then []
    else
      var (t, next) := TagStep(alts[0], tag);
      [UnionSubtype(alts[0].subtype, t)] + AssignTags(alts[1..], next)
  }

  /** The running tag after a run of members. */
  function TagAfter(alts: seq<RawAlternative>, tag: uint64): uint64 {
    if alts == [] then tag else TagAfter(alts[1..], TagStep(alts[0], tag).1)
  }

  /** The value of one enum entry and the counter after it: an explicit value
      sets the counter without incrementing it; an implicit one takes the
      counter and increments it (Go's uint, taken as 64 bits). */
  function EnumStep(e: RawEntry, counter: uint64): (uint64, uint64) {
    match e.given
    case Some(n) => (n, n)
    case None => (counter, Inc64(counter))
  }

  function AssignValues(entries: seq<RawEntry>, counter: uint64): (r: seq<EnumValue>)
    ensures |r| == |entries|
    ensures forall i :: 0 <= i < |entries| ==> r[i].name == entries[i].name
  {
    if entries == [] then []
    else
      var (v, next) := EnumStep(entries[0], counter);
      [EnumValue(entries[0].name, v)] + AssignValues(entries[1..], next)
  }

  /** Numbering keeps the names, so well-named entries give a well-formed enum. */
  lemma NumberedEnumWellFormed(name: string, kind: TypeKind, entries: seq<RawEntry>)
    requires MatchString(UserEnumNamePattern, name) && IsEnumKind(kind)
    requires |entries| > 0 && ValueNamesOk(entries)
    ensures WellFormedEnum(name, kind, AssignValues(entries, 0))
  {
    var values := AssignValues(entries, 0);
    assert forall i :: 0 <= i < |values| ==> values[i].name == entries[i].name;
  }

  /** The counter after a run of entries. */
  function CounterAfter(entries: seq<RawEntry>, counter: uint64): uint64 {
    if entries == [] then counter
    else CounterAfter(entries[1..], EnumStep(entries[0], counter).1)
  }

  /** Numbering one more member extends the numbering of the others. */
  lemma {:induction false} AssignTagsAppend(alts: seq<RawAlternative>, a: RawAlternative, tag: uint64)
    ensures AssignTags(alts + [a], tag)
         == AssignTags(alts, tag) + [UnionSubtype(a.subtype, TagStep(a, TagAfter(alts, tag)).0)]
    ensures TagAfter(alts + [a], tag) == TagStep(a, TagAfter(alts, tag)).1
  {
    if alts == [] {
      assert alts + [a] == [a];
    } else {
      assert (alts + [a])[1..] == alts[1..] + [a];
      AssignTagsAppend(alts[1..], a, TagStep(alts[0], tag).1);
    }
  }

  lemma {:induction false} AssignValuesAppend(entries: seq<RawEntry>, e: RawEntry, counter: uint64)
    ensures AssignValues(entries + [e], counter)
         == AssignValues(entries, counter) + [EnumValue(e.name, EnumStep(e, CounterAfter(entries, counter)).0)]
    ensures CounterAfter(entries + [e], counter) == EnumStep(e, CounterAfter(entries, counter)).1
  {
    if entries == [] {
      assert entries + [e] == [e];
    } else {
      assert (entries + [e])[1..] == entries[1..] + [e];
      AssignValuesAppend(entries[1..], e, EnumStep(entries[0], counter).1);
    }
  }

  // ---------------------------------------------------------------------------
  // Reading tokens

  /** Scanner.Next, with a scanner error lifted to a parse error. */
  function Read(st: LexState): (p: Parsed<Token>)
    ensures Size(p.state) <= Size(st)
    ensures p.result.Ok? ==> Size(p.state) < Size(st)
  {
    var Lexed(r, st1) := NextToken(st);
    match r
    case Err(e) => Parsed(Err(ScanError(e)), st1)
    case Ok(tok) => Parsed(Ok(tok), st1)
  }

  /** Reads a token that must be of the given kind. */
  function Expect(st: LexState, kind: TokenKind, expected: string): (p: Parsed<Token>)
    ensures Size(p.state) <= Size(st)
    ensures p.result.Ok? ==> Size(p.state) < Size(st) && p.result.value.kind == kind
  {
    var Lexed(r, st1) := NextToken(st);
    match r
    case Err(e) => Parsed(Err(ScanError(e)), st1)
    case Ok(tok) =>
      if tok.kind == kind then Parsed(Ok(tok), st1)
      else Parsed(Err(UnexpectedToken(tok, expected)), st1)
  }

  /** An optional `= N` after an enum value or a union member; the integer
      is read with ParseUint at the given maximum, its error ignored. A token
      other than `=` is pushed back. */
  function OptionalLabel(st: LexState, max: nat): (p: Parsed<Option<uint64>>)
    requires max <= MaxUint64
    ensures Size(p.state) <= Size(st)
    ensures p.result.Ok? && p.result.value.Some? ==> p.result.value.value <= max
  {
    var tok :- Read(st);
    if tok.0.kind == TEQUAL then
      var n :- Expect(tok.1, TINTEGER, "integer");
      Parsed(Ok(Some(ParseUint(n.0.value, max) as uint64)), n.1)
    else
      Parsed(Ok(None), Pushed(tok.1, tok.0))
  }

  // ---------------------------------------------------------------------------
  // Declarations

  /** parseSchemaType: a declaration starts with `type` or `enum`, which is
      pushed back for the declaration's own parser to read. */
  function Declaration(st: LexState): (p: Parsed<SchemaType>)
    ensures Size(p.state) <= Size(st)
    ensures p.result.Ok? ==> Size(p.state) < Size(st) && WellFormedDeclaration(p.result.value)
  {
    var tok :- Read(st);
    if tok.0.kind == TTYPE then UserTypeDecl(Pushed(tok.1, tok.0))
    else if tok.0.kind == TENUM then UserEnumDecl(Pushed(tok.1, tok.0))
    else Parsed(Err(UnexpectedToken(tok.0, "'type' or 'enum'")), tok.1)
  }

  /** parseUserType: `type Name T`. The name is checked only after the whole
      type has been parsed. */
  function UserTypeDecl(st: LexState): (p: Parsed<SchemaType>)
    ensures Size(p.state) <= Size(st)
    ensures p.result.Ok? ==>
      Size(p.state) < Size(st) && p.result.value.UserDefinedType? && WellFormedDeclaration(p.result.value)
  {
    var kw :- Expect(st, TTYPE, "type");
    var name :- Expect(kw.1, TNAME, "type name");
    var t :- TypeExpr(name.1);
    if !MatchString(UserTypeNamePattern, name.0.value) then
      Parsed(Err(InvalidName(UserTypeName, name.0.value)), t.1)
    else
      Parsed(Ok(UserDefinedType(name.0.value, t.0)), t.1)
  }

  /** The enum kind after the name: u8, u16, u32 and u64 select a width; any
      other token is pushed back and the kind is UINT. */
  function EnumKind(st: LexState): (p: Parsed<TypeKind>)
    ensures Size(p.state) <= Size(st)
    ensures p.result.Ok? ==> IsEnumKind(p.result.value)
  {
    var tok :- Read(st);
    match tok.0.kind
    case TU8 => Parsed(Ok(U8), tok.1)
    case TU16 => Parsed(Ok(U16), tok.1)
    case TU32 => Parsed(Ok(U32), tok.1)
    case TU64 => Parsed(Ok(U64), tok.1)
    case _ => Parsed(Ok(UINT), Pushed(tok.1, tok.0))
  }

  /** parseUserEnum: `enum Name [kind] { VALUE [= N] ... }`. Value names are
      checked as they are read, the enum name only after the closing brace. */
  function UserEnumDecl(st: LexState): (p: Parsed<SchemaType>)
    ensures Size(p.state) <= Size(st)
    ensures p.result.Ok? ==>
      Size(p.state) < Size(st) && p.result.value.UserDefinedEnum? && WellFormedDeclaration(p.result.value)
  {
    var kw :- Expect(st, TENUM, "enum");
    var name :- Expect(kw.1, TNAME, "enum name");
    var kind :- EnumKind(name.1);
    var lbrace :- Expect(kind.1, TLBRACE, "{");
    EnumBody(name.0.value, kind.0, lbrace.1)
  }

  /** The values of an enum after its `{`, numbered by AssignValues, then the
      check of the enum's name. */
  function EnumBody(name: string, kind: TypeKind, st: LexState): (p: Parsed<SchemaType>)
    requires IsEnumKind(kind)
    ensures Size(p.state) <= Size(st)
    ensures p.result.Ok? ==>
      Size(p.state) < Size(st) && p.result.value.UserDefinedEnum? && WellFormedDeclaration(p.result.value)
  {
    var entries :- EnumEntries(st, []);
    if !MatchString(UserEnumNamePattern, name) then
      Parsed(Err(InvalidName(UserEnumName, name)), entries.1)
    else
      var values := AssignValues(entries.0, 0);
      NumberedEnumWellFormed(name, kind, entries.0);
      Parsed(Ok(UserDefinedEnum(name, kind, values)), entries.1)
  }

  /** The loop of parseUserEnum: entries until `}`, appended to acc. */
  function EnumEntries(st: LexState, acc: seq<RawEntry>): (p: Parsed<seq<RawEntry>>)
    ensures Size(p.state) <= Size(st)
    ensures p.result.Ok? ==>
      Size(p.state) < Size(st) && |p.result.value| > |acc|
    ensures p.result.Ok? && ValueNamesOk(acc) ==> ValueNamesOk(p.result.value)
    decreases Size(st)
  {
    var entry :- EnumEntry(st);
    var acc' := acc + [entry.0];
    ValueNamesAppend(acc, entry.0);
    var tok :- Read(entry.1);
    if tok.0.kind == TRBRACE then Parsed(Ok(acc'), tok.1)
    else if tok.0.kind == TNAME then EnumEntries(Pushed(tok.1, tok.0), acc')
    else Parsed(Err(UnexpectedToken(tok.0, "value name")), tok.1)
  }

  /** One enum value: its name, checked at once, and an optional `= N`. */
  function EnumEntry(st: LexState): (p: Parsed<RawEntry>)
    ensures Size(p.state) <= Size(st)
    ensures p.result.Ok? ==> Size(p.state) < Size(st) && MatchString(EnumValuePattern, p.result.value.name)
    ensures p.result.Ok? && p.result.value.given.Some? ==> p.result.value.given.value <= MaxUint32
  {
    var name :- Expect(st, TNAME, "value name");
    if !MatchString(EnumValuePattern, name.0.value) then
      Parsed(Err(InvalidName(EnumValueName, name.0.value)), name.1)
    else
      var given :- OptionalLabel(name.1, MaxUint32);
      Parsed(Ok(RawEntry(name.0.value, given.0)), given.1)
  }

  // ---------------------------------------------------------------------------
  // Types

  /** The primitive type a keyword token names. */
  function PrimitiveOfToken(k: TokenKind): (r: Option<TypeKind>)
    ensures r.Some? ==> IsPrimitiveKind(r.value)
  {
    match k
    case TUINT => Some(UINT)
    case TU8 => Some(U8)
    case TU16 => Some(U16)
    case TU32 => Some(U32)
    case TU64 => Some(U64)
    case TINT => Some(INT)
    case TI8 => Some(I8)
    case TI16 => Some(I16)
    case TI32 => Some(I32)
    case TI64 => Some(I64)
    case TF32 => Some(F32)
    case TF64 => Some(F64)
    case TBOOL => Some(Bool)
    case TSTRING => Some(String)
    case TVOID => Some(Void)
    case _ => None
  }

  /** parseType: a primitive or a name is complete in one token; the
      composite types push their first token back for their own parser. */
  function TypeExpr(st: LexState): (p: Parsed<Type>)
    ensures Size(p.state) <= Size(st)
    ensures p.result.Ok? ==> Size(p.state) < Size(st) && WellFormed(p.result.value)
    decreases Size(st), 1
  {
    var tok :- Read(st);
    var (t, st1) := tok;
    match PrimitiveOfToken(t.kind)
    case Some(k) => Parsed(Ok(PrimitiveType(k)), st1)
    case None =>
      match t.kind
      case TOPTIONAL => OptionalExpr(Pushed(st1, t))
      case TDATA => DataExpr(Pushed(st1, t))
      case TMAP => MapExpr(Pushed(st1, t))
      case TLBRACKET => ArrayExpr(Pushed(st1, t))
      case TLPAREN => UnionExpr(Pushed(st1, t))
      case TLBRACE => StructExpr(Pushed(st1, t))
      case TNAME => Parsed(Ok(NamedUserType(t.value)), st1)
      case _ => Parsed(Err(UnexpectedToken(t, "type")), st1)
  }

  /** parseOptionalType: `optional<T>`. */
  function OptionalExpr(st: LexState): (p: Parsed<Type>)
    ensures Size(p.state) <= Size(st)
    ensures p.result.Ok? ==> Size(p.state) < Size(st) && WellFormed(p.result.value)
    decreases Size(st), 0
  {
    var kw :- Expect(st, TOPTIONAL, "optional");
    var open :- Expect(kw.1, TLANGLE, "<");
    var sub :- TypeExpr(open.1);
    var close :- Expect(sub.1, TRANGLE, ">");
    Parsed(Ok(OptionalType(sub.0)), close.1)
  }

  /** parseDataType: `data` or `data<N>`. Without `<` the token read is
      pushed back and the length is 0. */
  function DataExpr(st: LexState): (p: Parsed<Type>)
    ensures Size(p.state) <= Size(st)
    ensures p.result.Ok? ==> Size(p.state) < Size(st) && WellFormed(p.result.value)
  {
    var kw :- Expect(st, TDATA, "data");
    var tok :- Read(kw.1);
    if tok.0.kind != TLANGLE then
      Parsed(Ok(DataType(0)), Pushed(tok.1, tok.0))
    else
      var n :- Expect(tok.1, TINTEGER, "integer");
      var len := ParseUint(n.0.value, MaxUint32);
      var close :- Expect(n.1, TRANGLE, ">");
      Parsed(Ok(DataType(len)), close.1)
  }

  /** parseMapType: `map[K]V`. */
  function MapExpr(st: LexState): (p: Parsed<Type>)
    ensures Size(p.state) <= Size(st)
    ensures p.result.Ok? ==> Size(p.state) < Size(st) && WellFormed(p.result.value)
    decreases Size(st), 0
  {
    var kw :- Expect(st, TMAP, "map");
    var open :- Expect(kw.1, TLBRACKET, "[");
    var key :- TypeExpr(open.1);
    var close :- Expect(key.1, TRBRACKET, "]");
    var value :- TypeExpr(close.1);
    Parsed(Ok(MapType(key.0, value.0)), value.1)
  }

  /** parseArrayType: `[]T` or `[N]T`. */
  function ArrayExpr(st: LexState): (p: Parsed<Type>)
    ensures Size(p.state) <= Size(st)
    ensures p.result.Ok? ==> Size(p.state) < Size(st) && WellFormed(p.result.value)
    decreases Size(st), 0
  {
    var open :- Expect(st, TLBRACKET, "[");
    var tok :- Read(open.1);
    if tok.0.kind == TINTEGER then
      var len := ParseUint(tok.0.value, MaxUint32);
      var close :- Expect(tok.1, TRBRACKET, "]");
      var member :- TypeExpr(close.1);
      Parsed(Ok(ArrayType(member.0, len)), member.1)
    else if tok.0.kind == TRBRACKET then
      var member :- TypeExpr(tok.1);
      Parsed(Ok(ArrayType(member.0, 0)), member.1)
    else
      Parsed(Err(UnexpectedToken(tok.0, "]")), tok.1)
  }

  /** parseUnionType: `(T [= N] | ...)`, tags numbered by AssignTags. */
  function UnionExpr(st: LexState): (p: Parsed<Type>)
    ensures Size(p.state) <= Size(st)
    ensures p.result.Ok? ==> Size(p.state) < Size(st) && WellFormed(p.result.value)
    decreases Size(st), 0
  {
    var open :- Expect(st, TLPAREN, "(");
    var alts :- UnionAlternatives(open.1, []);
    Parsed(Ok(UnionType(AssignTags(alts.0, 0))), alts.1)
  }

  /** The loop of parseUnionType: members until `)`, appended to acc. */
  function UnionAlternatives(st: LexState, acc: seq<RawAlternative>): (p: Parsed<seq<RawAlternative>>)
    ensures Size(p.state) <= Size(st)
    ensures p.result.Ok? ==>
      Size(p.state) < Size(st) && |p.result.value| > |acc|
    ensures p.result.Ok? && SubtypesOk(acc) ==> SubtypesOk(p.result.value)
    decreases Size(st), 3
  {
    var member :- UnionMember(st);
    var acc' := acc + [member.0];
    SubtypesAppend(acc, member.0);
    var tok :- Read(member.1);
    if tok.0.kind == TPIPE then UnionAlternatives(tok.1, acc')
    else if tok.0.kind == TRPAREN then Parsed(Ok(acc'), tok.1)
    else Parsed(Err(UnexpectedToken(tok.0, "'|' or ')'")), tok.1)
  }

  /** One union member: a type and an optional `= N`. */
  function UnionMember(st: LexState): (p: Parsed<RawAlternative>)
    ensures Size(p.state) <= Size(st)
    ensures p.result.Ok? ==> Size(p.state) < Size(st) && WellFormed(p.result.value.subtype)
    decreases Size(st), 2
  {
    var member :- TypeExpr(st);
    var given :- OptionalLabel(member.1, MaxUint64);
    Parsed(Ok(RawAlternative(member.0, given.0)), given.1)
  }

  /** parseStructType: `{ name: T ... }`. The expected text reported for a
      missing `{` is "[", as in the source. */
  function StructExpr(st: LexState): (p: Parsed<Type>)
    ensures Size(p.state) <= Size(st)
    ensures p.result.Ok? ==> Size(p.state) < Size(st) && WellFormed(p.result.value)
    decreases Size(st), 0
  {
    var open :- Expect(st, TLBRACE, "[");
    var fields :- StructFields(open.1, []);
    Parsed(Ok(StructType(fields.0)), fields.1)
  }

  /** The loop of parseStructType: fields until `}`, appended to acc. */
  function StructFields(st: LexState, acc: seq<StructField>): (p: Parsed<seq<StructField>>)
    ensures Size(p.state) <= Size(st)
    ensures p.result.Ok? ==>
      Size(p.state) < Size(st)
    ensures p.result.Ok? && FieldsOk(acc) ==> FieldsOk(p.result.value)
    decreases Size(st), 2
  {
    var tok :- Read(st);
    if tok.0.kind == TRBRACE then Parsed(Ok(acc), tok.1)
    else if tok.0.kind != TNAME then Parsed(Err(UnexpectedToken(tok.0, "field name")), tok.1)
    else if !MatchString(FieldNamePattern, tok.0.value) then
      Parsed(Err(InvalidName(FieldName, tok.0.value)), tok.1)
    else
      var colon :- Expect(tok.1, TCOLON, ":");
      var t :- TypeExpr(colon.1);
      var acc' := acc + [StructField(tok.0.value, t.0)];
      FieldsAppend(acc, StructField(tok.0.value, t.0));
      var p := StructFields(t.1, acc');
      p
  }

  // ---------------------------------------------------------------------------
  // Documents

  /** The loop of Parse: declarations appended to acc until a declaration
      fails; io.EOF, wherever it arises, ends the document successfully and
      the declaration it interrupted is dropped. */
  function Declarations(st: LexState, acc: seq<SchemaType>): (r: Result<seq<SchemaType>, ParseError>)
    ensures r != Err(ScanError(EndOfInput))
    ensures r.Ok? && DeclarationsOk(acc) ==> DeclarationsOk(r.value)
    decreases Size(st)
  {
    var p := Declaration(st);
    match p.result
    case Err(e) => if e == ScanError(EndOfInput) then Ok(acc) else Err(e)
    case Ok(d) =>
      var acc' := acc + [d];
      DeclarationsAppend(acc, d);
      var r := Declarations(p.state, acc');
      r
  }

  /** Parse: the declarations of a whole document, in order. */
  function Document(text: string): (r: Result<seq<SchemaType>, ParseError>)
    ensures r != Err(ScanError(EndOfInput))
    ensures r.Ok? ==> forall i :: 0 <= i < |r.value| ==> WellFormedDeclaration(r.value[i])
  {
    Declarations(LexState(text, []), [])
  }
}
