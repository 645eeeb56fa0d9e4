/** The parser of bareish/schema/parser.go as it is written: methods that
    pull tokens from a shared Scanner object, push tokens back, and run the
    union, enum and struct loops with their running counters. Each method is
    proved to return what its Grammar function returns and to leave the
    scanner in the state that function describes. */
module Parser {
  import opened Results
  import opened Strconv
  import opened Ast
  import opened Lex
  import opened Grammar

  /** Scanner.Next with its error lifted to a parse error. */
  method ReadToken(sc: Scanner) returns (r: Result<Token, ParseError>)
    modifies sc
    ensures Parsed(r, sc.State()) == Read(old(sc.State()))
  {
    var tok := sc.Next();
    if tok.Err? {
      return Err(ScanError(tok.error));
    }
    r := Ok(tok.value);
  }

  /** Reads a token and fails with ErrUnexpectedToken unless it has the kind. */
  method ExpectToken(sc: Scanner, kind: TokenKind, expected: string) returns (r: Result<Token, ParseError>)
    modifies sc
    ensures Parsed(r, sc.State()) == Expect(old(sc.State()), kind, expected)
  {
    var tok := sc.Next();
    if tok.Err? {
      return Err(ScanError(tok.error));
    }
    if tok.value.kind != kind {
      return Err(UnexpectedToken(tok.value, expected));
    }
    r := Ok(tok.value);
  }

  /** The optional `= N` after an enum value or a union member. */
  method ParseLabel(sc: Scanner, max: nat) returns (r: Result<Option<uint64>, ParseError>)
    requires max <= MaxUint64
    modifies sc
    ensures Parsed(r, sc.State()) == OptionalLabel(old(sc.State()), max)
  {
    var tok := ReadToken(sc);
    if tok.Err? {
      return Err(tok.error);
    }
    if tok.value.kind == TEQUAL {
      tok := ExpectToken(sc, TINTEGER, "integer");
      if tok.Err? {
        return Err(tok.error);
      }
      return Ok(Some(ParseUint(tok.value.value, max) as uint64));
    }
    sc.PushBack(tok.value);
    r := Ok(None);
  }

  /** Parse: declarations until io.EOF, which ends the document successfully. */
  method Parse(input: string) returns (r: Result<seq<SchemaType>, ParseError>)
    ensures r == Document(input)
  {
    var sc := new Scanner(input);
    var stypes: seq<SchemaType> := [];
    while true
      invariant Declarations(sc.State(), stypes) == Document(input)
      decreases Size(sc.State())
    {
      ghost var before := sc.State();
      var st := ParseSchemaType(sc);
      if st.Err? {
        if st.error == ScanError(EndOfInput) {
          break;
        }
        return Err(st.error);
      }
      assert Size(sc.State()) < Size(before);
      stypes := stypes + [st.value];
    }
    r := Ok(stypes);
  }

  method ParseSchemaType(sc: Scanner) returns (r: Result<SchemaType, ParseError>)
    modifies sc
    ensures Parsed(r, sc.State()) == Declaration(old(sc.State()))
  {
    var tok := ReadToken(sc);
    if tok.Err? {
      return Err(tok.error);
    }
    match tok.value.kind
    case TTYPE =>
      sc.PushBack(tok.value);
      r := ParseUserType(sc);
    case TENUM =>
      sc.PushBack(tok.value);
      r := ParseUserEnum(sc);
    case _ =>
      r := Err(UnexpectedToken(tok.value, "'type' or 'enum'"));
  }

  method ParseUserType(sc: Scanner) returns (r: Result<SchemaType, ParseError>)
    modifies sc
    ensures Parsed(r, sc.State()) == UserTypeDecl(old(sc.State()))
  {
    var tok := ExpectToken(sc, TTYPE, "type");
    if tok.Err? {
      return Err(tok.error);
    }
    tok := ExpectToken(sc, TNAME, "type name");
    if tok.Err? {
      return Err(tok.error);
    }
    var name := tok.value.value;
    var t := ParseType(sc);
    if t.Err? {
      return Err(t.error);
    }
    if !MatchString(UserTypeNamePattern, name) {
      return Err(InvalidName(UserTypeName, name));
    }
    r := Ok(UserDefinedType(name, t.value));
  }

  method ParseUserEnum(sc: Scanner) returns (r: Result<SchemaType, ParseError>)
    modifies sc
    ensures Parsed(r, sc.State()) == UserEnumDecl(old(sc.State()))
  {
    var tok := ExpectToken(sc, TENUM, "enum");
    if tok.Err? {
      return Err(tok.error);
    }
    tok := ExpectToken(sc, TNAME, "enum name");
    if tok.Err? {
      return Err(tok.error);
    }
    var name := tok.value.value;
    var kind := ParseEnumKind(sc);
    if kind.Err? {
      return Err(kind.error);
    }
    tok := ExpectToken(sc, TLBRACE, "{");
    if tok.Err? {
      return Err(tok.error);
    }
    r := ParseEnumBody(sc, name, kind.value);
  }

  /** The kind after an enum's name: u8, u16, u32 or u64, or else UINT with
      the token read pushed back. */
  method ParseEnumKind(sc: Scanner) returns (r: Result<TypeKind, ParseError>)
    modifies sc
    ensures Parsed(r, sc.State()) == EnumKind(old(sc.State()))
  {
    var tok := ReadToken(sc);
    if tok.Err? {
      return Err(tok.error);
    }
    match tok.value.kind {
      case TU8 => r := Ok(U8);
      case TU16 => r := Ok(U16);
      case TU32 => r := Ok(U32);
      case TU64 => r := Ok(U64);
      case _ =>
        r := Ok(UINT);
        sc.PushBack(tok.value);
    }
  }

  /** The value loop of parseUserEnum, then the check of the enum's name. */
  method ParseEnumBody(sc: Scanner, name: string, kind: TypeKind) returns (r: Result<SchemaType, ParseError>)
    requires IsEnumKind(kind)
    modifies sc
    ensures Parsed(r, sc.State()) == EnumBody(name, kind, old(sc.State()))
  {
    ghost var final := EnumEntries(sc.State(), []);
    ghost var entries: seq<RawEntry> := [];
    var value: uint64 := 0;
    var evs: seq<EnumValue> := [];
    while true
      invariant EnumEntries(sc.State(), entries) == final
      invariant evs == AssignValues(entries, 0) && value == CounterAfter(entries, 0)
      decreases Size(sc.State())
    {
      ghost var head := sc.State();
      var e := ParseEnumValue(sc);
      if e.Err? {
        return Err(e.error);
      }
      evs, value := AppendValue(evs, value, entries, e.value);
      entries := entries + [e.value];

      var tok := ReadToken(sc);
      if tok.Err? {
        return Err(tok.error);
      }
      if tok.value.kind == TRBRACE {
        break;
      } else if tok.value.kind == TNAME {
        sc.PushBack(tok.value);
      } else {
        return Err(UnexpectedToken(tok.value, "value name"));
      }
    }

    if !MatchString(UserEnumNamePattern, name) {
      return Err(InvalidName(UserEnumName, name));
    }
    r := Ok(UserDefinedEnum(name, kind, evs));
  }

  method ParseType(sc: Scanner) returns (r: Result<Type, ParseError>)
    modifies sc
    ensures Parsed(r, sc.State()) == TypeExpr(old(sc.State()))
    decreases Size(sc.State()), 1
  {
    var tok := ReadToken(sc);
    if tok.Err? {
      return Err(tok.error);
    }
    var t := tok.value;
    match PrimitiveOfToken(t.kind)
    case Some(k) =>
      r := Ok(PrimitiveType(k));
    case None =>
      match t.kind
      case TOPTIONAL =>
        sc.PushBack(t);
        r := ParseOptionalType(sc);
      case TDATA =>
        sc.PushBack(t);
        r := ParseDataType(sc);
      case TMAP =>
        sc.PushBack(t);
        r := ParseMapType(sc);
      case TLBRACKET =>
        sc.PushBack(t);
        r := ParseArrayType(sc);
      case TLPAREN =>
        sc.PushBack(t);
        r := ParseUnionType(sc);
      case TLBRACE =>
        sc.PushBack(t);
        r := ParseStructType(sc);
      case TNAME =>
        r := Ok(NamedUserType(t.value));
      case _ =>
        r := Err(UnexpectedToken(t, "type"));
  }

  method ParseOptionalType(sc: Scanner) returns (r: Result<Type, ParseError>)
    modifies sc
    ensures Parsed(r, sc.State()) == OptionalExpr(old(sc.State()))
    decreases Size(sc.State()), 0
  {
    var tok := ExpectToken(sc, TOPTIONAL, "optional");
    if tok.Err? {
      return Err(tok.error);
    }
    tok := ExpectToken(sc, TLANGLE, "<");
    if tok.Err? {
      return Err(tok.error);
    }
    var st := ParseType(sc);
    if st.Err? {
      return Err(st.error);
    }
    tok := ExpectToken(sc, TRANGLE, ">");
    if tok.Err? {
      return Err(tok.error);
    }
    r := Ok(OptionalType(st.value));
  }

  method ParseDataType(sc: Scanner) returns (r: Result<Type, ParseError>)
    modifies sc
    ensures Parsed(r, sc.State()) == DataExpr(old(sc.State()))
  {
    ghost var st0 := sc.State();
    var tok := ExpectToken(sc, TDATA, "data");
    if tok.Err? {
      return Err(tok.error);
    }
    ghost var st1 := sc.State();
    tok := ReadToken(sc);
    if tok.Err? {
      return Err(tok.error);
    }
    assert Read(st1) == Parsed(Ok(tok.value), sc.State());
    if tok.value.kind != TLANGLE {
      sc.PushBack(tok.value);
      return Ok(DataType(0));
    }
    ghost var st2 := sc.State();
    tok := ExpectToken(sc, TINTEGER, "integer");
    if tok.Err? {
      return Err(tok.error);
    }
    assert Expect(st2, TINTEGER, "integer") == Parsed(Ok(tok.value), sc.State());
    var length := ParseUint(tok.value.value, MaxUint32);
    tok := ExpectToken(sc, TRANGLE, ">");
    if tok.Err? {
      return Err(tok.error);
    }
    r := Ok(DataType(length));
  }

  method ParseMapType(sc: Scanner) returns (r: Result<Type, ParseError>)
    modifies sc
    ensures Parsed(r, sc.State()) == MapExpr(old(sc.State()))
    decreases Size(sc.State()), 0
  {
    var tok := ExpectToken(sc, TMAP, "map");
    if tok.Err? {
      return Err(tok.error);
    }
    tok := ExpectToken(sc, TLBRACKET, "[");
    if tok.Err? {
      return Err(tok.error);
    }
    var key := ParseType(sc);
    if key.Err? {
      return Err(key.error);
    }
    tok := ExpectToken(sc, TRBRACKET, "]");
    if tok.Err? {
      return Err(tok.error);
    }
    var value := ParseType(sc);
    if value.Err? {
      return Err(value.error);
    }
    r := Ok(MapType(key.value, value.value));
  }

  method ParseArrayType(sc: Scanner) returns (r: Result<Type, ParseError>)
    modifies sc
    ensures Parsed(r, sc.State()) == ArrayExpr(old(sc.State()))
    decreases Size(sc.State()), 0
  {
    var tok := ExpectToken(sc, TLBRACKET, "[");
    if tok.Err? {
      return Err(tok.error);
    }
    tok := ReadToken(sc);
    if tok.Err? {
      return Err(tok.error);
    }
    var length: uint64 := 0;
    match tok.value.kind {
      case TINTEGER =>
        length := ParseUint(tok.value.value, MaxUint32);
        var close := ExpectToken(sc, TRBRACKET, "]");
        if close.Err? {
          return Err(close.error);
        }
      case TRBRACKET =>
      case _ =>
        return Err(UnexpectedToken(tok.value, "]"));
    }
    var member := ParseType(sc);
    if member.Err? {
      return Err(member.error);
    }
    r := Ok(ArrayType(member.value, length));
  }

  /** Numbers one union member: an explicit tag replaces the running tag,
      the member is appended with it, and the running tag is incremented. */
  method AppendMember(types: seq<UnionSubtype>, tag: uint64, ghost alts: seq<RawAlternative>, a: RawAlternative)
    returns (types': seq<UnionSubtype>, tag': uint64)
    requires types == AssignTags(alts, 0) && tag == TagAfter(alts, 0)
    ensures types' == AssignTags(alts + [a], 0) && tag' == TagAfter(alts + [a], 0)
  {
    AssignTagsAppend(alts, a, 0);
    tag' := tag;
    if a.given.Some? {
      tag' := a.given.value;
    }
    types' := types + [UnionSubtype(a.subtype, tag')];
    tag' := Inc64(tag');
  }

  /** Numbers one enum value: an explicit value sets the counter, an implicit
      one takes the counter, which is then incremented. */
  method AppendValue(evs: seq<EnumValue>, value: uint64, ghost entries: seq<RawEntry>, e: RawEntry)
    returns (evs': seq<EnumValue>, value': uint64)
    requires evs == AssignValues(entries, 0) && value == CounterAfter(entries, 0)
    ensures evs' == AssignValues(entries + [e], 0) && value' == CounterAfter(entries + [e], 0)
  {
    AssignValuesAppend(entries, e, 0);
    var v: uint64;
    match e.given {
      case Some(n) =>
        value' := n;
        v := value';
      case None =>
        v := value;
        value' := Inc64(value);
    }
    evs' := evs + [EnumValue(e.name, v)];
  }

  /** One enum value: a name checked against its pattern, then `= N` or not. */
  method ParseEnumValue(sc: Scanner) returns (r: Result<RawEntry, ParseError>)
    modifies sc
    ensures Parsed(r, sc.State()) == EnumEntry(old(sc.State()))
  {
    var tok := ExpectToken(sc, TNAME, "value name");
    if tok.Err? {
      return Err(tok.error);
    }
    var name := tok.value.value;
    if !MatchString(EnumValuePattern, name) {
      return Err(InvalidName(EnumValueName, name));
    }
    var given := ParseLabel(sc, MaxUint32);
    if given.Err? {
      return Err(given.error);
    }
    r := Ok(RawEntry(name, given.value));
  }

  /** One union member: a type, then `= N` or not. */
  method ParseUnionMember(sc: Scanner) returns (r: Result<RawAlternative, ParseError>)
    modifies sc
    ensures Parsed(r, sc.State()) == UnionMember(old(sc.State()))
    decreases Size(sc.State()), 2
  {
    var ty := ParseType(sc);
    if ty.Err? {
      return Err(ty.error);
    }
    var given := ParseLabel(sc, MaxUint64);
    if given.Err? {
      return Err(given.error);
    }
    r := Ok(RawAlternative(ty.value, given.value));
  }

  method ParseUnionType(sc: Scanner) returns (r: Result<Type, ParseError>)
    modifies sc
    ensures Parsed(r, sc.State()) == UnionExpr(old(sc.State()))
    decreases Size(sc.State()), 0
  {
    var tok := ExpectToken(sc, TLPAREN, "(");
    if tok.Err? {
      return Err(tok.error);
    }

    ghost var final := UnionAlternatives(sc.State(), []);
    assert UnionExpr(old(sc.State())) ==
      if final.result.Err? then Parsed(Err(final.result.error), final.state)
      else Parsed(Ok(UnionType(AssignTags(final.result.value, 0))), final.state);
    ghost var alts: seq<RawAlternative> := [];
    var types: seq<UnionSubtype> := [];
    var tag: uint64 := 0;
    while true
      invariant UnionAlternatives(sc.State(), alts) == final
      invariant types == AssignTags(alts, 0) && tag == TagAfter(alts, 0)
      invariant Size(sc.State()) < Size(old(sc.State()))
      decreases Size(sc.State())
    {
      ghost var head := sc.State();
      var a := ParseUnionMember(sc);
      if a.Err? {
        return Err(a.error);
      }
      types, tag := AppendMember(types, tag, alts, a.value);
      alts := alts + [a.value];

      tok := ReadToken(sc);
      if tok.Err? {
        return Err(tok.error);
      }
      if tok.value.kind == TPIPE {
        continue;
      } else if tok.value.kind == TRPAREN {
        break;
      } else {
        return Err(UnexpectedToken(tok.value, "'|' or ')'"));
      }
    }

    r := Ok(UnionType(types));
  }

  method ParseStructType(sc: Scanner) returns (r: Result<Type, ParseError>)
    modifies sc
    ensures Parsed(r, sc.State()) == StructExpr(old(sc.State()))
    decreases Size(sc.State()), 0
  {
    var tok := ExpectToken(sc, TLBRACE, "[");
    if tok.Err? {
      return Err(tok.error);
    }

    ghost var body := sc.State();
    var fields: seq<StructField> := [];
    while true
      invariant StructFields(sc.State(), fields) == StructFields(body, [])
      invariant Size(sc.State()) < Size(old(sc.State()))
      decreases Size(sc.State())
    {
      ghost var head := sc.State();
      tok := ReadToken(sc);
      if tok.Err? {
        return Err(tok.error);
      }
      if tok.value.kind == TRBRACE {
        break;
      }
      if tok.value.kind != TNAME {
        return Err(UnexpectedToken(tok.value, "field name"));
      }
      var name := tok.value.value;
      if !MatchString(FieldNamePattern, name) {
        return Err(InvalidName(FieldName, name));
      }
      tok := ExpectToken(sc, TCOLON, ":");
      if tok.Err? {
        return Err(tok.error);
      }
      var t := ParseType(sc);
      if t.Err? {
        return Err(t.error);
      }
      fields := fields + [StructField(name, t.value)];
      assert Size(sc.State()) < Size(head);
    }

    r := Ok(StructType(fields));
  }
}
