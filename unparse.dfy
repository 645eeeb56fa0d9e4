/** The unparser of bareish/schema/unparse.go: the BARE schema text for a Go
    type. Go's reflect.Type is replaced by a Descriptor datatype that carries
    what SchemaForType inspects: the kind, the identity of the two named
    types bareish.Int and bareish.Uint, the element of a pointer, and the
    name, type and `bare` tag value of each struct field. */
module Unparse {
  import opened Results
  import Ast
  import Lex
  import Grammar
  import LexProps

  /** The reflect kinds other than Pointer and Struct. */
  datatype BasicKind =
    | Bool | Int | Int8 | Int16 | Int32 | Int64
    | Uint | Uint8 | Uint16 | Uint32 | Uint64 | Uintptr
    | Float32 | Float64 | Complex64 | Complex128
    | Array | Chan | Func | Interface | Map | Slice | String | UnsafePointer

  /** The two reflect.Type values SchemaForType compares against. */
  datatype Named = Unnamed | BareishInt | BareishUint

  datatype Descriptor =
    | PointerTo(elem: Descriptor)
    | StructOf(fields: seq<Field>)
    | Basic(kind: BasicKind, named: Named)

  /** A struct field: its Go name, its type and the value of its `bare` tag
      key when the tag has one. */
  datatype Field = Field(name: string, typ: Descriptor, tag: Option<string>)

  datatype UnparseError = NotPointer | UnsupportedType(d: Descriptor)

  /** The schema keyword of each kind the kind switch accepts. */
  function ScalarSchema(k: BasicKind): Option<string> {
    match k
    case Uint8 => Some("u8")
    case Uint16 => Some("u16")
    case Uint32 => Some("u32")
    case Uint64 => Some("u64")
    case Uint => Some("uint")
    case Int8 => Some("i8")
    case Int16 => Some("i16")
    case Int32 => Some("i32")
    case Int64 => Some("i64")
    case Int => Some("int")
    case Float32 => Some("f32")
    case Float64 => Some("f64")
    case Bool => Some("bool")
    case String => Some("string")
    case _ => None
  }

  /** SchemaFor: the argument must be a pointer; its pointee is unparsed. */
  function SchemaFor(val: Descriptor): (r: Result<string, UnparseError>)
    ensures !val.PointerTo? ==> r == Err(NotPointer)
    ensures val.PointerTo? ==> r == SchemaForType(val.elem)
  {
    match val
    case PointerTo(e) => SchemaForType(e)
    case _ => Err(NotPointer)
  }

  /** SchemaForType: pointers become optional types, bareish.Int and
      bareish.Uint are recognised before the kind, and structs list their
      fields. */
  function SchemaForType(t: Descriptor): Result<string, UnparseError>
    decreases t, 1
  {
    match t
    case PointerTo(e) =>
      var schema :- SchemaForType(e);
      Ok("optional<" + schema + ">")
    case Basic(k, named) =>
      if named == BareishInt then Ok("int")
      else if named == BareishUint then Ok("uint")
      else if ScalarSchema(k).Some? then Ok(ScalarSchema(k).value)
      else Err(UnsupportedType(t))
    case StructOf(fs) => StructSchema(fs)
  }

  /** schemaForStruct: `{` and a newline, one line per field, then `}`. */
  function StructSchema(fs: seq<Field>): Result<string, UnparseError>
    decreases fs, 1
  {
    var body :- FieldLines(fs);
    Ok("{\n" + body + "}")
  }

  function FieldLine(name: string, schema: string): string {
    "\t" + name + ": " + schema + "\n"
  }

  /** The lines of the fields, in order; the first field that cannot be
      unparsed stops the struct with its error. */
  function FieldLines(fs: seq<Field>): Result<string, UnparseError>
    decreases fs, 0
  {
    if fs == [] then Ok("")
    else
      var front :- FieldLines(fs[..|fs| - 1]);
      var last := fs[|fs| - 1];
      var schema :- SchemaForType(last.typ);
      Ok(front + FieldLine(FieldName(last), schema))
  }

  // ---------------------------------------------------------------------------
  // Field names from tags

  predicate IsLower(c: char) {
    'a' <= c <= 'z'
  }

  predicate IsAlnum(c: char) {
    ('A' <= c <= 'Z') || ('a' <= c <= 'z') || ('0' <= c <= '9')
  }

  /** s[i..j] is a match of tagFieldNameRE: a quote, a lower-case letter,
      letters and digits, and a closing quote. */
  ghost predicate QuotedNameAt(s: string, i: int, j: int) {
    0 <= i && i + 3 <= j <= |s|
    && s[i] == '"' && IsLower(s[i + 1]) && s[j - 1] == '"'
    && forall m :: i + 2 <= m < j - 1 ==> IsAlnum(s[m])
  }

  /** The end of the run of letters and digits that starts at k. */
  function AlnumRunEnd(s: string, k: nat): (r: nat)
    requires k <= |s|
    ensures k <= r <= |s|
    ensures forall m :: k <= m < r ==> IsAlnum(s[m])
    ensures r == |s| || !IsAlnum(s[r])
    decreases |s| - k
  {
    if k == |s| || !IsAlnum(s[k]) then k else AlnumRunEnd(s, k + 1)
  }

  /** The end of the match that starts at i, or 0 when none does. Since a
      quote is not a letter or digit, the run cannot be shortened to give
      another match. */
  function MatchEnd(s: string, i: nat): nat
    requires i < |s|
  {
    if s[i] == '"' && i + 1 < |s| && IsLower(s[i + 1]) then
      var k := AlnumRunEnd(s, i + 2);
      if k < |s| && s[k] == '"' then k + 1 else 0
    else 0
  }

  /** The leftmost match at or after i, or "" (FindString on no match). */
  function FindFrom(s: string, i: nat): string
    requires i <= |s|
    decreases |s| - i
  {
    if i == |s| then ""
    else if MatchEnd(s, i) > 0 then s[i..MatchEnd(s, i)]
    else FindFrom(s, i + 1)
  }

  /** tagFieldNameRE.FindString. */
  function FindQuotedName(s: string): string {
    FindFrom(s, 0)
  }

  /** The name a field is listed under: the tag's match, quotes included,
      when the field has a `bare` tag value that contains one, and the Go
      name otherwise. */
  function FieldName(f: Field): string {
    if f.tag.Some? then
      var name := FindQuotedName(f.tag.value);
      if name == "" then f.name else name
    else f.name
  }

  /** MatchEnd finds exactly the match that starts at i. */
  lemma MatchEndIsTheMatch(s: string, i: nat)
    requires i < |s|
    ensures MatchEnd(s, i) > 0 ==> QuotedNameAt(s, i, MatchEnd(s, i))
    ensures forall j :: QuotedNameAt(s, i, j) ==> j == MatchEnd(s, i)
  {
    forall j | QuotedNameAt(s, i, j)
      ensures j == MatchEnd(s, i)
    {
      assert !IsAlnum(s[j - 1]);
    }
  }

  /** FindFrom returns the leftmost match at or after i, or "" when there
      is none. */
  lemma {:induction false} FindFromIsLeftmost(s: string, i: nat)
    requires i <= |s|
    ensures FindFrom(s, i) == "" <==> forall a, b :: i <= a ==> !QuotedNameAt(s, a, b)
    ensures FindFrom(s, i) != "" ==> exists a, b :: (i <= a && QuotedNameAt(s, a, b) && FindFrom(s, i) == s[a..b]
      && forall a', b' :: i <= a' < a ==> !QuotedNameAt(s, a', b'))
    decreases |s| - i
  {
    if i < |s| {
      MatchEndIsTheMatch(s, i);
      FindFromIsLeftmost(s, i + 1);
      if MatchEnd(s, i) > 0 {
        assert QuotedNameAt(s, i, MatchEnd(s, i));
      }
    }
  }

  /** FindQuotedName is FindString of tagFieldNameRE: the leftmost match, or
      "" when the tag has none. */
  lemma FindQuotedNameIsLeftmost(s: string)
    ensures FindQuotedName(s) == "" <==> forall a, b :: !QuotedNameAt(s, a, b)
    ensures FindQuotedName(s) != "" ==> exists a, b :: (QuotedNameAt(s, a, b) && FindQuotedName(s) == s[a..b]
      && forall a', b' :: a' < a ==> !QuotedNameAt(s, a', b'))
  {
    FindFromIsLeftmost(s, 0);
  }

  /** A tag value without a quote never renames the field. Go's tag lookup
      removes the quotes around a value such as `bare:"id"`, so such a tag
      leaves the Go name in place. */
  lemma TagWithoutQuoteIsIgnored(f: Field)
    requires f.tag.Some? && forall k :: 0 <= k < |f.tag.value| ==> f.tag.value[k] != '"'
    ensures FieldName(f) == f.name
  {
    FindQuotedNameIsLeftmost(f.tag.value);
  }

  /** A tag value that is a quoted lower-case name gives that name, quotes
      included. */
  lemma QuotedTagNamesField(f: Field, n: string)
    requires |n| > 0 && IsLower(n[0]) && forall k :: 1 <= k < |n| ==> IsAlnum(n[k])
    requires f.tag == Some("\"" + n + "\"")
    ensures FieldName(f) == "\"" + n + "\""
  {
    var s := "\"" + n + "\"";
    assert QuotedNameAt(s, 0, |s|);
    MatchEndIsTheMatch(s, 0);
    assert s[0..|s|] == s;
  }

  // ---------------------------------------------------------------------------
  // The struct loop

  /** A failing prefix fails the whole list with the same error. */
  lemma {:induction false} FieldLinesPrefixFails(fs: seq<Field>, i: nat)
    requires i <= |fs| && FieldLines(fs[..i]).Err?
    ensures FieldLines(fs) == FieldLines(fs[..i])
    decreases |fs| - i
  {
    if i == |fs| {
      assert fs[..i] == fs;
    } else {
      assert fs[..i + 1][..i] == fs[..i];
      FieldLinesPrefixFails(fs, i + 1);
    }
  }

  /** One more field whose type unparses adds its line. */
  lemma FieldLinesStep(fs: seq<Field>, i: nat)
    requires i < |fs| && FieldLines(fs[..i]).Ok? && SchemaForType(fs[i].typ).Ok?
    ensures FieldLines(fs[..i + 1])
      == Ok(FieldLines(fs[..i]).value + FieldLine(FieldName(fs[i]), SchemaForType(fs[i].typ).value))
  {
    assert fs[..i + 1][..i] == fs[..i];
    assert fs[..i + 1][i] == fs[i];
  }

  /** A field whose type does not unparse fails the list with its error. */
  lemma FieldLinesStepFails(fs: seq<Field>, i: nat)
    requires i < |fs| && FieldLines(fs[..i]).Ok? && SchemaForType(fs[i].typ).Err?
    ensures FieldLines(fs) == Err(SchemaForType(fs[i].typ).error)
  {
    assert fs[..i + 1][..i] == fs[..i];
    assert fs[..i + 1][i] == fs[i];
    FieldLinesPrefixFails(fs, i + 1);
  }

  /** schemaForStruct: the fields' lines written into a buffer, stopping at
      the first field that cannot be unparsed. */
  method SchemaForStruct(fields: seq<Field>) returns (r: Result<string, UnparseError>)
    ensures r == StructSchema(fields)
  {
    var buf := "{\n";
    for i := 0 to |fields|
      invariant FieldLines(fields[..i]).Ok?
      invariant buf == "{\n" + FieldLines(fields[..i]).value
    {
      var field := fields[i];
      var schema := SchemaForType(field.typ);
      if schema.Err? {
        FieldLinesStepFails(fields, i);
        assert StructSchema(fields) == Err(schema.error);
        return Err(schema.error);
      }
      FieldLinesStep(fields, i);
      var name := field.name;
      if field.tag.Some? {
        name := FindQuotedName(field.tag.value);
        if name == "" {
          name := field.name;
        }
      }
      assert name == FieldName(field);
      var line := FieldLine(name, schema.value);
      assert buf + line == "{\n" + (FieldLines(fields[..i]).value + line);
      buf := buf + line;
    }
    assert fields[..|fields|] == fields;
    buf := buf + "}";
    r := Ok(buf);
  }

  // ---------------------------------------------------------------------------
  // Properties

  /** The types SchemaForType accepts: the scalar kinds, the two bareish
      types, and pointers and structs built from them. */
  predicate Supported(t: Descriptor) {
    match t
    case PointerTo(e) => Supported(e)
    case Basic(k, named) => named != Unnamed || ScalarSchema(k).Some?
    case StructOf(fs) => forall i :: 0 <= i < |fs| ==> Supported(fs[i].typ)
  }

  lemma {:induction false} SupportedIffUnparses(t: Descriptor)
    ensures SchemaForType(t).Ok? <==> Supported(t)
    decreases t, 1
  {
    match t
    case PointerTo(e) => SupportedIffUnparses(e);
    case Basic(_, _) =>
    case StructOf(fs) => FieldsSupportedIffUnparse(fs);
  }

  lemma {:induction false} FieldsSupportedIffUnparse(fs: seq<Field>)
    ensures FieldLines(fs).Ok? <==> forall i :: 0 <= i < |fs| ==> Supported(fs[i].typ)
    decreases fs, 0
  {
    if fs != [] {
      var front := fs[..|fs| - 1];
      FieldsSupportedIffUnparse(front);
      SupportedIffUnparses(fs[|fs| - 1].typ);
      assert forall i :: 0 <= i < |front| ==> front[i] == fs[i];
    }
  }

  /** n pointers around a type. */
  function Pointers(n: nat, t: Descriptor): Descriptor {
    if n == 0 then t else PointerTo(Pointers(n - 1, t))
  }

  function Repeat(s: string, n: nat): string {
    if n == 0 then "" else s + Repeat(s, n - 1)
  }

  /** Each pointer adds one `optional<...>` around the pointee's schema. */
  lemma {:induction false} PointersNestOptionals(n: nat, t: Descriptor)
    ensures SchemaForType(t).Ok? ==>
      SchemaForType(Pointers(n, t)) == Ok(Repeat("optional<", n) + SchemaForType(t).value + Repeat(">", n))
    ensures SchemaForType(t).Err? ==> SchemaForType(Pointers(n, t)) == SchemaForType(t)
  {
    if n > 0 {
      PointersNestOptionals(n - 1, t);
      PointerWraps(Pointers(n - 1, t));
      if SchemaForType(t).Ok? {
        var v := SchemaForType(t).value;
        WrapRepeats("optional<", ">", n, v);
      }
    } else if SchemaForType(t).Ok? {
      var v := SchemaForType(t).value;
      assert Repeat("optional<", 0) + v + Repeat(">", 0) == v;
    }
  }

  lemma PointerWraps(t: Descriptor)
    ensures SchemaForType(PointerTo(t)) ==
      if SchemaForType(t).Ok? then Ok("optional<" + SchemaForType(t).value + ">") else SchemaForType(t)
  {
  }

  lemma WrapRepeats(open: string, close: string, n: nat, s: string)
    requires n > 0
    ensures open + (Repeat(open, n - 1) + s + Repeat(close, n - 1)) + close == Repeat(open, n) + s + Repeat(close, n)
  {
    RepeatAppends(close, n - 1);
    assert Repeat(open, n) == open + Repeat(open, n - 1);
  }

  lemma {:induction false} RepeatAppends(s: string, n: nat)
    ensures Repeat(s, n) + s == Repeat(s, n + 1)
  {
    if n > 0 {
      RepeatAppends(s, n - 1);
    }
  }

  /** The lines of two lists of fields are the lines of each, in order, and
      the first error comes from the first list. */
  lemma {:induction false} FieldLinesConcat(fs: seq<Field>, gs: seq<Field>)
    ensures FieldLines(fs + gs) ==
      if FieldLines(fs).Err? then FieldLines(fs)
      else if FieldLines(gs).Err? then FieldLines(gs)
      else Ok(FieldLines(fs).value + FieldLines(gs).value)
  {
    if gs == [] {
      assert fs + gs == fs;
      if FieldLines(fs).Ok? {
        assert FieldLines(fs).value + "" == FieldLines(fs).value;
      }
    } else {
      var front := gs[..|gs| - 1];
      var last := gs[|gs| - 1];
      assert (fs + gs)[..|fs + gs| - 1] == fs + front;
      assert (fs + gs)[|fs + gs| - 1] == last;
      FieldLinesConcat(fs, front);
      if FieldLines(fs).Ok? && FieldLines(front).Ok? && SchemaForType(last.typ).Ok? {
        var line := FieldLine(FieldName(last), SchemaForType(last.typ).value);
        assert FieldLines(gs) == Ok(FieldLines(front).value + line);
        assert (FieldLines(fs).value + FieldLines(front).value) + line
          == FieldLines(fs).value + (FieldLines(front).value + line);
      }
    }
  }

  /** The BARE kind each scalar kind stands for. */
  function BareKindOf(k: BasicKind): Option<Ast.TypeKind> {
    match k
    case Uint8 => Some(Ast.U8)
    case Uint16 => Some(Ast.U16)
    case Uint32 => Some(Ast.U32)
    case Uint64 => Some(Ast.U64)
    case Uint => Some(Ast.UINT)
    case Int8 => Some(Ast.I8)
    case Int16 => Some(Ast.I16)
    case Int32 => Some(Ast.I32)
    case Int64 => Some(Ast.I64)
    case Int => Some(Ast.INT)
    case Float32 => Some(Ast.F32)
    case Float64 => Some(Ast.F64)
    case Bool => Some(Ast.Bool)
    case String => Some(Ast.String)
    case _ => None
  }

  /** The token of the BARE keyword for each scalar kind. */
  function ScalarToken(k: BasicKind): Option<Lex.TokenKind> {
    match k
    case Uint8 => Some(Lex.TU8)
    case Uint16 => Some(Lex.TU16)
    case Uint32 => Some(Lex.TU32)
    case Uint64 => Some(Lex.TU64)
    case Uint => Some(Lex.TUINT)
    case Int8 => Some(Lex.TI8)
    case Int16 => Some(Lex.TI16)
    case Int32 => Some(Lex.TI32)
    case Int64 => Some(Lex.TI64)
    case Int => Some(Lex.TINT)
    case Float32 => Some(Lex.TF32)
    case Float64 => Some(Lex.TF64)
    case Bool => Some(Lex.TBOOL)
    case String => Some(Lex.TSTRING)
    case _ => None
  }

  /** The text of each scalar is the spelling of a keyword token, which
      parses to the primitive type of the same BARE kind. */
  lemma ScalarSchemaSpellsKeyword(k: BasicKind)
    ensures ScalarSchema(k).Some? <==> ScalarToken(k).Some?
    ensures ScalarToken(k).Some? ==>
      Lex.IsKeyword(ScalarToken(k).value)
      && ScalarSchema(k).value == Lex.Token(ScalarToken(k).value, "").String()
      && Grammar.PrimitiveOfToken(ScalarToken(k).value) == BareKindOf(k)
  {
  }

  /** The text of every scalar is a keyword that the scanner reads back as
      the primitive type of the same BARE kind. */
  lemma ScalarSchemaLexesBack(k: BasicKind)
    requires ScalarSchema(k).Some?
    ensures Lex.KeywordKind(ScalarSchema(k).value).Some?
    ensures Grammar.PrimitiveOfToken(Lex.KeywordKind(ScalarSchema(k).value).value) == BareKindOf(k)
  {
    ScalarSchemaSpellsKeyword(k);
    LexProps.SpellingsAreInKeywordTable(ScalarToken(k).value);
  }
}
