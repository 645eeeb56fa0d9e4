/** The code generator of bareish/baregen/baregen.go: the classification of
    the parsed declarations into the Types record, the template helper
    functions, and the text the templates produce, as functions that fail
    where the Go template panics or cannot evaluate a field. */
module Baregen {
  import opened Results
  import opened Strconv
  import opened Ast
  import opened Grammar

  // ---------------------------------------------------------------------------
  // Classification

  /** The record handed to the template. */
  datatype Types = Types(
    userTypes: seq<SchemaType>,
    enums: seq<SchemaType>,
    unions: seq<SchemaType>,
    needErrors: bool)

  /** The list of Types a declaration goes to. */
  datatype Bucket = PlainTypes | EnumTypes | UnionTypes

  function BucketOf(d: SchemaType): (b: Bucket)
    ensures b == EnumTypes <==> d.UserDefinedEnum?
    ensures d.UserDefinedType? && d.typ.UnionType? ==> b == UnionTypes
    ensures WellFormedDeclaration(d) && b == UnionTypes ==> d.typ.UnionType?
  {
    match d
    case UserDefinedType(_, t) => if t.Kind() == Union then UnionTypes else PlainTypes
    case UserDefinedEnum(_, _, _) => EnumTypes
  }

  /** The declarations of one bucket, in document order. */
  function Select(ds: seq<SchemaType>, b: Bucket): (r: seq<SchemaType>)
    ensures |r| <= |ds|
    ensures forall i :: 0 <= i < |r| ==> BucketOf(r[i]) == b
  {
    if ds == [] then []
    else
      var front := Select(ds[..|ds| - 1], b);
      if BucketOf(ds[|ds| - 1]) == b then front + [ds[|ds| - 1]] else front
  }

  /** The record parseSchema builds from a list of declarations. */
  function Classification(ds: seq<SchemaType>): Types {
    var enums := Select(ds, EnumTypes);
    Types(Select(ds, PlainTypes), enums, Select(ds, UnionTypes), |enums| > 0)
  }

  lemma SelectAppend(ds: seq<SchemaType>, d: SchemaType, b: Bucket)
    ensures Select(ds + [d], b) == Select(ds, b) + (if BucketOf(d) == b then [d] else [])
  {
    assert (ds + [d])[..|ds + [d]| - 1] == ds;
  }

  /** The classification loop of parseSchema, then NeedErrors. */
  method ClassifyDeclarations(schemaTypes: seq<SchemaType>) returns (types: Types)
    ensures types == Classification(schemaTypes)
  {
    types := Types([], [], [], false);
    for i := 0 to |schemaTypes|
      invariant types.userTypes == Select(schemaTypes[..i], PlainTypes)
      invariant types.enums == Select(schemaTypes[..i], EnumTypes)
      invariant types.unions == Select(schemaTypes[..i], UnionTypes)
      invariant !types.needErrors
    {
      var ty := schemaTypes[i];
      assert schemaTypes[..i + 1] == schemaTypes[..i] + [ty];
      SelectAppend(schemaTypes[..i], ty, PlainTypes);
      SelectAppend(schemaTypes[..i], ty, EnumTypes);
      SelectAppend(schemaTypes[..i], ty, UnionTypes);
      match ty {
        case UserDefinedType(_, t) =>
          if t.Kind() == Union {
            types := types.(unions := types.unions + [ty]);
            continue;
          }
          types := types.(userTypes := types.userTypes + [ty]);
        case UserDefinedEnum(_, _, _) =>
          types := types.(enums := types.enums + [ty]);
      }
    }
    assert schemaTypes[..|schemaTypes|] == schemaTypes;
    if |types.enums| > 0 {
      types := types.(needErrors := true);
    }
  }

  /** A declaration is in a bucket's list exactly when it is one of the
      declarations and belongs to that bucket. */
  lemma {:induction false} SelectMembership(ds: seq<SchemaType>, b: Bucket, d: SchemaType)
    ensures d in Select(ds, b) <==> d in ds && BucketOf(d) == b
  {
    if ds != [] {
      var front := ds[..|ds| - 1];
      SelectMembership(front, b, d);
      assert ds == front + [ds[|ds| - 1]];
    }
  }

  /** Classification distributes over concatenation, so document order is
      kept within each list. */
  lemma {:induction false} SelectConcat(ds: seq<SchemaType>, es: seq<SchemaType>, b: Bucket)
    ensures Select(ds + es, b) == Select(ds, b) + Select(es, b)
  {
    if es == [] {
      assert ds + es == ds;
    } else {
      var front := es[..|es| - 1];
      var e := es[|es| - 1];
      var last: seq<SchemaType> := if BucketOf(e) == b then [e] else [];
      assert es == front + [e];
      calc {
        Select(ds + es, b);
        { assert ds + es == (ds + front) + [e]; }
        Select((ds + front) + [e], b);
        { SelectAppend(ds + front, e, b); }
        Select(ds + front, b) + last;
        { SelectConcat(ds, front, b); }
        (Select(ds, b) + Select(front, b)) + last;
        Select(ds, b) + (Select(front, b) + last);
        { SelectAppend(front, e, b); }
        Select(ds, b) + Select(es, b);
      }
    }
  }

  /** Every declaration lands in exactly one of the three lists. */
  lemma {:induction false} ClassificationPartitions(ds: seq<SchemaType>)
    ensures multiset(Select(ds, PlainTypes)) + multiset(Select(ds, EnumTypes)) + multiset(Select(ds, UnionTypes))
      == multiset(ds)
  {
    if ds != [] {
      var front := ds[..|ds| - 1];
      var d := ds[|ds| - 1];
      ClassificationPartitions(front);
      assert ds == front + [d];
      SelectAppend(front, d, PlainTypes);
      SelectAppend(front, d, EnumTypes);
      SelectAppend(front, d, UnionTypes);
      assert multiset(ds) == multiset(front) + multiset{d};
    }
  }

  /** NeedErrors is set exactly when the document declares an enum. */
  lemma NeedErrorsIffEnum(ds: seq<SchemaType>)
    ensures Classification(ds).needErrors <==> exists i :: 0 <= i < |ds| && ds[i].UserDefinedEnum?
  {
    var enums := Select(ds, EnumTypes);
    if |enums| > 0 {
      SelectMembership(ds, EnumTypes, enums[0]);
    }
    if i :| 0 <= i < |ds| && ds[i].UserDefinedEnum? {
      SelectMembership(ds, EnumTypes, ds[i]);
    }
  }

  // ---------------------------------------------------------------------------
  // Template helpers

  /** Why generation stops: a panic in a helper or a template field that
      cannot be evaluated. */
  datatype GenError =
    | UnimplementedType(t: Type)
    | InvalidPrimitive(kind: TypeKind)
    | EmptyName
    | NoNameField(t: Type)
    | WrongDeclaration(d: SchemaType)

  /** typeKind: the name of the Go type of a Type; it has no case for unions. */
  function TypeKindName(t: Type): (r: Result<string, GenError>)
    ensures r.Ok? <==> !t.UnionType?
  {
    match t
    case PrimitiveType(_) => Ok("PrimitiveType")
    case DataType(_) => Ok("DataType")
    case StructType(_) => Ok("StructType")
    case NamedUserType(_) => Ok("NamedUserType")
    case MapType(_, _) => Ok("MapType")
    case ArrayType(_, _) => Ok("ArrayType")
    case OptionalType(_) => Ok("OptionalType")
    case UnionType(_) => Err(UnimplementedType(t))
  }

  /** primitiveType: the Go name of a primitive kind. */
  function PrimitiveGoType(k: TypeKind): (r: Result<string, GenError>)
    ensures r.Ok? <==> IsPrimitiveKind(k)
  {
    match k
    case U8 => Ok("uint8")
    case U16 => Ok("uint16")
    case U32 => Ok("uint32")
    case U64 => Ok("uint64")
    case UINT => Ok("uint")
    case I8 => Ok("int8")
    case I16 => Ok("int16")
    case I32 => Ok("int32")
    case I64 => Ok("int64")
    case INT => Ok("int")
    case F32 => Ok("float32")
    case F64 => Ok("float64")
    case Bool => Ok("bool")
    case String => Ok("string")
    case Void => Ok("struct{}")
    case _ => Err(InvalidPrimitive(k))
  }

  /** The primitive kind a Go type name stands for, the inverse of
      PrimitiveGoType. */
  function KindOfGoName(s: string): Option<TypeKind> {
    if s == "uint8" then Some(U8)
    else if s == "uint16" then Some(U16)
    else if s == "uint32" then Some(U32)
    else if s == "uint64" then Some(U64)
    else if s == "uint" then Some(UINT)
    else if s == "int8" then Some(I8)
    else if s == "int16" then Some(I16)
    else if s == "int32" then Some(I32)
    else if s == "int64" then Some(I64)
    else if s == "int" then Some(INT)
    else if s == "float32" then Some(F32)
    else if s == "float64" then Some(F64)
    else if s == "bool" then Some(Bool)
    else if s == "string" then Some(String)
    else if s == "struct{}" then Some(Void)
    else None
  }

  /** Each primitive kind has its own Go name: the name gives the kind back. */
  lemma PrimitiveGoTypeInvertible(k: TypeKind)
    requires IsPrimitiveKind(k)
    ensures KindOfGoName(PrimitiveGoType(k).value) == Some(k)
  {
    match k
    case U8 =>
    case U16 =>
    case U32 =>
    case U64 =>
    case UINT =>
    case I8 =>
    case I16 =>
    case I32 =>
    case I64 =>
    case INT =>
    case F32 =>
    case F64 =>
    case Bool =>
    case String =>
    case Void =>
  }

  function UpperAscii(c: char): char {
    if 'a' <= c <= 'z' then ((c as int) - 32) as char else c
  }

  /** capitalize: the first character upper-cased; it panics on "". */
  function Capitalize(s: string): (r: Result<string, GenError>)
    ensures r.Ok? <==> s != []
    ensures r.Ok? ==> |r.value| == |s| && r.value[0] == UpperAscii(s[0]) && r.value[1..] == s[1..]
    ensures r.Ok? && 'a' <= s[0] <= 'z' ==> 'A' <= r.value[0] <= 'Z'
  {
    if s == [] then Err(EmptyName) else Ok([UpperAscii(s[0])] + s[1..])
  }

  /** Capitalizing twice is capitalizing once. */
  lemma CapitalizeIdempotent(s: string)
    requires s != []
    ensures Capitalize(Capitalize(s).value) == Capitalize(s)
  {
    var c := Capitalize(s).value;
    assert c == [c[0]] + c[1..];
  }

  const TagPrefix := "`bare:\""
  const TagSuffix := "\"`"

  /** structTag: the field's original name in a bare struct tag. */
  function StructTag(name: string): (r: string)
    ensures |r| == |TagPrefix| + |name| + |TagSuffix|
    ensures r[..|TagPrefix|] == TagPrefix && r[|TagPrefix| + |name|..] == TagSuffix
    ensures r[|TagPrefix|..|TagPrefix| + |name|] == name
  {
    TagPrefix + name + TagSuffix
  }

  /** last: i is the final index of a list of length n. */
  function Last(n: int, i: int): bool {
    i + 1 == n
  }

  // ---------------------------------------------------------------------------
  // The "type" template

  /** A union anywhere inside a type. */
  predicate ContainsUnion(t: Type) {
    match t
    case UnionType(_) => true
    case OptionalType(s) => ContainsUnion(s)
    case MapType(k, v) => ContainsUnion(k) || ContainsUnion(v)
    case ArrayType(m, _) => ContainsUnion(m)
    case StructType(fs) => exists i :: 0 <= i < |fs| && ContainsUnion(fs[i].typ)
    case _ => false
  }

  /** The length inside `[...]`: empty for 0, else the decimal length. */
  function LengthText(n: uint64): (r: string)
    ensures r == [] <==> n == 0
    ensures n > 0 ==> ParseUint(r, MaxUint64) == n
  {
    if n == 0 then []
    else
      ParseFormatRoundTrip(n, MaxUint64);
      FormatUint(n)
  }

  /** The "type" template: the Go type that a schema Type becomes. */
  function GoType(t: Type): (r: Result<string, GenError>)
    decreases t, 1
  {
    var _ :- TypeKindName(t);
    match t
    case PrimitiveType(k) => PrimitiveGoType(k)
    case DataType(n) => Ok("[" + LengthText(n) + "]byte")
    case ArrayType(m, n) =>
      var member :- GoType(m);
      Ok("[" + LengthText(n) + "]" + member)
    case StructType(fs) =>
      var body :- FieldsGoText(fs);
      Ok("struct {" + body + "}")
    case NamedUserType(name) => Ok(name)
    case MapType(k, v) =>
      var key :- GoType(k);
      var value :- GoType(v);
      Ok("map[" + key + "]" + value)
    case OptionalType(s) =>
      var sub :- GoType(s);
      Ok("*" + sub)
  }

  /** The fields of a struct, one entry per field in order: the capitalized
      name, the Go type and the tag with the original name. */
  function FieldsGoText(fs: seq<StructField>): (r: Result<string, GenError>)
    decreases fs, 0
  {
    if fs == [] then Ok("")
    else
      var name :- Capitalize(fs[0].name);
      var ty :- GoType(fs[0].typ);
      var rest :- FieldsGoText(fs[1..]);
      Ok("\n" + name + " " + ty + " " + StructTag(fs[0].name) + rest)
  }

  /** On a type the parser built, rendering fails exactly when a union
      occurs somewhere inside it. */
  lemma {:induction false} GoTypeRendersIffNoUnion(t: Type)
    requires WellFormed(t)
    ensures GoType(t).Ok? <==> !ContainsUnion(t)
    decreases t, 1
  {
    match t
    case PrimitiveType(_) =>
    case DataType(_) =>
    case ArrayType(m, _) => GoTypeRendersIffNoUnion(m);
    case StructType(fs) => FieldsRenderIffNoUnion(fs);
    case NamedUserType(_) =>
    case MapType(k, v) =>
      GoTypeRendersIffNoUnion(k);
      GoTypeRendersIffNoUnion(v);
    case OptionalType(s) => GoTypeRendersIffNoUnion(s);
    case UnionType(_) =>
  }

  lemma {:induction false} FieldsRenderIffNoUnion(fs: seq<StructField>)
    requires forall i :: 0 <= i < |fs| ==> FieldOk(fs[i])
    ensures FieldsGoText(fs).Ok? <==> !exists i :: 0 <= i < |fs| && ContainsUnion(fs[i].typ)
    decreases fs, 0
  {
    if fs != [] {
      assert FieldOk(fs[0]);
      assert fs[0].name != [];
      GoTypeRendersIffNoUnion(fs[0].typ);
      FieldsRenderIffNoUnion(fs[1..]);
      assert forall i :: 1 <= i < |fs| ==> fs[i] == fs[1..][i - 1];
    }
  }

  // ---------------------------------------------------------------------------
  // The declarations

  /** The text of each element, concatenated, stopping at the first failure. */
  function ConcatEach(f: SchemaType -> Result<string, GenError>, ds: seq<SchemaType>): (r: Result<string, GenError>)
    ensures r.Ok? <==> forall i :: 0 <= i < |ds| ==> f(ds[i]).Ok?
  {
    if ds == [] then Ok("")
    else
      var first :- f(ds[0]);
      var rest := ConcatEach(f, ds[1..]);
      assert forall i :: 1 <= i < |ds| ==> ds[i] == ds[1..][i - 1];
      if rest.Err? then Err(rest.error) else Ok(first + rest.value)
  }

  /** A user type: its Go type and its Decode/Encode methods. */
  function UserTypeText(d: SchemaType): (r: Result<string, GenError>)
    ensures r.Ok? <==> d.UserDefinedType? && GoType(d.typ).Ok?
  {
    match d
    case UserDefinedType(name, t) =>
      var ty :- GoType(t);
      Ok("\ntype " + name + " " + ty + "\n"
        + "\nfunc (t *" + name + ") Decode(data []byte) error {\n\treturn bareish.Unmarshal(data, t)\n}\n"
        + "\nfunc (t *" + name + ") Encode() ([]byte, error) {\n\treturn bareish.Marshal(t)\n}\n")
    case UserDefinedEnum(_, _, _) => Err(WrongDeclaration(d))
  }

  /** One constant per value: its name, the enum type and the value. */
  function ConstLines(typeName: string, values: seq<EnumValue>): (r: seq<string>)
    ensures |r| == |values|
    ensures forall i :: 0 <= i < |values| ==>
      r[i] == values[i].name + " " + typeName + " = " + FormatUint(values[i].value)
  {
    if values == [] then []
    else [values[0].name + " " + typeName + " = " + FormatUint(values[0].value)] + ConstLines(typeName, values[1..])
  }

  /** The value written in each constant reads back as that value. */
  lemma ConstValueReadsBack(typeName: string, values: seq<EnumValue>, i: int)
    requires 0 <= i < |values|
    ensures var line := ConstLines(typeName, values)[i];
      var prefix := values[i].name + " " + typeName + " = ";
      line[..|prefix|] == prefix && ParseUint(line[|prefix|..], MaxUint64) == values[i].value
  {
    var prefix := values[i].name + " " + typeName + " = ";
    var line := ConstLines(typeName, values)[i];
    assert line == prefix + FormatUint(values[i].value);
    assert line[|prefix|..] == FormatUint(values[i].value);
    ParseFormatRoundTrip(values[i].value, MaxUint64);
  }

  function Lines(ls: seq<string>): string {
    if ls == [] then "" else "\n" + ls[0] + Lines(ls[1..])
  }

  /** The cases of the generated String method, one per value. */
  function CaseLines(values: seq<EnumValue>): string {
    if values == [] then ""
    else "\ncase " + values[0].name + ":\n\treturn \"" + values[0].name + "\"" + CaseLines(values[1..])
  }

  /** What the generated String method returns for v: the name of the first
      value equal to v, or a panic (None) when there is none. */
  function EnumStringOf(values: seq<EnumValue>, v: uint64): (r: Option<string>)
    ensures r.None? <==> forall i :: 0 <= i < |values| ==> values[i].value != v
  {
    if values == [] then None
    else if values[0].value == v then Some(values[0].name)
    else
      assert forall i :: 1 <= i < |values| ==> values[i] == values[1..][i - 1];
      EnumStringOf(values[1..], v)
  }

  /** With distinct values, String returns each declared value's own name. */
  lemma {:induction false} EnumStringNamesEachValue(values: seq<EnumValue>, i: int)
    requires 0 <= i < |values|
    requires forall j, k :: 0 <= j < k < |values| ==> values[j].value != values[k].value
    ensures EnumStringOf(values, values[i].value) == Some(values[i].name)
  {
    if i > 0 {
      assert values[0].value != values[i].value;
      assert values[i] == values[1..][i - 1];
      EnumStringNamesEachValue(values[1..], i - 1);
    }
  }

  /** An enum: its Go type, the constants and the String method. */
  function EnumText(d: SchemaType): (r: Result<string, GenError>)
    ensures r.Ok? <==> d.UserDefinedEnum? && IsPrimitiveKind(d.kind)
  {
    match d
    case UserDefinedEnum(name, kind, values) =>
      var base :- PrimitiveGoType(kind);
      Ok("\ntype " + name + " " + base + "\n"
        + "\nconst (" + Lines(ConstLines(name, values)) + ")\n"
        + "\nfunc (t " + name + ") String() string {\n\tswitch (t) {" + CaseLines(values) + "}\n"
        + "\tpanic(errors.New(\"Invalid " + name + " value\"))\n}\n")
    case UserDefinedType(_, _) => Err(WrongDeclaration(d))
  }

  /** The IsUnion method of each member, which reads the member's name. */
  function IsUnionMethods(alts: seq<UnionSubtype>): (r: Result<string, GenError>)
    ensures r.Ok? <==> forall i :: 0 <= i < |alts| ==> alts[i].subtype.NamedUserType?
  {
    if alts == [] then Ok("")
    else if !alts[0].subtype.NamedUserType? then Err(NoNameField(alts[0].subtype))
    else
      var rest := IsUnionMethods(alts[1..]);
      assert forall i :: 1 <= i < |alts| ==> alts[i] == alts[1..][i - 1];
      if rest.Err? then Err(rest.error)
      else Ok("\nfunc (_ " + alts[0].subtype.name + ") IsUnion() {}\n" + rest.value)
  }

  /** The Member call of each alternative, in order. */
  function MemberCalls(alts: seq<UnionSubtype>): (r: Result<seq<string>, GenError>)
    ensures r.Ok? <==> forall i :: 0 <= i < |alts| ==> GoType(alts[i].subtype).Ok?
    ensures r.Ok? ==> |r.value| == |alts|
  {
    if alts == [] then Ok([])
    else
      var ty :- GoType(alts[0].subtype);
      var rest := MemberCalls(alts[1..]);
      assert forall i :: 1 <= i < |alts| ==> alts[i] == alts[1..][i - 1];
      if rest.Err? then Err(rest.error)
      else Ok(["Member(*new(" + ty + "), " + FormatUint(alts[0].tag) + ")"] + rest.value)
  }

  /** The calls from index i on, each followed by `.` unless it is the last. */
  function MemberChain(calls: seq<string>, i: nat): string
    requires i <= |calls|
    decreases |calls| - i
  {
    if i == |calls| then ""
    else calls[i] + (if Last(|calls|, i) then "" else ".") + MemberChain(calls, i + 1)
  }

  /** Strings joined with `.`. */
  function JoinDots(xs: seq<string>): string {
    if xs == [] then "" else if |xs| == 1 then xs[0] else xs[0] + "." + JoinDots(xs[1..])
  }

  /** The chain built with `last` is the calls joined with `.`: a separator
      between calls and none after the final one. */
  lemma {:induction false} MemberChainJoins(calls: seq<string>, i: nat)
    requires i <= |calls|
    ensures MemberChain(calls, i) == JoinDots(calls[i..])
    decreases |calls| - i
  {
    if i < |calls| {
      MemberChainJoins(calls, i + 1);
      assert calls[i..][1..] == calls[i + 1..];
      if i + 1 == |calls| {
        assert calls[i..] == [calls[i]];
      }
    }
  }

  /** A union's interface type and the IsUnion method of its members. */
  function UnionDeclText(d: SchemaType): (r: Result<string, GenError>)
    ensures r.Ok? <==> (d.UserDefinedType? && d.typ.UnionType?
      && forall i :: 0 <= i < |d.typ.types| ==> d.typ.types[i].subtype.NamedUserType?)
  {
    if d.UserDefinedType? && d.typ.UnionType? then
      var methods :- IsUnionMethods(d.typ.types);
      Ok("\ntype " + d.name + " interface {\n\tbareish.Union\n}\n" + methods)
    else Err(WrongDeclaration(d))
  }

  /** The registration of a union in the generated init function. */
  function RegistrationText(d: SchemaType): (r: Result<string, GenError>)
    ensures r.Ok? <==> (d.UserDefinedType? && d.typ.UnionType?
      && forall i :: 0 <= i < |d.typ.types| ==> GoType(d.typ.types[i].subtype).Ok?)
  {
    if d.UserDefinedType? && d.typ.UnionType? then
      var calls :- MemberCalls(d.typ.types);
      Ok("\nbareish.RegisterUnion((*" + d.name + ")(nil))." + MemberChain(calls, 0))
    else Err(WrongDeclaration(d))
  }

  /** The unions section, present only when there are unions. */
  function UnionsText(unions: seq<SchemaType>): (r: Result<string, GenError>)
    ensures |unions| == 0 ==> r == Ok("")
    ensures r.Ok? <==> forall i :: 0 <= i < |unions| ==> UnionDeclText(unions[i]).Ok? && RegistrationText(unions[i]).Ok?
  {
    if |unions| == 0 then Ok("")
    else
      var decls :- ConcatEach(UnionDeclText, unions);
      var regs :- ConcatEach(RegistrationText, unions);
      Ok(decls + "\nfunc init() {" + regs + "\n}\n")
  }

  function Header(needErrors: bool): string {
    "\npackage main\n\n// Code generated by go-bare/cmd/gen, DO NOT EDIT.\n\nimport ("
      + (if needErrors then "\n\t\"errors\"" else "")
      + "\n\t\"lotor/bareish\"\n)\n"
  }

  /** The whole template executed on a Types record. */
  function Generate(types: Types): Result<string, GenError> {
    var users :- ConcatEach(UserTypeText, types.userTypes);
    var enums :- ConcatEach(EnumText, types.enums);
    var unions :- UnionsText(types.unions);
    Ok(Header(types.needErrors) + users + enums + unions)
  }

  /** The template output exists when each of its three parts does. */
  lemma GenerateByParts(types: Types)
    ensures Generate(types).Ok? <==>
      ConcatEach(UserTypeText, types.userTypes).Ok? && ConcatEach(EnumText, types.enums).Ok? && UnionsText(types.unions).Ok?
  {
  }

  // ---------------------------------------------------------------------------
  // When generation succeeds

  /** What a declaration needs for the generator to accept it: a plain type
      free of unions, or a union whose members are all named types. */
  predicate Generatable(d: SchemaType) {
    match d
    case UserDefinedType(_, t) =>
      if t.UnionType? then forall i :: 0 <= i < |t.types| ==> t.types[i].subtype.NamedUserType?
      else !ContainsUnion(t)
    case UserDefinedEnum(_, _, _) => true
  }

  predicate AllGeneratable(ds: seq<SchemaType>) {
    forall d :: d in ds ==> Generatable(d)
  }

  /** All declarations are generatable exactly when those of each list are. */
  lemma GeneratableByBucket(ds: seq<SchemaType>)
    ensures AllGeneratable(ds) <==>
      AllGeneratable(Select(ds, PlainTypes)) && AllGeneratable(Select(ds, EnumTypes)) && AllGeneratable(Select(ds, UnionTypes))
  {
    forall b, d | d in Select(ds, b)
      ensures d in ds
    {
      SelectMembership(ds, b, d);
    }
    forall d | d in ds
      ensures d in Select(ds, BucketOf(d))
    {
      SelectMembership(ds, BucketOf(d), d);
    }
  }

  /** The lists hold only declarations of the document. */
  lemma SelectKeepsWellFormed(ds: seq<SchemaType>, b: Bucket)
    requires DeclarationsOk(ds)
    ensures DeclarationsOk(Select(ds, b))
  {
    var r := Select(ds, b);
    forall i | 0 <= i < |r|
      ensures WellFormedDeclaration(r[i])
    {
      SelectMembership(ds, b, r[i]);
    }
  }

  lemma PlainTypesGenerate(us: seq<SchemaType>)
    requires DeclarationsOk(us)
    requires forall i :: 0 <= i < |us| ==> BucketOf(us[i]) == PlainTypes
    ensures ConcatEach(UserTypeText, us).Ok? <==> AllGeneratable(us)
  {
    forall i | 0 <= i < |us|
      ensures UserTypeText(us[i]).Ok? <==> Generatable(us[i])
    {
      assert WellFormedDeclaration(us[i]);
      GoTypeRendersIffNoUnion(us[i].typ);
    }
  }

  lemma EnumsGenerate(es: seq<SchemaType>)
    requires DeclarationsOk(es)
    requires forall i :: 0 <= i < |es| ==> BucketOf(es[i]) == EnumTypes
    ensures ConcatEach(EnumText, es).Ok? && AllGeneratable(es)
  {
    forall i | 0 <= i < |es|
      ensures EnumText(es[i]).Ok?
    {
      assert WellFormedDeclaration(es[i]);
    }
  }

  lemma UnionGenerates(d: SchemaType)
    requires WellFormedDeclaration(d) && BucketOf(d) == UnionTypes
    ensures UnionDeclText(d).Ok? && RegistrationText(d).Ok? <==> Generatable(d)
  {
    var alts := d.typ.types;
    if Generatable(d) {
      forall j | 0 <= j < |alts|
        ensures GoType(alts[j].subtype).Ok?
      {
        assert alts[j].subtype.NamedUserType?;
      }
    }
  }

  lemma UnionsGenerate(us: seq<SchemaType>)
    requires DeclarationsOk(us)
    requires forall i :: 0 <= i < |us| ==> BucketOf(us[i]) == UnionTypes
    ensures UnionsText(us).Ok? <==> AllGeneratable(us)
  {
    forall i | 0 <= i < |us|
      ensures UnionDeclText(us[i]).Ok? && RegistrationText(us[i]).Ok? <==> Generatable(us[i])
    {
      UnionGenerates(us[i]);
    }
  }

  /** For the declarations Parse returns, the generator produces its output
      exactly when every declaration is generatable. */
  lemma GenerationSucceedsIff(ds: seq<SchemaType>)
    requires DeclarationsOk(ds)
    ensures Generate(Classification(ds)).Ok? <==> AllGeneratable(ds)
  {
    var types := Classification(ds);
    GenerateByParts(types);
    SelectKeepsWellFormed(ds, PlainTypes);
    SelectKeepsWellFormed(ds, EnumTypes);
    SelectKeepsWellFormed(ds, UnionTypes);
    PlainTypesGenerate(types.userTypes);
    EnumsGenerate(types.enums);
    UnionsGenerate(types.unions);
    GeneratableByBucket(ds);
  }
}
