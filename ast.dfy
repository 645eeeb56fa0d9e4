/** The schema AST (bareish/schema/ast.go): closed sum types for top-level
    declarations and for types. */
module Ast {
  import opened Results
  import opened Strconv

  /** The kinds a Type reports. The Go TypeKind is an int; `Code` gives the
      iota value of each declared kind. */
  datatype TypeKind =
    | UINT | U8 | U16 | U32 | U64
    | INT | I8 | I16 | I32 | I64
    | F32 | F64 | Bool | String | Void
    | Data | DataFixed | Array | Slice | Optional
    | DataArray | DataSlice | Map | Union | Struct | UserType

  /** The kinds a PrimitiveType is built with: UINT up to Void. */
  predicate IsPrimitiveKind(k: TypeKind) {
    k.UINT? || k.U8? || k.U16? || k.U32? || k.U64?
    || k.INT? || k.I8? || k.I16? || k.I32? || k.I64?
    || k.F32? || k.F64? || k.Bool? || k.String? || k.Void?
  }

  const KindCount: nat := 26

  /** The iota value of each kind, in declaration order. */
  function Code(k: TypeKind): (n: nat)
    ensures n < KindCount
  {
    match k
    case UINT => 0
    case U8 => 1
    case U16 => 2
    case U32 => 3
    case U64 => 4
    case INT => 5
    case I8 => 6
    case I16 => 7
    case I32 => 8
    case I64 => 9
    case F32 => 10
    case F64 => 11
    case Bool => 12
    case String => 13
    case Void => 14
    case Data => 15
    case DataFixed => 16
    case Array => 17
    case Slice => 18
    case Optional => 19
    case DataArray => 20
    case DataSlice => 21
    case Map => 22
    case Union => 23
    case Struct => 24
    case UserType => 25
  }

  /** The declared kind with a given int value, if there is one. */
  function KindOfCode(n: int): Option<TypeKind> {
    if n == 0 then Some(UINT)
    else if n == 1 then Some(U8)
    else if n == 2 then Some(U16)
    else if n == 3 then Some(U32)
    else if n == 4 then Some(U64)
    else if n == 5 then Some(INT)
    else if n == 6 then Some(I8)
    else if n == 7 then Some(I16)
    else if n == 8 then Some(I32)
    else if n == 9 then Some(I64)
    else if n == 10 then Some(F32)
    else if n == 11 then Some(F64)
    else if n == 12 then Some(Bool)
    else if n == 13 then Some(String)
    else if n == 14 then Some(Void)
    else if n == 15 then Some(Data)
    else if n == 16 then Some(DataFixed)
    else if n == 17 then Some(Array)
    else if n == 18 then Some(Slice)
    else if n == 19 then Some(Optional)
    else if n == 20 then Some(DataArray)
    else if n == 21 then Some(DataSlice)
    else if n == 22 then Some(Map)
    else if n == 23 then Some(Union)
    else if n == 24 then Some(Struct)
    else if n == 25 then Some(UserType)
    else None
  }

  /** TypeKind.String on a declared kind: its Go identifier. */
  function KindName(k: TypeKind): string {
    match k
    case UINT => "UINT"
    case U8 => "U8"
    case U16 => "U16"
    case U32 => "U32"
    case U64 => "U64"
    case INT => "INT"
    case I8 => "I8"
    case I16 => "I16"
    case I32 => "I32"
    case I64 => "I64"
    case F32 => "F32"
    case F64 => "F64"
    case Bool => "Bool"
    case String => "String"
    case Void => "Void"
    case Data => "Data"
    case DataFixed => "DataFixed"
    case Array => "Array"
    case Slice => "Slice"
    case Optional => "Optional"
    case DataArray => "DataArray"
    case DataSlice => "DataSlice"
    case Map => "Map"
    case Union => "Union"
    case Struct => "Struct"
    case UserType => "UserType"
  }

  /** TypeKind.String on any int: the name of the declared kind, else "?". */
  function KindCodeString(n: int): string {
    match KindOfCode(n)
    case Some(k) => KindName(k)
    case None => "?"
  }

  datatype Type =
    | PrimitiveType(kind: TypeKind)
    | OptionalType(subtype: Type)
    | DataType(length: uint64)
    | MapType(key: Type, value: Type)
    | ArrayType(member: Type, length: uint64)
    | UnionType(types: seq<UnionSubtype>)
    | StructType(fields: seq<StructField>)
      /** A reference by name, never resolved against the declarations. */
    | NamedUserType(name: string)
  {
    /** The Kind method of each Go implementation of Type. */
    function Kind(): TypeKind {
      match this
      case PrimitiveType(k) => k
      case OptionalType(_) => Optional
      case DataType(n) => if n == 0 then DataSlice else DataArray
      case MapType(_, _) => Map
      case ArrayType(_, n) => if n == 0 then Slice else Array
      case UnionType(_) => Union
      case StructType(_) => Struct
      case NamedUserType(_) => UserType
    }
  }

  datatype UnionSubtype = UnionSubtype(subtype: Type, tag: uint64)

  datatype StructField = StructField(name: string, typ: Type)

  datatype EnumValue = EnumValue(name: string, value: uint64)

  /** A top-level declaration: `type Name T` or `enum Name kind { ... }`. */
  datatype SchemaType =
    | UserDefinedType(name: string, typ: Type)
    | UserDefinedEnum(name: string, kind: TypeKind, values: seq<EnumValue>)
}
