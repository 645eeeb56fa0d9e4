/** Properties of the AST kinds (bareish/schema/ast.go). */
module AstProps {
  import opened Results
  import opened Ast

  /** data without a length is a slice, data<N> with N > 0 an array. */
  lemma DataKindByLength(n: Strconv.uint64)
    ensures DataType(n).Kind() == DataSlice <==> n == 0
    ensures DataType(n).Kind() == DataArray <==> n != 0
  {
  }

  /** []T is a slice, [N]T with N > 0 an array. */
  lemma ArrayKindByLength(m: Type, n: Strconv.uint64)
    ensures ArrayType(m, n).Kind() == Slice <==> n == 0
    ensures ArrayType(m, n).Kind() == Array <==> n != 0
  {
  }

  /** The composite types report a constant kind, whatever their children. */
  lemma CompositeKindsAreConstant(t: Type)
    ensures t.OptionalType? ==> t.Kind() == Optional
    ensures t.MapType? ==> t.Kind() == Map
    ensures t.UnionType? ==> t.Kind() == Union
    ensures t.StructType? ==> t.Kind() == Struct
    ensures t.NamedUserType? ==> t.Kind() == UserType
    ensures t.PrimitiveType? ==> t.Kind() == t.kind
  {
  }

  /** With primitives built from UINT..Void only, as the parser builds them,
      no type ever reports Data or DataFixed, and a type reports a primitive
      kind exactly when it is a primitive. */
  lemma DataAndDataFixedNeverReported(t: Type)
    requires t.PrimitiveType? ==> IsPrimitiveKind(t.kind)
    ensures t.Kind() != Data && t.Kind() != DataFixed
    ensures IsPrimitiveKind(t.Kind()) <==> t.PrimitiveType?
  {
  }

  /** TypeKind.String names every declared kind, distinctly; any other int
      value gives "?". */
  lemma KindStringNamesEveryKind(n: int)
    ensures KindCodeString(n) == "?" <==> !(0 <= n < KindCount)
    ensures 0 <= n < KindCount ==> KindOfCode(n).Some? && Code(KindOfCode(n).value) == n
  {
  }

  lemma KindCodeRoundTrip(k: TypeKind)
    ensures KindOfCode(Code(k)) == Some(k)
    ensures KindCodeString(Code(k)) == KindName(k)
  {
  }

  lemma KindNamesAreDistinct(k1: TypeKind, k2: TypeKind)
    ensures KindName(k1) == KindName(k2) ==> k1 == k2
  {
  }
}
