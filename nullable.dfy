/** `is_nullable_type`: whether an annotation is a union that admits `None`. */
module Nullable {
  import opened Wrappers
  import opened Values

  /** True when `t` is a `typing.Union` (its `__origin__` is `Union`) or an
      `X | Y` union (its class is `UnionType`) and `NoneType` is among its
      `__args__`. */
  predicate IsNullableType(t: PyType)
  {
    if OriginOf(t) == Some(UnionOrigin) then NoneT in ArgItems(ArgsOf(t))
    else if ClassNameOf(t) == "UnionType" then NoneT in ArgItems(ArgsOf(t))
    else false
  }

  /** The shapes that count as nullable: a union, in either syntax, with
      `None` as a member; nothing else is. */
  lemma NullableIffUnionWithNone(t: PyType)
    ensures IsNullableType(t) <==>
      ((t.Union? || t.PipeUnion? || (t.Generic? && t.origin == UnionOrigin)) &&
       NoneT in ArgItems(ArgsOf(t)))
  {
  }

  /** `Optional[T]`, `Union[T, None]` and `T | None` are nullable. */
  lemma OptionalIsNullable(t: PyType)
    ensures IsNullableType(Union([t, NoneT]))
    ensures IsNullableType(Union([NoneT, t]))
    ensures IsNullableType(PipeUnion([t, NoneT]))
  {
  }

  /** `X | Y` gives the same answer as `Union[X, Y]`. */
  lemma PipeSyntaxAgrees(members: seq<PyType>)
    ensures IsNullableType(PipeUnion(members)) == IsNullableType(Union(members))
  {
  }

  /** Only membership of `NoneType` matters: reordering or repeating members
      does not change the answer. */
  lemma MembershipOnly(ms: seq<PyType>, ns: seq<PyType>)
    requires forall x :: x in ms <==> x in ns
    ensures IsNullableType(Union(ms)) == IsNullableType(Union(ns))
    ensures IsNullableType(PipeUnion(ms)) == IsNullableType(PipeUnion(ns))
  {
  }

  /** A union of non-`None` members and every class that is not a union
      are not nullable. */
  lemma NotNullable(t: PyType)
    requires t.Union? || t.PipeUnion? ==> NoneT !in t.members
    requires t.Generic? ==> t.origin != UnionOrigin
    ensures !IsNullableType(t)
  {
  }
}
