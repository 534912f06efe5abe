/** The table of automatic defaults (`type_defaults.py`): a placeholder
    constant for the basic scalar types, a container factory for list, dict
    and set generics, nothing otherwise. */
module TypeDefaults {
  import opened Wrappers
  import opened Values
  import opened Nullable
  import opened Validation

  /** What `get_default_for_type` returns: a plain value, a callable to be used
      as `default_factory`, or `None`. */
  datatype TypeDefault = Placeholder(v: Value) | FactoryOf(f: Factory) | NoDefault

  /** The `basic_defaults` dictionary, keyed by class. */
  function BasicDefault(t: PyType): Option<Value>
  {
    match t
    case IntT => Some(VInt(0))
    case StrT => Some(VStr(""))
    case BoolT => Some(VBool(false))
    case FloatT => Some(VFloat(0.0))
    case _ => None
  }

  /** The `mutable_defaults` dictionary, keyed by `__origin__`. `typing.List`
      and friends never occur as an origin, so the builtin keys decide. */
  function MutableDefault(o: Origin): Option<Factory>
  {
    match o
    case ListOrigin => Some(ListFactory)
    case DictOrigin => Some(DictFactory)
    case SetOrigin => Some(SetFactory)
    case _ => None
  }

  /** `get_default_for_type`. */
  function GetDefaultForType(t: PyType): TypeDefault
  {
    match BasicDefault(t)
    case Some(v) => Placeholder(v)
    case None =>
      match OriginOf(t)
      case Some(o) => (match MutableDefault(o) case Some(f) => FactoryOf(f) case None => NoDefault)
      case None => NoDefault
  }

  /** The bare container class a factory's product is an instance of. */
  function ContainerOf(f: Factory): PyType
  {
    match f
    case ListFactory => ListT
    case DictFactory => DictT
    case SetFactory => SetT
    case CustomFactory(_) => Other("object", NoArgs)
  }

  /** The scalar placeholders: `int` to 0, `str` to "", `bool` to False,
      `float` to 0.0. */
  lemma BasicPlaceholders()
    ensures GetDefaultForType(IntT) == Placeholder(VInt(0))
    ensures GetDefaultForType(StrT) == Placeholder(VStr(""))
    ensures GetDefaultForType(BoolT) == Placeholder(VBool(false))
    ensures GetDefaultForType(FloatT) == Placeholder(VFloat(0.0))
  {
  }

  /** A placeholder is returned for exactly the four scalar classes, and it
      passes validation against its own type: the placeholder never causes a
      finding if it reaches a document. */
  lemma PlaceholderIsInstance(t: PyType)
    ensures GetDefaultForType(t).Placeholder? <==> t in {IntT, StrT, BoolT, FloatT}
    ensures GetDefaultForType(t).Placeholder? ==>
      Checkable(t) && IsInstance(GetDefaultForType(t).v, t) &&
      Validation("f", GetDefaultForType(t).v, t).Validate().None?
  {
  }

  /** A factory is returned exactly for annotations whose `__origin__` is
      `list`, `dict` or `set`, and it builds an empty instance of that
      container. */
  lemma FactoryForContainers(t: PyType)
    ensures GetDefaultForType(t).FactoryOf? <==>
      OriginOf(t) in {Some(ListOrigin), Some(DictOrigin), Some(SetOrigin)}
    ensures GetDefaultForType(t).FactoryOf? ==>
      var f := GetDefaultForType(t).f;
      !f.CustomFactory? && IsInstance(Produce(f), ContainerOf(f))
  {
  }

  /** Only `__origin__` decides for a generic: the element types are
      irrelevant. */
  lemma ElementTypeIrrelevant(o: Origin, a: seq<PyType>, b: seq<PyType>)
    ensures GetDefaultForType(Generic(o, a)) == GetDefaultForType(Generic(o, b))
  {
  }

  /** Dataclasses, `Optional[...]` in either syntax, `None`, other classes and
      the bare builtin `list`, `dict`, `set` (which have no `__origin__`) get
      no default. */
  lemma NoDefaultCases(t: PyType, name: string, ms: seq<PyType>, args: seq<PyType>)
    ensures GetDefaultForType(Record(name)) == NoDefault
    ensures GetDefaultForType(Union(ms)) == NoDefault
    ensures GetDefaultForType(PipeUnion(ms)) == NoDefault
    ensures GetDefaultForType(Generic(UnionOrigin, args)) == NoDefault
    ensures GetDefaultForType(NoneT) == NoDefault
    ensures GetDefaultForType(ListT) == NoDefault && GetDefaultForType(DictT) == NoDefault && GetDefaultForType(SetT) == NoDefault
    ensures IsNullableType(t) ==> GetDefaultForType(t) == NoDefault
  {
  }
}
