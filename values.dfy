/** The Python objects the configuration core manipulates, as explicit data:
    type annotations (`PyType`), runtime values produced by the YAML parser or
    the deserialiser (`Value`), `pathlib` paths, and `dataclasses.Field`
    records. Reflection (`getattr(tp, "__origin__")`, `tp.__args__`,
    `isinstance`, `__name__`) becomes total functions over these datatypes. */
module Values {
  import opened Wrappers

  /** The `__origin__` attribute of a subscripted type annotation. */
  datatype Origin = ListOrigin | DictOrigin | SetOrigin | UnionOrigin | OtherOrigin(name: string)

  /** The `__args__` attribute of an annotation: absent, `None`, a tuple or
      list of types, or some other object. */
  datatype ArgsAttr = NoArgs | ArgsNone | ArgsItems(items: seq<PyType>) | ArgsOther

  /** A type annotation as `get_type_hints` returns it. */
  datatype PyType =
    | IntT | StrT | BoolT | FloatT | NoneT
      /** the bare builtin classes `list`, `dict`, `set` (no `__origin__`) */
    | ListT | DictT | SetT
      /** a subscripted alias such as `List[str]`, `dict[str, int]` or a bare `typing.List` */
    | Generic(origin: Origin, args: seq<PyType>)
      /** `typing.Union[...]`, also written `Optional[...]` */
    | Union(members: seq<PyType>)
      /** the `X | Y` syntax, an instance of `types.UnionType` */
    | PipeUnion(members: seq<PyType>)
      /** a dataclass */
    | Record(name: string)
      /** any other class; it may carry an `__args__` attribute of its own */
    | Other(name: string, argsAttr: ArgsAttr)

  /** A Python path object: an optional root and the parts after it. */
  datatype Path = Path(absolute: bool, parts: seq<string>)

  /** The `Path | str` arguments of `build_path` and `load`. */
  datatype PathLike = StrPath(s: string) | PathObj(p: Path)

  /** A runtime value: what the YAML parser produces, what a default or a
      factory yields, or what the deserialiser stores on an instance. */
  datatype Value =
    | VNone
    | VBool(b: bool)
    | VInt(i: int)
    | VFloat(r: real)
    | VStr(s: string)
    | VList(items: seq<Value>)
    | VDict(entries: seq<(Value, Value)>)
    | VSet(elems: set<Value>)
    | VPath(path: Path)
      /** an instance of another class, such as a `datetime` or a nested
          dataclass: its class name, the names of the classes between it and
          `object` on its class's `__mro__` (for a `datetime`, `["date"]`),
          and its attributes */
    | VObject(className: string, bases: seq<string>, attrs: map<string, Value>)

  /** The name of the field that holds the configuration file's path. */
  const FilePathName: string := "FILE_PATH"

  /** A parsed top-level YAML mapping, in document order. */
  type Document = seq<(string, Value)>

  /** A `default_factory` callable. */
  datatype Factory = ListFactory | DictFactory | SetFactory | CustomFactory(produces: Value)

  /** What calling a `default_factory` returns: a fresh empty container for
      the builtin factories. */
  function Produce(f: Factory): Value
  {
    match f
    case ListFactory => VList([])
    case DictFactory => VDict([])
    case SetFactory => VSet({})
    case CustomFactory(v) => v
  }

  /** The `metadata` of a field: empty, or the `dataclasses_json` entry that
      names the marshmallow field class. */
  datatype Metadata = NoMetadata | MarshmallowField(fieldClass: string)

  /** A `dataclasses.Field`; `None` for `default` or `defaultFactory` stands
      for `dataclasses.MISSING`. */
  datatype Field = Field(default: Option<Value>, defaultFactory: Option<Factory>, init: bool, metadata: Metadata)

  /** `getattr(tp, "__origin__", None)`. */
  function OriginOf(t: PyType): Option<Origin>
  {
    match t
    case Generic(o, _) => Some(o)
    case Union(_) => Some(UnionOrigin)
    case _ => None
  }

  /** `tp.__args__`, or `NoArgs` when the attribute does not exist. */
  function ArgsOf(t: PyType): ArgsAttr
  {
    match t
    case Generic(_, args) => ArgsItems(args)
    case Union(ms) => ArgsItems(ms)
    case PipeUnion(ms) => ArgsItems(ms)
    case Other(_, a) => a
    case _ => NoArgs
  }

  /** `tp.__class__.__name__`: classes are instances of `type`. */
  function ClassNameOf(t: PyType): string
  {
    match t
    case Generic(o, _) => if o == UnionOrigin then "_UnionGenericAlias" else "_GenericAlias"
    case Union(_) => "_UnionGenericAlias"
    case PipeUnion(_) => "UnionType"
    case _ => "type"
  }

  /** The members an `in` test over `__args__` sees. */
  function ArgItems(a: ArgsAttr): seq<PyType>
  {
    if a.ArgsItems? then a.items else []
  }

  /** The annotations `isinstance` accepts as a class and that have a
      `__name__`: not a subscripted alias, not a union. */
  predicate Checkable(t: PyType)
  {
    !t.Generic? && !t.Union? && !t.PipeUnion?
  }

  /** The classes between `type(v)` and `object` on `type(v).__mro__`:
      `bool` derives from `int`, `PosixPath` from `Path`, `PurePosixPath` and
      `PurePath`; the other builtin classes derive from `object` directly. */
  function BasesOf(v: Value): seq<string>
  {
    match v
    case VBool(_) => ["int"]
    case VPath(_) => ["Path", "PurePosixPath", "PurePath"]
    case VObject(_, bases, _) => bases
    case _ => []
  }

  /** The names of the classes on `type(v).__mro__`, most derived first:
      the value's own class, its bases, and `object` last. */
  function MroOf(v: Value): (r: seq<string>)
    ensures |r| >= 2 && r[0] == ValueTypeName(v) && r[|r| - 1] == "object"
    ensures forall b :: b in BasesOf(v) ==> b in r
  {
    [ValueTypeName(v)] + BasesOf(v) + ["object"]
  }

  /** `isinstance(v, t)`: the class `t` is on the `__mro__` of the value's
      class. Classes are identified by name. */
  predicate IsInstance(v: Value, t: PyType)
    requires Checkable(t)
  {
    TypeName(t) in MroOf(v)
  }

  /** `t.__name__`. */
  function TypeName(t: PyType): string
    requires Checkable(t)
  {
    match t
    case IntT => "int"
    case StrT => "str"
    case BoolT => "bool"
    case FloatT => "float"
    case NoneT => "NoneType"
    case ListT => "list"
    case DictT => "dict"
    case SetT => "set"
    case Record(n) => n
    case Other(n, _) => n
  }

  /** `type(v).__name__`. */
  function ValueTypeName(v: Value): string
  {
    match v
    case VNone => "NoneType"
    case VBool(_) => "bool"
    case VInt(_) => "int"
    case VFloat(_) => "float"
    case VStr(_) => "str"
    case VList(_) => "list"
    case VDict(_) => "dict"
    case VSet(_) => "set"
    case VPath(_) => "PosixPath"
    case VObject(c, _, _) => c
  }
}
