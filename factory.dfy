/** Constructor keyword arguments for `create()` (`factory.py`): every init
    field gets the explicit keyword argument, else its default, else its
    factory's product, else the type default, else `None`. */
module Factories {
  import opened Wrappers
  import opened Values
  import opened TypeDefaults
  import opened Classes
  import opened FieldProcessor

  /** The `origin_defaults` dictionary of `_get_type_default`, read with
      `.get`: a fresh empty container for list, dict and set, `None`
      otherwise. */
  function OriginDefault(o: Origin): Value
  {
    match o
    case ListOrigin => VList([])
    case DictOrigin => VDict([])
    case SetOrigin => VSet({})
    case _ => VNone
  }

  /** `_get_type_default`: 0, "", `False`, 0.0 for the basic types, an empty
      instance for list, dict and set generics, `None` otherwise. */
  function GetTypeDefault(t: PyType): Value
  {
    match t
    case IntT => VInt(0)
    case StrT => VStr("")
    case BoolT => VBool(false)
    case FloatT => VFloat(0.0)
    case _ =>
      match OriginOf(t)
      case Some(o) => OriginDefault(o)
      case None => VNone
  }

  /** What a field built from a table result yields when `__init__` runs
      without an argument for it: the placeholder, the factory's product, or
      `None`. */
  function DefaultValue(d: TypeDefault): Value
  {
    match d
    case Placeholder(v) => v
    case FactoryOf(f) => Produce(f)
    case NoDefault => VNone
  }

  /** The two tables agree: the value `_get_type_default` returns is what the
      automatic default of `get_default_for_type` yields. */
  lemma TypeDefaultsAgree(t: PyType)
    ensures GetTypeDefault(t) == DefaultValue(GetDefaultForType(t))
  {
  }

  /** Parameterised lists, dicts and sets get fresh empty instances whatever
      their element types; other generics and unknown classes get `None`. */
  lemma TypeDefaultExamples(args: seq<PyType>, name: string)
    ensures GetTypeDefault(Generic(ListOrigin, args)) == VList([])
    ensures GetTypeDefault(Generic(DictOrigin, args)) == VDict([])
    ensures GetTypeDefault(Generic(SetOrigin, args)) == VSet({})
    ensures GetTypeDefault(Generic(OtherOrigin(name), args)) == VNone
    ensures GetTypeDefault(Union(args)) == VNone
    ensures GetTypeDefault(Record(name)) == VNone
  {
  }

  /** `get_kwarg`, over the caller's keyword arguments and the class's type
      hints. An explicit keyword argument always wins; a field with neither
      default nor factory gets the type default, which is what its automatic
      default would give. */
  function GetKwarg(kwargs: map<string, Value>, typeHints: map<string, PyType>, fieldName: string, fieldObj: Field): (v: Value)
    ensures fieldName in kwargs ==> v == kwargs[fieldName]
    ensures fieldName !in kwargs && fieldObj.default.None? && fieldObj.defaultFactory.None? ==>
      v == (if fieldName in typeHints then DefaultValue(GetDefaultForType(typeHints[fieldName])) else VNone)
  {
    if fieldName in kwargs then kwargs[fieldName]
    else if fieldObj.default.Some? then fieldObj.default.value
    else if fieldObj.defaultFactory.Some? then Produce(fieldObj.defaultFactory.value)
    else if fieldName in typeHints then (TypeDefaultsAgree(typeHints[fieldName]); GetTypeDefault(typeHints[fieldName]))
    else VNone
  }

  /** The keyword arguments `build_init_kwargs` gives those of the fields
      `names` that take part in `__init__`. */
  function InitKwargs(names: seq<string>, fields: map<string, Field>, kwargs: map<string, Value>,
                      typeHints: map<string, PyType>): map<string, Value>
  {
    map k | k in names && k in fields && fields[k].init :: GetKwarg(kwargs, typeHints, k, fields[k])
  }

  /** `KeyArguments`: the class, its type hints, the caller's keyword
      arguments, and the keyword arguments being built for `__init__`. */
  class KeyArguments {
    const cls: ClassObject
    const typeHints: map<string, PyType>
    const kwargs: map<string, Value>
    var initKwargs: map<string, Value>

    constructor (cls: ClassObject, kwargs: map<string, Value>)
      ensures this.cls == cls && typeHints == cls.typeHints && this.kwargs == kwargs
      ensures initKwargs == map[]
    {
      this.cls := cls;
      typeHints := cls.typeHints;
      this.kwargs := kwargs;
      initKwargs := map[];
    }

    /** `build_init_kwargs`: nothing for a class that is not a dataclass;
        otherwise one keyword argument per init field, in field order. */
    method BuildInitKwargs()
      modifies this
      ensures !cls.isDataclass ==> initKwargs == old(initKwargs)
      ensures cls.isDataclass ==> initKwargs == old(initKwargs) + InitKwargs(cls.fieldNames, cls.fields, kwargs, typeHints)
    {
      if !cls.isDataclass {
        return;
      }
      var names := cls.fieldNames;
      var fields := cls.fields;
      var i := 0;
      while i < |names|
        invariant 0 <= i <= |names|
        invariant initKwargs == old(initKwargs) + InitKwargs(names[..i], fields, kwargs, typeHints)
      {
        var fieldName := names[i];
        InitKwargsStep(old(initKwargs), names, i, fields, kwargs, typeHints);
        if fieldName in fields {
          var fieldObj := fields[fieldName];
          if fieldObj.init {
            initKwargs := initKwargs[fieldName := GetKwarg(kwargs, typeHints, fieldName, fieldObj)];
          }
        }
        i := i + 1;
      }
      assert names[..i] == names;
    }
  }

  /** One more field name adds its keyword argument when it is an init
      field, and nothing otherwise. */
  lemma InitKwargsSnoc(names: seq<string>, n: string, fields: map<string, Field>, kwargs: map<string, Value>,
                       typeHints: map<string, PyType>)
    ensures InitKwargs(names + [n], fields, kwargs, typeHints) ==
      if n in fields && fields[n].init
      then InitKwargs(names, fields, kwargs, typeHints)[n := GetKwarg(kwargs, typeHints, n, fields[n])]
      else InitKwargs(names, fields, kwargs, typeHints)
  {
  }

  /** The step of the loop of `build_init_kwargs`, on top of the arguments
      already present. */
  lemma InitKwargsStep(acc: map<string, Value>, names: seq<string>, i: nat, fields: map<string, Field>,
                       kwargs: map<string, Value>, typeHints: map<string, PyType>)
    requires i < |names|
    ensures acc + InitKwargs(names[..i + 1], fields, kwargs, typeHints) ==
      if names[i] in fields && fields[names[i]].init
      then (acc + InitKwargs(names[..i], fields, kwargs, typeHints))[names[i] := GetKwarg(kwargs, typeHints, names[i], fields[names[i]])]
      else acc + InitKwargs(names[..i], fields, kwargs, typeHints)
  {
    assert names[..i + 1] == names[..i] + [names[i]];
    InitKwargsSnoc(names[..i], names[i], fields, kwargs, typeHints);
  }

  /** The keys of the built keyword arguments are exactly the init fields:
      `init=False` fields never appear, and a keyword argument naming no init
      field is dropped. An explicit keyword argument for an init field is
      passed through unchanged. */
  lemma InitKwargsKeys(names: seq<string>, fields: map<string, Field>, kwargs: map<string, Value>, typeHints: map<string, PyType>)
    requires forall n :: n in fields <==> n in names
    ensures forall k :: k in InitKwargs(names, fields, kwargs, typeHints) <==> k in fields && fields[k].init
    ensures forall k :: k in kwargs && k in InitKwargs(names, fields, kwargs, typeHints) ==>
      InitKwargs(names, fields, kwargs, typeHints)[k] == kwargs[k]
  {
  }

  /** The order of precedence: an explicit argument, then the default, then
      the factory, then the type default, then `None` when there is no hint. */
  lemma KwargPriority(kwargs: map<string, Value>, typeHints: map<string, PyType>, n: string, d: Value, f: Factory)
    requires n !in kwargs
    ensures GetKwarg(kwargs, typeHints, n, Field(Some(d), Some(f), true, NoMetadata)) == d
    ensures GetKwarg(kwargs, typeHints, n, Field(None, Some(f), true, NoMetadata)) == Produce(f)
    ensures n !in typeHints ==> GetKwarg(kwargs, typeHints, n, Field(None, None, true, NoMetadata)) == VNone
  {
  }

  /** Automatic defaulting does not change what `create()` passes to
      `__init__`: for every field, the keyword argument built from the
      rewritten field equals the one built from the original. */
  lemma {:induction false} AutoDefaultsPreserveKwargs(kwargs: map<string, Value>, typeHints: map<string, PyType>,
                                                      fields: map<string, Field>, k: string)
    requires k in fields
    ensures GetKwarg(kwargs, typeHints, k, AutoDefaults(fields, typeHints)[k]) == GetKwarg(kwargs, typeHints, k, fields[k])
  {
    if GetsDefault(fields, typeHints, k) {
      TypeDefaultsAgree(typeHints[k]);
    }
  }

  /** `create()` builds the same keyword arguments whether or not automatic
      defaulting has rewritten the field table first. */
  lemma InitKwargsUnaffectedByAutoDefaults(names: seq<string>, fields: map<string, Field>, kwargs: map<string, Value>,
                                           typeHints: map<string, PyType>)
    ensures InitKwargs(names, AutoDefaults(fields, typeHints), kwargs, typeHints) == InitKwargs(names, fields, kwargs, typeHints)
  {
    var auto := AutoDefaults(fields, typeHints);
    forall k | k in fields
      ensures auto[k].init == fields[k].init
      ensures GetKwarg(kwargs, typeHints, k, auto[k]) == GetKwarg(kwargs, typeHints, k, fields[k])
    {
      AutoDefaultsPreserveKwargs(kwargs, typeHints, fields, k);
    }
  }
}
