/** The configuration instance and its loader (`config.py`): `create()`
    builds an instance from the constructor keyword arguments, `load()` picks
    a path, reads and validates the document, deserialises it, and only then
    sets `_loaded` and publishes the loaded fields. */
module Config {
  import opened Wrappers
  import opened Values
  import opened Errors
  import opened Validation
  import opened ConfigProperties
  import opened Classes
  import opened FieldProcessor
  import opened Factories
  import opened Utility

  /** The file `FILE_PATH` names unless a subclass overrides it. */
  const DefaultFileName: string := "config.yml"

  /** The `_loaded` attribute. */
  const LoadedName: string := "_loaded"

  /** The class attribute `FILE_PATH` of the base class: `config.yml` in the
      directory current when the class was defined. */
  function DefaultFilePath(definitionCwd: Path): Path
  {
    BuildPath(StrPath(DefaultFileName), false, definitionCwd)
  }

  /** The two fields the base class declares: `FILE_PATH` and `_loaded`,
      both excluded from `__init__`. */
  function BaseFields(definitionCwd: Path): map<string, Field>
  {
    map[FilePathName := Field(Some(VPath(DefaultFilePath(definitionCwd))), None, false, NoMetadata),
        LoadedName := Field(Some(VBool(false)), None, false, NoMetadata)]
  }

  /** `FILE_PATH` defaults to `config.yml` joined onto the directory current
      at class definition. */
  lemma DefaultFilePathIsConfigYml(definitionCwd: Path)
    ensures DefaultFilePath(definitionCwd) == Path(definitionCwd.absolute, definitionCwd.parts + [DefaultFileName])
  {
    ParseName(DefaultFileName);
  }

  /** Neither base field is given an automatic default or a constructor
      argument, so `create()` never sets them. */
  lemma BaseFieldsUntouched(definitionCwd: Path, names: seq<string>, fields: map<string, Field>,
                            kwargs: map<string, Value>, hints: map<string, PyType>)
    requires forall k :: k in BaseFields(definitionCwd) ==> k in fields && fields[k] == BaseFields(definitionCwd)[k]
    ensures forall k :: k in BaseFields(definitionCwd) ==> AutoDefaults(fields, hints)[k] == fields[k]
    ensures forall k :: k in BaseFields(definitionCwd) ==> k !in InitKwargs(names, fields, kwargs, hints)
  {
  }

  /** `__init_subclass__`: automatic defaulting of the field table, then a
      descriptor for every own annotation. A subclass inherits
      `__dataclass_fields__`, so it counts as a dataclass here; the error
      path stops before any descriptor is installed. */
  method InitSubclass(cls: ClassObject) returns (err: Option<Error>)
    requires cls.Valid()
    modifies cls
    ensures !cls.isDataclass ==>
      err == Some(NotADataclass(NotADataclassMessage)) && cls.fields == old(cls.fields) && cls.descriptors == old(cls.descriptors)
    ensures cls.isDataclass ==>
      err.None? && cls.fields == AutoDefaults(old(cls.fields), cls.typeHints) &&
      cls.descriptors == old(cls.descriptors) + DescriptorTable(cls.annotations)
  {
    err := ApplyAutomaticDefaults(cls);
    if err.None? {
      cls.CreatePropertyDescriptors();
    }
  }

  /** Python calls `__init_subclass__` while it creates the class, before
      `@dataclass` adds the subclass's own fields: the field table it sees is
      the inherited one, and automatic defaulting leaves it as it is. */
  lemma {:induction false} DefinitionTimeDefaultsChangeNothing(definitionCwd: Path, hints: map<string, PyType>)
    ensures AutoDefaults(BaseFields(definitionCwd), hints) == BaseFields(definitionCwd)
  {
    var fields := BaseFields(definitionCwd);
    AutoDefaultsFrame(fields, hints);
    forall k | k in fields
      ensures AutoDefaults(fields, hints)[k] == fields[k]
    {
      assert !GetsDefault(fields, hints, k);
    }
  }

  /** The instance dictionary the dataclass `__init__` leaves, for the
      fields `names` in order: an argument for a field with a descriptor goes
      to its private slot through `__set__`, any other to the attribute of
      the field's own name. */
  function InitSlots(names: seq<string>, descriptors: map<string, ConfigProperty>, initKwargs: map<string, Value>): map<string, Value>
  {
    if names == [] then map[]
    else
      var slots := InitSlots(names[..|names| - 1], descriptors, initKwargs);
      var n := names[|names| - 1];
      if n !in initKwargs then slots
      else if n in descriptors then descriptors[n].Set(slots, initKwargs[n])
      else slots[n := initKwargs[n]]
  }

  /** A `Path | str` argument as the object it is. */
  function PathValue(path: PathLike): Value
  {
    match path
    case StrPath(s) => VStr(s)
    case PathObj(p) => VPath(p)
  }

  /** `self.FILE_PATH`: the instance attribute when one was assigned (the
      field is `init=False`, so `__init__` never sets it), else the class
      attribute `classPath`. */
  function FilePathAttribute(slots: map<string, Value>, classPath: Path): Value
  {
    if FilePathName in slots then slots[FilePathName] else VPath(classPath)
  }

  /** `_resolve_config_path`: the given path, or the instance's `FILE_PATH`
      when none is given, handed to `resolve_path`. */
  function ResolveConfigPath(filePath: Value, path: Option<PathLike>, pathIsAbsolute: bool,
                             resolve: (Value, bool) -> Path): Path
  {
    resolve(if path.None? then filePath else PathValue(path.value), pathIsAbsolute)
  }

  /** Whether `load` can run its checks: the document read from the resolved
      path can be validated against the hints. */
  predicate LoadDefined(filePath: Value, hints: map<string, PyType>, path: Option<PathLike>, pathIsAbsolute: bool,
                        resolve: (Value, bool) -> Path, read: Path -> Result<Document, Error>)
  {
    var r := read(ResolveConfigPath(filePath, path, pathIsAbsolute, resolve));
    r.Success? && NeedsValidation(hints) ==> DocumentDefined(r.value, hints)
  }

  /** What `load` does before any mutation: the error it raises, or the
      loaded instance dictionary it is about to publish. */
  function LoadOutcome(filePath: Value, hints: map<string, PyType>, path: Option<PathLike>, pathIsAbsolute: bool,
                       resolve: (Value, bool) -> Path, read: Path -> Result<Document, Error>,
                       deserialize: Document -> Result<map<string, Value>, Error>): Result<map<string, Value>, Error>
    requires LoadDefined(filePath, hints, path, pathIsAbsolute, resolve, read)
  {
    match read(ResolveConfigPath(filePath, path, pathIsAbsolute, resolve))
    case Failure(e) => Failure(e)
    case Success(doc) =>
      match ConfigValidation(doc, hints)
      case Some(e) => Failure(e)
      case None => deserialize(doc)
  }

  /** An explicit path overrides `FILE_PATH`; without one, `FILE_PATH` is
      what gets resolved. */
  lemma ExplicitPathOverrides(filePath: Value, other: Value, p: PathLike, pathIsAbsolute: bool, resolve: (Value, bool) -> Path)
    ensures ResolveConfigPath(filePath, Some(p), pathIsAbsolute, resolve) == ResolveConfigPath(other, Some(p), pathIsAbsolute, resolve)
    ensures ResolveConfigPath(filePath, None, pathIsAbsolute, resolve) == resolve(filePath, pathIsAbsolute)
  {
  }

  /** A `FILE_PATH` assigned on the instance is the path `load()` resolves
      when called without one; before any assignment it is the class's. */
  lemma InstanceFilePathIsLoaded(slots: map<string, Value>, classPath: Path, v: Value, pathIsAbsolute: bool,
                                 resolve: (Value, bool) -> Path)
    ensures ResolveConfigPath(FilePathAttribute(slots[FilePathName := v], classPath), None, pathIsAbsolute, resolve) ==
      resolve(v, pathIsAbsolute)
    ensures FilePathName !in slots ==>
      ResolveConfigPath(FilePathAttribute(slots, classPath), None, pathIsAbsolute, resolve) ==
      resolve(VPath(classPath), pathIsAbsolute)
  {
  }

  /** Validation runs before deserialisation: a document with a wrongly typed
      hinted field fails with the validation group whatever the deserialiser
      would do. */
  lemma ValidationBeforeDeserialisation(filePath: Value, hints: map<string, PyType>, path: Option<PathLike>, pathIsAbsolute: bool,
                                        resolve: (Value, bool) -> Path, read: Path -> Result<Document, Error>,
                                        deserialize: Document -> Result<map<string, Value>, Error>,
                                        other: Document -> Result<map<string, Value>, Error>, i: nat)
    requires LoadDefined(filePath, hints, path, pathIsAbsolute, resolve, read)
    requires NeedsValidation(hints)
    requires var r := read(ResolveConfigPath(filePath, path, pathIsAbsolute, resolve));
      r.Success? && i < |r.value| && r.value[i].0 in hints && EntryFinding(r.value[i], hints).Some?
    ensures var outcome := LoadOutcome(filePath, hints, path, pathIsAbsolute, resolve, read, deserialize);
      outcome.Failure? && outcome.error.ValidationFailed? &&
      EntryFinding(read(ResolveConfigPath(filePath, path, pathIsAbsolute, resolve)).value[i], hints).value in outcome.error.findings
    ensures LoadOutcome(filePath, hints, path, pathIsAbsolute, resolve, read, deserialize) ==
      LoadOutcome(filePath, hints, path, pathIsAbsolute, resolve, read, other)
  {
    var doc := read(ResolveConfigPath(filePath, path, pathIsAbsolute, resolve)).value;
    ValidationFailsIffMismatch(doc, hints);
    DocumentFindings(doc, hints);
  }

  /** A load that succeeds saw no wrongly typed hinted field, and publishes
      exactly what the deserialiser returned. */
  lemma SuccessfulLoadValidated(filePath: Value, hints: map<string, PyType>, path: Option<PathLike>, pathIsAbsolute: bool,
                                resolve: (Value, bool) -> Path, read: Path -> Result<Document, Error>,
                                deserialize: Document -> Result<map<string, Value>, Error>)
    requires LoadDefined(filePath, hints, path, pathIsAbsolute, resolve, read)
    requires NeedsValidation(hints)
    requires LoadOutcome(filePath, hints, path, pathIsAbsolute, resolve, read, deserialize).Success?
    ensures var doc := read(ResolveConfigPath(filePath, path, pathIsAbsolute, resolve)).value;
      (forall i :: 0 <= i < |doc| && doc[i].0 in hints ==> EntryFinding(doc[i], hints).None?) &&
      LoadOutcome(filePath, hints, path, pathIsAbsolute, resolve, read, deserialize) == deserialize(doc)
  {
    var doc := read(ResolveConfigPath(filePath, path, pathIsAbsolute, resolve)).value;
    ValidationFailsIffMismatch(doc, hints);
  }

  /** An instance of a `YamlDataClassConfig` subclass. */
  class YamlDataClassConfig {
    const cls: ClassObject
    /** The `_loaded` attribute: the class default `False` until `load`
        succeeds. */
    var loaded: bool
    /** The instance dictionary apart from `_loaded`: private slots of the
        descriptor-backed fields and plain attributes of the others. */
    var slots: map<string, Value>

    /** The dataclass `__init__`, called with an argument for every init
        field: each argument is written in field order, through the field's
        descriptor when it has one. */
    constructor (cls: ClassObject, initKwargs: map<string, Value>)
      requires forall k :: k in initKwargs <==> k in cls.fields && cls.fields[k].init
      ensures this.cls == cls && !loaded
      ensures slots == InitSlots(cls.fieldNames, cls.descriptors, initKwargs)
    {
      this.cls := cls;
      loaded := false;
      var names := cls.fieldNames;
      var s: map<string, Value> := map[];
      var i := 0;
      while i < |names|
        invariant 0 <= i <= |names|
        invariant s == InitSlots(names[..i], cls.descriptors, initKwargs)
      {
        var n := names[i];
        assert names[..i + 1][..i] == names[..i];
        if n in initKwargs {
          if n in cls.descriptors {
            s := cls.descriptors[n].Set(s, initKwargs[n]);
          } else {
            s := s[n := initKwargs[n]];
          }
        }
        i := i + 1;
      }
      assert names[..i] == names;
      slots := s;
    }

    /** `create`: builds the keyword arguments with `KeyArguments` and calls
        the constructor. Every subclass inherits the base class's dataclass
        fields, so it is a dataclass. */
    static method Create(cls: ClassObject, kwargs: map<string, Value>) returns (config: YamlDataClassConfig)
      requires cls.Valid() && cls.isDataclass
      ensures fresh(config) && config.cls == cls && !config.loaded
      ensures config.slots == InitSlots(cls.fieldNames, cls.descriptors, InitKwargs(cls.fieldNames, cls.fields, kwargs, cls.typeHints))
    {
      var keyArgs := new KeyArguments(cls, kwargs);
      keyArgs.BuildInitKwargs();
      assert keyArgs.initKwargs == InitKwargs(cls.fieldNames, cls.fields, kwargs, cls.typeHints);
      InitKwargsKeys(cls.fieldNames, cls.fields, kwargs, cls.typeHints);
      config := new YamlDataClassConfig(cls, keyArgs.initKwargs);
    }

    /** A field read through its descriptor. */
    function Read(name: string): Lookup
      requires name in cls.descriptors
      reads this, cls
    {
      cls.descriptors[name].Get(Some(Owner(Some(loaded), slots)))
    }

    /** A field write through its descriptor: the private slot changes, the
        loaded flag does not. */
    method Write(name: string, value: Value)
      requires name in cls.descriptors
      modifies this
      ensures loaded == old(loaded)
      ensures slots == cls.descriptors[name].Set(old(slots), value)
    {
      slots := cls.descriptors[name].Set(slots, value);
    }

    /** A plain attribute assignment, such as `config.FILE_PATH = path`, on
        an attribute without a descriptor: the instance dictionary gains or
        replaces that entry, the loaded flag does not change. */
    method SetAttribute(name: string, value: Value)
      requires name !in cls.descriptors
      modifies this
      ensures loaded == old(loaded)
      ensures slots == old(slots)[name := value]
    {
      slots := slots[name := value];
    }

    /** `_load_and_apply_config`: deserialises first; only when that succeeds
        sets `_loaded` and merges the loaded instance dictionary, overwriting
        the keys it has and keeping all others. */
    method LoadAndApplyConfig(dictionaryConfig: Document, deserialize: Document -> Result<map<string, Value>, Error>)
      returns (err: Option<Error>)
      modifies this
      ensures deserialize(dictionaryConfig).Failure? ==>
        err == Some(deserialize(dictionaryConfig).error) && loaded == old(loaded) && slots == old(slots)
      ensures deserialize(dictionaryConfig).Success? ==>
        err.None? && loaded && slots == old(slots) + deserialize(dictionaryConfig).value
    {
      var loadedConfig := deserialize(dictionaryConfig);
      if loadedConfig.Failure? {
        return Some(loadedConfig.error);
      }
      loaded := true;
      slots := slots + loadedConfig.value;
      err := None;
    }

    /** `load`: resolves the path (the instance's `FILE_PATH` by default),
        reads the document, validates it against the class's type hints, then
        deserialises and publishes. Every failure leaves the instance as it
        was; success sets `_loaded`, which is never reset. */
    method Load(path: Option<PathLike>, pathIsAbsolute: bool, resolve: (Value, bool) -> Path,
                read: Path -> Result<Document, Error>, deserialize: Document -> Result<map<string, Value>, Error>)
      returns (err: Option<Error>)
      requires LoadDefined(FilePathAttribute(slots, cls.filePath), cls.typeHints, path, pathIsAbsolute, resolve, read)
      modifies this
      ensures var outcome := LoadOutcome(FilePathAttribute(old(slots), cls.filePath), cls.typeHints, path, pathIsAbsolute,
                                         resolve, read, deserialize);
        (outcome.Failure? ==> err == Some(outcome.error) && loaded == old(loaded) && slots == old(slots)) &&
        (outcome.Success? ==> err.None? && loaded && slots == old(slots) + outcome.value)
      ensures old(loaded) ==> loaded
    {
      var configPath := ResolveConfigPath(FilePathAttribute(slots, cls.filePath), path, pathIsAbsolute, resolve);
      var dictionaryConfig := read(configPath);
      if dictionaryConfig.Failure? {
        return Some(dictionaryConfig.error);
      }
      err := ValidateConfigIfNeeded(dictionaryConfig.value, cls.typeHints);
      if err.Some? {
        return;
      }
      err := LoadAndApplyConfig(dictionaryConfig.value, deserialize);
    }
  }

  /** After a load that succeeds, a read of a descriptor-backed field the
      deserialiser returned gives the value it returned, whatever the slot
      held before; before the load, every such read raises
      `ConfigNotLoadedError`. */
  lemma ReadsAfterLoad(p: ConfigProperty, filePath: Value, hints: map<string, PyType>, path: Option<PathLike>,
                       pathIsAbsolute: bool, resolve: (Value, bool) -> Path, read: Path -> Result<Document, Error>,
                       deserialize: Document -> Result<map<string, Value>, Error>, slots: map<string, Value>)
    requires LoadDefined(filePath, hints, path, pathIsAbsolute, resolve, read)
    requires var outcome := LoadOutcome(filePath, hints, path, pathIsAbsolute, resolve, read, deserialize);
      outcome.Success? && p.PrivateName() in outcome.value
    ensures var published := LoadOutcome(filePath, hints, path, pathIsAbsolute, resolve, read, deserialize).value;
      p.Get(Some(Owner(Some(true), slots + published))) == Found(published[p.PrivateName()])
    ensures p.Get(Some(Owner(Some(false), slots))).Raised? && p.Get(Some(Owner(Some(false), slots))).error.ConfigNotLoaded?
  {
    var published := LoadOutcome(filePath, hints, path, pathIsAbsolute, resolve, read, deserialize).value;
    ReadAfterPublish(p, slots, published);
  }

  /** Where `__init__` leaves its arguments: the argument of a field with a
      descriptor in the field's private slot, that of any other field under
      the field's own name, and nothing else. No field may be named like
      another field's private slot. */
  lemma {:induction false} InitSlotsContents(names: seq<string>, descriptors: map<string, ConfigProperty>,
                                             initKwargs: map<string, Value>)
    requires forall n :: n in descriptors ==> descriptors[n].name == n
    requires forall n, m :: n in names && m in names ==> n != ConfigProperty(m).PrivateName()
    ensures forall n :: n in names && n in initKwargs && n in descriptors ==>
      var slots := InitSlots(names, descriptors, initKwargs);
      ConfigProperty(n).PrivateName() in slots && slots[ConfigProperty(n).PrivateName()] == initKwargs[n]
    ensures forall n :: n in names && n in initKwargs && n !in descriptors ==>
      var slots := InitSlots(names, descriptors, initKwargs);
      n in slots && slots[n] == initKwargs[n]
    ensures forall k :: k in InitSlots(names, descriptors, initKwargs) ==>
      (k in names && k in initKwargs && k !in descriptors) ||
      (exists n :: n in names && n in initKwargs && n in descriptors && k == ConfigProperty(n).PrivateName())
  {
    if names != [] {
      var init := names[..|names| - 1];
      var last := names[|names| - 1];
      assert names == init + [last];
      assert forall n :: n in init ==> n in names;
      InitSlotsContents(init, descriptors, initKwargs);
      var before := InitSlots(init, descriptors, initKwargs);
      var after := InitSlots(names, descriptors, initKwargs);
      if last in initKwargs && last in descriptors {
        assert descriptors[last] == ConfigProperty(last);
        assert after == before[ConfigProperty(last).PrivateName() := initKwargs[last]];
      }
      forall n | n in names && n in initKwargs && n in descriptors
        ensures ConfigProperty(n).PrivateName() in after && after[ConfigProperty(n).PrivateName()] == initKwargs[n]
      {
        if n != last && last in initKwargs {
          assert n in init;
          if last in descriptors {
            assert ConfigProperty(n).PrivateName() != ConfigProperty(last).PrivateName() by {
              if ConfigProperty(n).PrivateName() == ConfigProperty(last).PrivateName() {
                PrivateNameInjective(ConfigProperty(n), ConfigProperty(last));
              }
            }
          } else {
            assert last != ConfigProperty(n).PrivateName();
          }
        }
      }
      forall n | n in names && n in initKwargs && n !in descriptors
        ensures n in after && after[n] == initKwargs[n]
      {
        if n != last && last in initKwargs && last in descriptors {
          assert n != ConfigProperty(last).PrivateName();
        }
      }
    }
  }

  /** `create()` with no arguments leaves, in the private slot of every init
      field without default or factory, the placeholder of its annotation;
      reading the field still raises `ConfigNotLoadedError`. */
  lemma {:induction false} CreatePlaceholders(names: seq<string>, fields: map<string, Field>, descriptors: map<string, ConfigProperty>,
                                             hints: map<string, PyType>, n: string)
    requires forall k :: k in descriptors ==> descriptors[k].name == k
    requires forall a, b :: a in names && b in names ==> a != ConfigProperty(b).PrivateName()
    requires n in names && n in fields && n in descriptors && n in hints
    requires fields[n].init && fields[n].default.None? && fields[n].defaultFactory.None?
    ensures var slots := InitSlots(names, descriptors, InitKwargs(names, fields, map[], hints));
      ConfigProperty(n).PrivateName() in slots && slots[ConfigProperty(n).PrivateName()] == GetTypeDefault(hints[n]) &&
      descriptors[n].Get(Some(Owner(Some(false), slots))) == Raised(ConfigNotLoaded(descriptors[n].NotLoadedMessage()))
  {
    var initKwargs := InitKwargs(names, fields, map[], hints);
    InitSlotsContents(names, descriptors, initKwargs);
    TypeDefaultsAgree(hints[n]);
  }
}
