# yaml-dataclass-config, modelled in Dafny

`yamldataclassconfig` loads a YAML file into an instance of a Python
dataclass. You declare a subclass of `YamlDataClassConfig` and give it
annotated fields. The class machinery then does three things:

- Defining the subclass runs `apply_automatic_defaults` on its field table.
  That pass gives every init field that lacks a default an automatic one,
  taken from a type table: `0`, `""`, `False`, `0.0`, or an empty list, dict
  or set factory. Python runs it while it creates the class, before
  `@dataclass` adds the subclass's own fields. At that moment the table holds
  only the inherited `FILE_PATH` and `_loaded`, which are not init fields, so
  the pass changes nothing there.
- Defining the subclass also installs a `ConfigProperty` descriptor on every
  annotated field. The descriptor makes reads fail with
  `ConfigNotLoadedError` until the instance is loaded.
- `create()` builds an unloaded instance. A field without a default or a
  factory gets a placeholder from a second type table in `factory.py`.

`load()` works in a fixed order:

1. It resolves a path: the argument, or else `self.FILE_PATH`. That is the
   instance's own `FILE_PATH` when one was assigned, and otherwise the class
   attribute.
2. It reads and parses the YAML document.
3. It checks every hinted document entry against its type annotation. An
   `Optional[T]` annotation is checked as `T`. Every mismatch is collected
   into one `ExceptionGroup`.
4. It deserialises the document with marshmallow.
5. Only then does it set `_loaded` and merge the loaded values into the
   instance.

The Dafny project models the eight core modules of the package, one module
each:

| module | file | Python |
|---|---|---|
| `Nullable` | `nullable.dfy` | `nullable.py` |
| `Validation` | `validation.dfy` | `validation.py` |
| `TypeDefaults` | `type_defaults.dfy` | `type_defaults.py` |
| `FieldProcessor` | `field_processor.dfy` | `field_processor.py` |
| `Factories` | `factory.dfy` | `factory.py` |
| `ConfigProperties`, `Classes` | `config_property.dfy`, `classes.dfy` | `config_property.py` |
| `Utility` | `utility.dfy` | `utility.py` |
| `Config` | `config.dfy` | `config.py` |

Supporting modules:

- `Values` holds the Python objects as data. Annotations are `PyType`. Runtime
  values are `Value`. `pathlib` paths are `Path`. `dataclasses.Field` is
  `Field`. Reflection (`__origin__`, `__args__`, `isinstance`, `__name__`)
  becomes total functions over these datatypes.
- `Errors` holds the exceptions as values.
- `Wrappers` holds `Option` and `Result`.

Code that changes state is modelled as classes:

- `ClassObject` holds the class's field table and descriptors.
- `TypeHint`, `DataClass`, `KeyArguments` and `YamlFieldValidations` have
  methods that update their fields.
- `YamlDataClassConfig` holds the `_loaded` flag and the instance dictionary.

Each loop of the source is a method with invariants. Each method is proved
against a specification function:

- `AutoDefaults` specifies automatic defaulting.
- `InitSlots` specifies the instance dictionary `__init__` leaves.
- `InitKwargs` specifies the `create()` keyword arguments.
- `FindingsOf` / `ConfigValidation` specify validation.
- `LoadOutcome` specifies `load()`.

The lemmas prove what the specification functions promise.

Where the design description and the code disagree, the model follows the
code:

- A read through the class returns the descriptor itself, not the field's
  default.
- The source has no "deserializing" context. `_loaded` is set only after
  marshmallow returns, so reads during deserialisation do not go through the
  guard.
- `FILE_PATH` is validated like any other hinted field whenever some other
  hint exists. It is skipped only when it is the sole hint.
- `load()` merges the loaded instance dictionary into the old one
  (`__dict__.update`). It does not replace it.

## Model

| member | source | states |
|---|---|---|
| Nullable.IsNullableType | yamldataclassconfig/nullable.py:13-24 | No contract of its own. It is the source's two union tests: the `typing.Union` origin, then the `UnionType` class. `NullableIffUnionWithNone` states what it decides. |
| Nullable.NullableIffUnionWithNone | yamldataclassconfig/nullable.py:13-24 | An annotation is nullable exactly when it is a `typing.Union` or an `X \| Y` union and `NoneType` is among its arguments. |
| Nullable.OptionalIsNullable | yamldataclassconfig/nullable.py:16-22 | `Optional[T]`, `Union[None, T]` and `T \| None` are nullable. |
| Nullable.PipeSyntaxAgrees | yamldataclassconfig/nullable.py:16-22 | Both union syntaxes give the same answer for the same members. |
| Nullable.MembershipOnly | yamldataclassconfig/nullable.py:18 | Only whether `NoneType` is a member matters. Order and repetition of members do not. |
| Nullable.NotNullable | yamldataclassconfig/nullable.py:24 | Unions without `None` and non-union classes are not nullable. |
| Validation.ExpectedType.GetActual | yamldataclassconfig/validation.py:32-44 | No contract of its own. It follows the source's guards in order. `GetActualResult`, `GetActualNonNullable`, `GetActualOptional`, `GetActualAmbiguous` and `GetActualWithoutArgs` state its result. |
| Validation.NonNoneTypes | yamldataclassconfig/validation.py:58 | The result holds exactly the non-`None` members of the arguments and is no longer than them. |
| Validation.GetActualResult | yamldataclassconfig/validation.py:32-44 | `get_actual` returns the annotation itself, or a non-`None` argument of a nullable annotation. |
| Validation.GetActualNonNullable | yamldataclassconfig/validation.py:34-35 | A non-nullable annotation is returned unchanged. |
| Validation.GetActualOptional | yamldataclassconfig/validation.py:32-61 | `Optional[T]` in either syntax and in either member order resolves to `T`. |
| Validation.GetActualAmbiguous | yamldataclassconfig/validation.py:56-61 | A nullable union without exactly one non-`None` member falls back to the union. |
| Validation.GetActualWithoutArgs | yamldataclassconfig/validation.py:37-42 | Without usable `__args__`, the annotation is returned unchanged. |
| Validation.NullableHasArgs | yamldataclassconfig/validation.py:37-52 | Every nullable annotation has a tuple of arguments, so the two guards only matter for other objects. |
| Validation.GetActualIdempotent | yamldataclassconfig/validation.py:32-44 | Resolving a resolved type changes nothing (for flattened unions). |
| Validation.Validation.Validate | yamldataclassconfig/validation.py:74-85 | No contract of its own. It resolves the type, skips dataclasses and `None`, and otherwise reports the finding. `FindingIffNotInstance`, `DataclassAlwaysPasses` and `NoneAlwaysPasses` state its result. |
| Validation.DataclassAlwaysPasses | yamldataclassconfig/validation.py:76-80 | A field whose resolved type is a dataclass never yields a finding. |
| Validation.NoneAlwaysPasses | yamldataclassconfig/validation.py:82 | A `None` value never yields a finding. |
| Validation.FindingIffNotInstance | yamldataclassconfig/validation.py:82-85 | A finding appears exactly when a non-`None` value is not an instance of the resolved type, that is, when the type is not on the `__mro__` of the value's class. It names the field, the resolved type and the value's type. |
| Validation.EveryValueIsObject | yamldataclassconfig/validation.py:82 | A field annotated `object` accepts every value. |
| Validation.SubclassPasses | yamldataclassconfig/validation.py:82 | A value passes a field annotated with any base class of its own class. |
| Validation.DatetimeExample | yamldataclassconfig/validation.py:82-85 | A `datetime` passes a `date` field. In a `str` field it gives the finding expected `str`, got `datetime`. |
| Errors.MessageExample | yamldataclassconfig/validation.py:83 | The text of a finding for a string in an `int` field named `age`. |
| Validation.OptionalValidatesAsInner | yamldataclassconfig/validation.py:74-85 | `Optional[T]` validates every value exactly as `T` does. |
| Validation.BoolPassesAsInt | yamldataclassconfig/validation.py:82 | A `bool` value passes an `int` field, because `bool` subclasses `int`. |
| Validation.OptionalIntExample | yamldataclassconfig/validation.py:74-85 | `Optional[int]` accepts `5` and rejects `"5"` with expected `int`, got `str`. |
| Validation.FindingsOf | yamldataclassconfig/validation.py:109 | No contract of its own. It is the findings of a run of validations, in order. `FindingsOfConcat` and `DocumentFindings` state what it holds. |
| Validation.NeedsValidation | yamldataclassconfig/validation.py:116-118 | No contract of its own. It holds when some hint is named other than `FILE_PATH`. `FilePathValidation` states both cases. |
| Validation.ConfigValidation | yamldataclassconfig/validation.py:100-120 | No contract of its own. It is the outcome of validating a document. `ValidationFailsIffMismatch` states when it fails and what the group carries. |
| Validation.FieldValidations | yamldataclassconfig/validation.py:100-105 | There is one validation per hinted document entry. All of them can run when the document's hinted entries can. |
| Validation.FindingsOfConcat | yamldataclassconfig/validation.py:109 | The findings of two runs of validations concatenate. |
| Validation.DocumentFindings | yamldataclassconfig/validation.py:100-109 | Every mismatching hinted entry is reported, and every report comes from one. Unhinted keys are ignored. |
| Validation.ValidationFailsIffMismatch | yamldataclassconfig/validation.py:107-120 | Validation raises exactly when some hinted entry mismatches, and the group carries every finding. |
| Validation.FilePathValidation | yamldataclassconfig/validation.py:118-120 | With `FILE_PATH` as the only hint nothing is checked. With another hint, `FILE_PATH` is checked too. |
| Validation.ThreeFindingsExample | yamldataclassconfig/validation.py:107-112 | Three wrongly typed fields give one group with three findings, in document order. |
| Validation.YamlFieldValidations.constructor | yamldataclassconfig/validation.py:100-105 | The generator holds the hinted entries' validations in document order. |
| Validation.YamlFieldValidations.Validate | yamldataclassconfig/validation.py:107-112 | It raises the group of all findings, in order, exactly when there is one. The generator is left exhausted. |
| Validation.ValidateConfigIfNeeded | yamldataclassconfig/validation.py:116-120 | It does nothing for empty or `FILE_PATH`-only hints. Otherwise its outcome is `ConfigValidation`. |
| TypeDefaults.GetDefaultForType | yamldataclassconfig/type_defaults.py:17-49 | No contract of its own. It is the source's two tables. `BasicPlaceholders`, `PlaceholderIsInstance`, `FactoryForContainers`, `ElementTypeIrrelevant` and `NoDefaultCases` state its result. |
| TypeDefaults.BasicPlaceholders | yamldataclassconfig/type_defaults.py:24-32 | `int`, `str`, `bool`, `float` get `0`, `""`, `False`, `0.0`. |
| TypeDefaults.PlaceholderIsInstance | yamldataclassconfig/type_defaults.py:24-32 | Exactly these four types get a placeholder, and each placeholder passes validation against its type. |
| TypeDefaults.FactoryForContainers | yamldataclassconfig/type_defaults.py:34-46 | A factory is returned exactly for origins `list`, `dict` and `set`. It builds an empty container of that class. |
| TypeDefaults.ElementTypeIrrelevant | yamldataclassconfig/type_defaults.py:35-46 | Only `__origin__` decides for a generic. |
| TypeDefaults.NoDefaultCases | yamldataclassconfig/type_defaults.py:35-49 | Dataclasses, nullable unions, `None` and bare `list`/`dict`/`set` get no default. |
| ConfigProperties.ConfigProperty.Get | yamldataclassconfig/config_property.py:19-27 | No contract of its own. It is `__get__`. `ClassReadReturnsDescriptor`, `NotLoadedReadRaises` and `LoadedReadReturnsSlot` state its three outcomes. |
| ConfigProperties.ConfigProperty.Set | yamldataclassconfig/config_property.py:29-30 | No contract of its own. It is `__set__`. `GetAfterSet`, `SetOtherLeavesGet` and `SetTwice` state what it changes. |
| ConfigProperties.ClassReadReturnsDescriptor | yamldataclassconfig/config_property.py:20-21 | A read through the class returns the descriptor. |
| ConfigProperties.NotLoadedReadRaises | yamldataclassconfig/config_property.py:23-25 | A read on an unloaded instance, or one without `_loaded`, raises `ConfigNotLoadedError` naming the field. |
| ConfigProperties.NotLoadedMessageExample | yamldataclassconfig/config_property.py:24 | The exact error message for a field. |
| ConfigProperties.LoadedReadReturnsSlot | yamldataclassconfig/config_property.py:27 | A loaded read returns the private slot. |
| ConfigProperties.PrivateNameInjective | yamldataclassconfig/config_property.py:14-16 | Distinct fields have distinct private slots. |
| ConfigProperties.GetAfterSet | yamldataclassconfig/config_property.py:27-30 | A loaded read after a write returns the value written. |
| ConfigProperties.SetOtherLeavesGet | yamldataclassconfig/config_property.py:19-30 | Writing one field does not change any read of another. |
| ConfigProperties.SetTwice | yamldataclassconfig/config_property.py:29-30 | The last write wins. |
| ConfigProperties.ReadAfterPublish | yamldataclassconfig/config_property.py:27 | After publishing a dictionary holding the slot, a loaded read returns the published value. |
| Classes.DescriptorTableNames | yamldataclassconfig/config_property.py:33-37 | Exactly the annotations other than `FILE_PATH` get a descriptor, each named after its field. |
| Classes.ClassObject.CreatePropertyDescriptors | yamldataclassconfig/config_property.py:33-37 | The descriptors become the old ones plus that table. The field table is unchanged. |
| FieldProcessor.AutoDefaults | yamldataclassconfig/field_processor.py:55-88 | No contract of its own. It is the field table after automatic defaulting. `AutoDefaultsFrame`, `AutoDefaultsProcessesAll` and `AutoDefaultsIdempotent` state its properties. |
| FieldProcessor.AutomaticField | yamldataclassconfig/field_processor.py:36-40 | An automatic field takes part in `__init__` and counts as processed. It uses `default_factory` exactly for a factory, `default` for a placeholder. |
| FieldProcessor.Processable | yamldataclassconfig/field_processor.py:62-68 | It returns exactly the unprocessed entries of the field table. |
| FieldProcessor.DefaultableMembers | yamldataclassconfig/field_processor.py:71-74 | A name is kept exactly when it has a hint with a table default. |
| FieldProcessor.TypeHint.constructor | yamldataclassconfig/field_processor.py:25-28 | It records the name and its hint if any. The default starts as none. |
| FieldProcessor.TypeHint.TryToGetDefaultValue | yamldataclassconfig/field_processor.py:30-34 | It stores the table default and reports found exactly when there is a hint whose default is not `None`. |
| FieldProcessor.DataClass.Of | yamldataclassconfig/field_processor.py:46-53 | It succeeds exactly for a dataclass. Otherwise it fails with `ValueError("Provided class is not a dataclass")`. |
| FieldProcessor.DataClass.FilterValidTypeHints | yamldataclassconfig/field_processor.py:71-74 | It keeps, in order, the hints with a table default, each holding that default. |
| FieldProcessor.DataClass.ApplyDefaultsToFields | yamldataclassconfig/field_processor.py:77-80 | The field table gains the automatic field of every kept hint, and nothing else changes. The method may write only the field table, and the descriptors stay as they were. |
| FieldProcessor.DataClass.ApplyAutomaticDefaults | yamldataclassconfig/field_processor.py:55-59 | The field table becomes `AutoDefaults` of the old one. The descriptors stay as they were. |
| FieldProcessor.AutoDefaultsByStages | yamldataclassconfig/field_processor.py:55-80 | The three stages compose to `AutoDefaults`. |
| FieldProcessor.ApplyAutomaticDefaults | yamldataclassconfig/field_processor.py:91-94 | It gives `ValueError` and leaves the table untouched for a non-dataclass. Otherwise it gives the rewritten table. Either way the descriptors stay as they were. |
| FieldProcessor.AutoDefaultsFrame | yamldataclassconfig/field_processor.py:55-88 | The same keys are kept. Exactly the unprocessed, hinted, defaultable fields change. |
| FieldProcessor.AutoDefaultsProcessesAll | yamldataclassconfig/field_processor.py:55-88 | Afterwards every defaultable init field is processed. |
| FieldProcessor.AutoDefaultsIdempotent | yamldataclassconfig/field_processor.py:82-88 | Applying twice is applying once. |
| FieldProcessor.AutoDefaultsExamples | yamldataclassconfig/field_processor.py:36-40 | Required `str`, `int`, `bool` and `List[...]` fields get `""`, `0`, `False` and the `list` factory. |
| FieldProcessor.AutoDefaultsLeavesUnknown | yamldataclassconfig/field_processor.py:30-34 | Unhinted fields, and fields without a table default, are left alone. |
| Factories.GetTypeDefault | yamldataclassconfig/factory.py:19-46 | No contract of its own. It is `_get_type_default`. `TypeDefaultsAgree` and `TypeDefaultExamples` state its result. |
| Factories.TypeDefaultsAgree | yamldataclassconfig/factory.py:19-46 | `_get_type_default` agrees with what the automatic default of `get_default_for_type` yields. |
| Factories.TypeDefaultExamples | yamldataclassconfig/factory.py:33-46 | Parameterised containers get empty instances. Other generics, unions and dataclasses get `None`. |
| Factories.GetKwarg | yamldataclassconfig/factory.py:71-83 | An explicit keyword argument wins. Without default or factory, a field gets its type default, or `None` without a hint. |
| Factories.InitKwargs | yamldataclassconfig/factory.py:59-69 | No contract of its own. It is the keyword arguments `build_init_kwargs` collects. `InitKwargsKeys` and `KwargPriority` state what they hold. |
| Factories.KeyArguments.BuildInitKwargs | yamldataclassconfig/factory.py:59-69 | A non-dataclass adds nothing. Otherwise one argument is added per init field, as `InitKwargs`. |
| Factories.InitKwargsKeys | yamldataclassconfig/factory.py:65-69 | The keys are exactly the init fields, and explicit arguments for them pass through. |
| Factories.KwargPriority | yamldataclassconfig/factory.py:73-83 | The order of precedence is argument, default, factory, type default, `None`. |
| Factories.AutoDefaultsPreserveKwargs | yamldataclassconfig/factory.py:71-83 | Automatic defaulting does not change any field's keyword argument. |
| Factories.InitKwargsUnaffectedByAutoDefaults | yamldataclassconfig/factory.py:59-69 | `create()` builds the same arguments before and after automatic defaulting. |
| Utility.BuildPath | yamldataclassconfig/utility.py:26-37 | No contract of its own. It is `build_path`. `BuildPathRelative`, `BuildPathAbsolute` and `BuildPathAbsoluteWithoutFlag` state its result. |
| Utility.ParsePath | yamldataclassconfig/utility.py:35-36 | No contract of its own. It is `Path(s)` for a string. `ParseRender` states that it inverts `Render`. |
| Utility.Render | yamldataclassconfig/utility.py:26-37 | No contract of its own. It is the text of a path. `ParseRender` states that parsing gives the path back. |
| Utility.CreateFilePathField | yamldataclassconfig/utility.py:13-23 | The field's default is the built path. It is `init=False`, carries the `Path` metadata and is already processed. |
| Utility.ParseRender | yamldataclassconfig/utility.py:33-37 | Parsing the text of a well-formed path gives the path back. |
| Utility.ParseName | yamldataclassconfig/utility.py:35-36 | A plain name parses to a one-part relative path. |
| Utility.BuildPathRelative | yamldataclassconfig/utility.py:33-34 | Without the flag, the path is joined onto `cwd`, for strings and paths alike. |
| Utility.BuildPathAbsoluteWithoutFlag | yamldataclassconfig/utility.py:33-34 | Without the flag, an absolute path, or text starting with `/`, comes out as itself, as it does with the flag. |
| Utility.AbsoluteTextIgnoresCwd | yamldataclassconfig/utility.py:33-34 | `/etc/app/config.yml` without the flag is that path, whatever `cwd` is. |
| Utility.DotDotKept | yamldataclassconfig/utility.py:33-34 | `..` is kept, not resolved. |
| Utility.BuildPathAbsolute | yamldataclassconfig/utility.py:35-37 | With the flag, the path is taken as given. A relative one stays relative. Building again changes nothing. |
| Utility.AbsoluteTextMatchesJoin | yamldataclassconfig/utility.py:26-37 | The absolute text `cwd/name` with the flag gives the same path as `name` without it. |
| Utility.FilePathFieldUntouched | yamldataclassconfig/utility.py:22 | The `FILE_PATH` field never gets an automatic default and is not an init field. |
| Config.DefaultFilePathIsConfigYml | yamldataclassconfig/config.py:42 | `FILE_PATH` defaults to `config.yml` in the directory current when the class is defined. |
| Config.BaseFieldsUntouched | yamldataclassconfig/config.py:42-43 | `FILE_PATH` and `_loaded` are neither rewritten by automatic defaulting nor passed by `create()`. |
| Config.InitSubclass | yamldataclassconfig/config.py:63-71 | It gives `ValueError` and changes nothing for a non-dataclass. Otherwise the field table becomes `AutoDefaults` of the old one, and a descriptor is added for every annotation other than `FILE_PATH`. |
| Config.DefinitionTimeDefaultsChangeNothing | yamldataclassconfig/config.py:63-71 | On the inherited table that `__init_subclass__` sees, automatic defaulting changes nothing. |
| Config.FilePathAttribute | yamldataclassconfig/config.py:92-93 | No contract of its own. It is `self.FILE_PATH`: the instance's entry if one was assigned, else the class attribute. `InstanceFilePathIsLoaded` states both cases. |
| Config.ResolveConfigPath | yamldataclassconfig/config.py:90-94 | No contract of its own. It is `_resolve_config_path`. `ExplicitPathOverrides` and `InstanceFilePathIsLoaded` state which path is resolved. |
| Config.InstanceFilePathIsLoaded | yamldataclassconfig/config.py:92-93 | Without a path, an assigned instance `FILE_PATH` is what gets resolved. Without an assignment, the class's `FILE_PATH` is. |
| Config.LoadOutcome | yamldataclassconfig/config.py:74-110 | No contract of its own. It is the outcome of `load()`: the path, the read, the validation and the deserialisation, in that order. `ValidationBeforeDeserialisation` and `SuccessfulLoadValidated` state its properties. |
| Config.InitSlots | yamldataclassconfig/config.py:59-61 | No contract of its own. It is the instance dictionary `cls(**init_kwargs)` leaves. `InitSlotsContents` states what it holds. |
| Config.InitSlotsContents | yamldataclassconfig/config.py:59-61 | The argument of a field with a descriptor lands in the field's private slot. The argument of any other field lands under the field's own name. Nothing else is set. |
| Config.CreatePlaceholders | yamldataclassconfig/config.py:47-61 | After `create()` with no arguments, a field without default or factory holds its type placeholder in its private slot. Reading it still raises `ConfigNotLoadedError`. |
| Config.ExplicitPathOverrides | yamldataclassconfig/config.py:90-94 | An explicit path overrides `FILE_PATH`. Without one, `FILE_PATH` is resolved. |
| Config.ValidationBeforeDeserialisation | yamldataclassconfig/config.py:81-87 | A mismatching hinted entry makes `load` fail with the group holding its finding, whatever the deserialiser does. |
| Config.SuccessfulLoadValidated | yamldataclassconfig/config.py:81-87 | A successful load saw no mismatch and publishes what the deserialiser returned. |
| Config.YamlDataClassConfig.constructor | yamldataclassconfig/config.py:35-43 | A new instance is unloaded, and each init argument is written through its descriptor, if any. |
| Config.YamlDataClassConfig.Create | yamldataclassconfig/config.py:45-61 | `create()` gives a fresh unloaded instance initialised with `InitKwargs`. |
| Config.YamlDataClassConfig.Read | yamldataclassconfig/config_property.py:19-27 | No contract of its own. It is the descriptor read on the instance. The `ConfigProperties` lemmas and `ReadsAfterLoad` state what it returns. |
| Config.YamlDataClassConfig.SetAttribute | tests/config/test_final_100_percent.py:27-31 | A plain assignment, such as `config.FILE_PATH = path`, replaces that entry of the instance dictionary and nothing else. |
| Config.YamlDataClassConfig.Write | yamldataclassconfig/config_property.py:29-30 | A descriptor write changes the private slot only. |
| Config.YamlDataClassConfig.LoadAndApplyConfig | yamldataclassconfig/config.py:101-110 | A deserialiser failure changes nothing. Success sets `_loaded` and merges the loaded values. |
| Config.YamlDataClassConfig.Load | yamldataclassconfig/config.py:74-99 | Without a path it resolves `self.FILE_PATH`. Every failure leaves the instance unchanged. Success publishes the deserialised values and sets `_loaded`, which never reverts. |
| Config.ReadsAfterLoad | yamldataclassconfig/config.py:102-110 | After a load that succeeds, a read of a published field returns the published value, whatever the slot held before. Before the load, the read raises `ConfigNotLoadedError`. |

## Left out

- Reading the file and parsing YAML (`yaml.full_load`, `read_text`) are a `read` parameter. A document whose top level is not a mapping belongs to that parameter's failure.
- Marshmallow deserialisation (`schema().load`) is a `deserialize` parameter. This covers unknown fields, missing required fields and nested dataclasses.
- `resolve_path` is imported from `utility.py` but not defined in it, so it is a `resolve` parameter. `Path.cwd()` in `build_path` is a `cwd` parameter.
- `get_type_hints` and `__dataclass_fields__` are explicit tables on `ClassObject`. The model does not reproduce forward references, inheritance or `ClassVar` handling.
- The field table is an input to the model. It is not derived from the class body. In Python, `__init_subclass__` installs the descriptors before `@dataclass` runs, so `@dataclass` takes each own annotated field's descriptor as that field's default. `create()` then passes the descriptor itself as the argument. `Config.CreatePlaceholders` is about fields that really lack a default, such as those of a dataclass whose table is given directly.
- `ABCMeta` and the `DataClassJsonMixin` API beyond `schema().load` are left out.
- Classes are identified by name. A value's `__mro__` is data: `bool` derives from `int`, `pathlib.Path` values follow the POSIX chain `Path`, `PurePosixPath`, `PurePath`, and an object carries the names of its base classes.
- Validation.Validation.Validate: requires that `isinstance` be defined for the resolved type. Python raises `TypeError` for a parameterised generic or an ambiguous union that reaches `isinstance`, and that error path is not modelled.
- Floats carry their value as a `real`. Float formatting and precision are not modelled.
- `pathlib` details are not modelled beyond splitting on `/`, dropping empty and `.` parts, and keeping `..`. In particular, the special `//` root is left out.
- Config.YamlDataClassConfig.constructor: requires arguments for exactly the init fields, as `create()` passes them. A direct constructor call with missing or extra arguments raises `TypeError` in Python, and that path is not modelled.
- FieldProcessor.DataClass.constructor: requires a dataclass. The failing path is modelled by `FieldProcessor.DataClass.Of`.
- Config.YamlDataClassConfig.Load: requires that the read document's hinted entries can be validated (`LoadDefined`). This is the same restriction as for `Validation.Validation.Validate`.
- Config.YamlDataClassConfig.Read: has no contract of its own. It is the descriptor read, and the `ConfigProperties` lemmas state what it returns.
- Automatic fields are built without metadata, as `dataclasses.field(default=...)` builds them. The original field's metadata is lost, as in the source.
- `config_handler.py`, the example packages `myproduct` and `yourproduct`, `tasks.py`, `setup.py`, the re-exports of `__init__.py` and the `exceptiongroup` backport are outside the core.
- The exception classes of `exceptions.py` are the constructors of `Errors.Error`. They have no behaviour of their own.
