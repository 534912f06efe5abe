/** Automatic defaulting (`field_processor.py`): every field of a dataclass
    that has no default, no factory and takes part in `__init__` gets the
    default the type table gives for its annotation. */
module FieldProcessor {
  import opened Wrappers
  import opened Values
  import opened Errors
  import opened TypeDefaults
  import opened Classes

  const NotADataclassMessage: string := "Provided class is not a dataclass"

  /** `is_already_processed`: the field has a default, has a factory, or is
      excluded from `__init__`. */
  predicate IsAlreadyProcessed(f: Field)
  {
    f.default.Some? || f.defaultFactory.Some? || !f.init
  }

  /** `get_automatic_default` for a table result: `field(default_factory=…)`
      for a factory, `field(default=…)` otherwise. The new field takes part in
      `__init__`, has no metadata, and counts as processed. */
  function AutomaticField(d: TypeDefault): (f: Field)
    ensures f.init && f.metadata == NoMetadata && IsAlreadyProcessed(f)
    ensures f.defaultFactory.Some? <==> d.FactoryOf?
    ensures d.FactoryOf? ==> f.defaultFactory == Some(d.f) && f.default.None?
    ensures d.Placeholder? ==> f.default == Some(d.v)
  {
    match d
    case FactoryOf(g) => Field(None, Some(g), true, NoMetadata)
    case Placeholder(v) => Field(Some(v), None, true, NoMetadata)
    case NoDefault => Field(Some(VNone), None, true, NoMetadata)
  }

  /** Whether automatic defaulting rewrites field `k`: it is not processed
      yet, it has a type hint, and the table has a default for that hint. */
  predicate GetsDefault(fields: map<string, Field>, hints: map<string, PyType>, k: string)
    requires k in fields
  {
    !IsAlreadyProcessed(fields[k]) && k in hints && GetDefaultForType(hints[k]) != NoDefault
  }

  /** The field table after `apply_automatic_defaults`. */
  function AutoDefaults(fields: map<string, Field>, hints: map<string, PyType>): map<string, Field>
  {
    map k | k in fields :: if GetsDefault(fields, hints, k) then AutomaticField(GetDefaultForType(hints[k])) else fields[k]
  }

  /** The automatic fields for `names`, by name. */
  function Automatic(names: seq<string>, hints: map<string, PyType>): map<string, Field>
  {
    map n | n in names && n in hints :: AutomaticField(GetDefaultForType(hints[n]))
  }

  /** Writing the automatic field of the next name extends the table by
      one name. */
  lemma AutomaticStep(base: map<string, Field>, names: seq<string>, i: nat, hints: map<string, PyType>)
    requires i < |names| && names[i] in hints
    ensures (base + Automatic(names[..i], hints))[names[i] := AutomaticField(GetDefaultForType(hints[names[i]]))] ==
      base + Automatic(names[..i + 1], hints)
  {
    assert names[..i + 1] == names[..i] + [names[i]];
  }

  /** `_get_processable_fields`: the unprocessed entries of the field table,
      in field order. */
  function Processable(names: seq<string>, fields: map<string, Field>): (r: seq<(string, Field)>)
    requires forall n :: n in names ==> n in fields
    ensures forall p :: p in r ==> p.0 in names && p.0 in fields && p.1 == fields[p.0] && !IsAlreadyProcessed(p.1)
    ensures forall n :: n in names && !IsAlreadyProcessed(fields[n]) ==> (n, fields[n]) in r
  {
    if names == [] then []
    else
      (if !IsAlreadyProcessed(fields[names[0]]) then [(names[0], fields[names[0]])] else [])
      + Processable(names[1..], fields)
  }

  /** The names `_filter_valid_type_hints` keeps: those with a type hint that
      the table has a default for, in order. */
  function Defaultable(fs: seq<(string, Field)>, hints: map<string, PyType>): seq<string>
  {
    if fs == [] then []
    else
      var last := fs[|fs| - 1].0;
      Defaultable(fs[..|fs| - 1], hints)
      + (if last in hints && GetDefaultForType(hints[last]) != NoDefault then [last] else [])
  }

  /** `_filter_valid_type_hints` keeps a name exactly when it belongs to one
      of the given fields, has a type hint, and the table has a default for
      that hint. */
  lemma {:induction false} DefaultableMembers(fs: seq<(string, Field)>, hints: map<string, PyType>, n: string)
    ensures n in Defaultable(fs, hints) <==>
      (exists f :: (n, f) in fs) && n in hints && GetDefaultForType(hints[n]) != NoDefault
  {
    if fs != [] {
      var init := fs[..|fs| - 1];
      var last := fs[|fs| - 1];
      DefaultableMembers(init, hints, n);
      if n in Defaultable(fs, hints) {
        if n in Defaultable(init, hints) {
          var f :| (n, f) in init;
          assert (n, f) in fs;
        } else {
          assert last in fs;
        }
      }
      if (exists f :: (n, f) in fs) && n in hints && GetDefaultForType(hints[n]) != NoDefault {
        var f :| (n, f) in fs;
        if (n, f) != last {
          assert fs == init + [last];
          assert (n, f) in init;
        }
      }
    }
  }

  /** `TypeHint`: a field name, its annotation if any, and the table default
      found for it. */
  class TypeHint {
    const fieldName: string
    const fieldType: Option<PyType>
    /** `self.default`: `NoDefault` (Python `None`) until looked up. */
    var default: TypeDefault

    constructor (typeHints: map<string, PyType>, fieldName: string)
      ensures this.fieldName == fieldName
      ensures fieldType == (if fieldName in typeHints then Some(typeHints[fieldName]) else None)
      ensures default == NoDefault
    {
      this.fieldName := fieldName;
      fieldType := if fieldName in typeHints then Some(typeHints[fieldName]) else None;
      default := NoDefault;
    }

    /** `try_to_get_default_value`: looks the annotation up in the table and
        reports whether a default was found; a `bool` field's `False` counts
        as found, only `None` does not. */
    method TryToGetDefaultValue() returns (found: bool)
      modifies this
      ensures fieldType.Some? ==> default == GetDefaultForType(fieldType.value)
      ensures fieldType.None? ==> default == old(default)
      ensures found <==> fieldType.Some? && GetDefaultForType(fieldType.value) != NoDefault
    {
      if fieldType.None? {
        return false;
      }
      default := GetDefaultForType(fieldType.value);
      found := default != NoDefault;
    }

    /** `get_automatic_default`. */
    function GetAutomaticDefault(): Field
      reads this
    {
      AutomaticField(default)
    }
  }

  /** The field names of a list of type hints. */
  function NamesOf(hs: seq<TypeHint>): seq<string>
  {
    seq(|hs|, j requires 0 <= j < |hs| => hs[j].fieldName)
  }

  /** `DataClass`: a dataclass whose field table automatic defaulting
      rewrites. */
  class DataClass {
    const cls: ClassObject
    const typeHints: map<string, PyType>

    constructor (cls: ClassObject)
      requires cls.isDataclass
      ensures this.cls == cls && typeHints == cls.typeHints
    {
      this.cls := cls;
      typeHints := cls.typeHints;
    }

    /** `DataClass(cls)`: fails with `ValueError` unless `cls` is a
        dataclass. */
    static method Of(cls: ClassObject) returns (r: Result<DataClass, Error>)
      ensures r.Success? <==> cls.isDataclass
      ensures r.Success? ==> fresh(r.value) && r.value.cls == cls && r.value.typeHints == cls.typeHints
      ensures r.Failure? ==> r.error == NotADataclass(NotADataclassMessage)
    {
      if !cls.isDataclass {
        return Failure(NotADataclass(NotADataclassMessage));
      }
      var dc := new DataClass(cls);
      return Success(dc);
    }

    /** `_filter_valid_type_hints`: one `TypeHint` per given field, kept when
        the table has a default for its annotation. */
    method FilterValidTypeHints(fields: seq<(string, Field)>) returns (hints: seq<TypeHint>)
      ensures NamesOf(hints) == Defaultable(fields, typeHints)
      ensures forall j :: 0 <= j < |hints| ==>
        fresh(hints[j]) && hints[j].fieldName in typeHints &&
        hints[j].default == GetDefaultForType(typeHints[hints[j].fieldName])
    {
      hints := [];
      var i := 0;
      while i < |fields|
        invariant 0 <= i <= |fields|
        invariant NamesOf(hints) == Defaultable(fields[..i], typeHints)
        invariant forall j :: 0 <= j < |hints| ==>
          fresh(hints[j]) && hints[j].fieldName in typeHints &&
          hints[j].default == GetDefaultForType(typeHints[hints[j].fieldName])
      {
        var hint := new TypeHint(typeHints, fields[i].0);
        var found := hint.TryToGetDefaultValue();
        ghost var next := fields[..i + 1];
        assert next[..|next| - 1] == fields[..i] && next[|next| - 1] == fields[i];
        if found {
          assert NamesOf(hints + [hint]) == NamesOf(hints) + [hint.fieldName];
          hints := hints + [hint];
        }
        i := i + 1;
      }
      assert fields[..i] == fields;
    }

    /** `_apply_defaults_to_fields`: writes the automatic field of every hint
        into the field table; no other entry and no class attribute changes. */
    method ApplyDefaultsToFields(hints: seq<TypeHint>)
      requires forall j :: 0 <= j < |hints| ==>
        hints[j].fieldName in typeHints && hints[j].default == GetDefaultForType(typeHints[hints[j].fieldName])
      modifies cls`fields
      ensures cls.fields == old(cls.fields) + Automatic(NamesOf(hints), typeHints)
      ensures cls.descriptors == old(cls.descriptors)
    {
      var names := NamesOf(hints);
      var i := 0;
      while i < |hints|
        invariant 0 <= i <= |hints|
        invariant cls.fields == old(cls.fields) + Automatic(names[..i], typeHints)
      {
        AutomaticStep(old(cls.fields), names, i, typeHints);
        cls.fields := cls.fields[hints[i].fieldName := hints[i].GetAutomaticDefault()];
        i := i + 1;
      }
      assert names[..i] == names;
    }

    /** `apply_automatic_defaults` on a dataclass. */
    method ApplyAutomaticDefaults()
      requires cls.Valid()
      modifies cls`fields
      ensures cls.fields == AutoDefaults(old(cls.fields), typeHints)
      ensures cls.descriptors == old(cls.descriptors)
    {
      var processable := Processable(cls.fieldNames, cls.fields);
      var hints := FilterValidTypeHints(processable);
      ApplyDefaultsToFields(hints);
      AutoDefaultsByStages(cls.fieldNames, old(cls.fields), typeHints);
    }
  }

  /** The three stages of `apply_automatic_defaults` compose to
      `AutoDefaults`. */
  lemma AutoDefaultsByStages(names: seq<string>, fields: map<string, Field>, hints: map<string, PyType>)
    requires forall n :: n in fields <==> n in names
    ensures fields + Automatic(Defaultable(Processable(names, fields), hints), hints) == AutoDefaults(fields, hints)
  {
    var ps := Processable(names, fields);
    var ds := Defaultable(ps, hints);
    forall k | k in fields
      ensures k in ds <==> GetsDefault(fields, hints, k)
    {
      DefaultableMembers(ps, hints, k);
      if k in ds {
        var f :| (k, f) in ps;
      }
      if GetsDefault(fields, hints, k) {
        assert (k, fields[k]) in ps;
      }
    }
    forall k | k in ds
      ensures k in fields
    {
      DefaultableMembers(ps, hints, k);
      var f :| (k, f) in ps;
    }
    var lhs := fields + Automatic(ds, hints);
    var rhs := AutoDefaults(fields, hints);
    assert lhs.Keys == rhs.Keys;
    forall k | k in lhs
      ensures lhs[k] == rhs[k]
    {
    }
  }

  /** `apply_automatic_defaults`: `ValueError` for a class that is not a
      dataclass (the field table is untouched), the rewritten field table
      otherwise; the descriptors on the class stay as they were. */
  method ApplyAutomaticDefaults(cls: ClassObject) returns (err: Option<Error>)
    requires cls.Valid()
    modifies cls`fields
    ensures !cls.isDataclass ==> err == Some(NotADataclass(NotADataclassMessage)) && cls.fields == old(cls.fields)
    ensures cls.isDataclass ==> err.None? && cls.fields == AutoDefaults(old(cls.fields), cls.typeHints)
    ensures cls.descriptors == old(cls.descriptors)
  {
    var r := DataClass.Of(cls);
    match r
    case Failure(e) =>
      err := Some(e);
    case Success(dataclass) =>
      dataclass.ApplyAutomaticDefaults();
      err := None;
  }

  /** Automatic defaulting keeps the set of fields, and rewrites exactly the
      unprocessed, hinted fields the table has a default for. */
  lemma AutoDefaultsFrame(fields: map<string, Field>, hints: map<string, PyType>)
    ensures AutoDefaults(fields, hints).Keys == fields.Keys
    ensures forall k :: k in fields && !GetsDefault(fields, hints, k) ==> AutoDefaults(fields, hints)[k] == fields[k]
    ensures forall k :: k in fields && GetsDefault(fields, hints, k) ==> AutoDefaults(fields, hints)[k] != fields[k]
  {
  }

  /** Afterwards every init field whose annotation has a table default is
      processed. */
  lemma AutoDefaultsProcessesAll(fields: map<string, Field>, hints: map<string, PyType>)
    ensures forall k :: k in fields && fields[k].init && k in hints && GetDefaultForType(hints[k]) != NoDefault ==>
      IsAlreadyProcessed(AutoDefaults(fields, hints)[k])
  {
  }

  /** Applying twice is applying once. */
  lemma AutoDefaultsIdempotent(fields: map<string, Field>, hints: map<string, PyType>)
    ensures AutoDefaults(AutoDefaults(fields, hints), hints) == AutoDefaults(fields, hints)
  {
    var once := AutoDefaults(fields, hints);
    forall k | k in once
      ensures !GetsDefault(once, hints, k)
    {
    }
  }

  /** A required `str` field defaults to "", an `int` field to 0, a `bool`
      field to `False`, and a list-typed field to the `list` factory. */
  lemma AutoDefaultsExamples(fields: map<string, Field>, hints: map<string, PyType>, k: string)
    requires k in fields && fields[k] == Field(None, None, true, NoMetadata) && k in hints
    ensures hints[k] == StrT ==> AutoDefaults(fields, hints)[k].default == Some(VStr(""))
    ensures hints[k] == IntT ==> AutoDefaults(fields, hints)[k].default == Some(VInt(0))
    ensures hints[k] == BoolT ==> AutoDefaults(fields, hints)[k].default == Some(VBool(false))
    ensures hints[k].Generic? && hints[k].origin == ListOrigin ==>
      AutoDefaults(fields, hints)[k] == Field(None, Some(ListFactory), true, NoMetadata)
  {
  }

  /** A field without a hint, or whose annotation has no table default (a
      dataclass, an `Optional[...]`), is left as it was. */
  lemma AutoDefaultsLeavesUnknown(fields: map<string, Field>, hints: map<string, PyType>, k: string)
    requires k in fields
    requires k !in hints || GetDefaultForType(hints[k]) == NoDefault
    ensures AutoDefaults(fields, hints)[k] == fields[k]
  {
  }
}
