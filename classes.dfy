/** A configuration class object: what reflection would find on it
    (`__dataclass_fields__`, `get_type_hints`, its own `__annotations__`, the
    `FILE_PATH` class attribute) and the descriptors installed on it by
    `create_property_descriptors`. */
module Classes {
  import opened Wrappers
  import opened Values
  import opened ConfigProperties

  /** The descriptors `create_property_descriptors` installs for the
      annotations `names`: one per name other than `FILE_PATH`, named after
      its field. */
  function DescriptorTable(names: seq<string>): map<string, ConfigProperty>
  {
    map n | n in names && n != FilePathName :: ConfigProperty(n)
  }

  /** Each installed descriptor is named after its attribute, and `FILE_PATH`
      never gets one. */
  lemma DescriptorTableNames(names: seq<string>)
    ensures FilePathName !in DescriptorTable(names)
    ensures forall n :: n in DescriptorTable(names) <==> n in names && n != FilePathName
    ensures forall n :: n in DescriptorTable(names) ==> DescriptorTable(names)[n].name == n
  {
  }

  class ClassObject {
    /** `cls.__name__`. */
    const name: string
    /** `dataclasses.is_dataclass(cls)`. */
    const isDataclass: bool
    /** The keys of `__dataclass_fields__`, in definition order. */
    const fieldNames: seq<string>
    /** `__dataclass_fields__`, which automatic defaulting rewrites in place. */
    var fields: map<string, Field>
    /** `get_type_hints(cls)`, including hints inherited from base classes. */
    const typeHints: map<string, PyType>
    /** The class's own `__annotations__`, in order. */
    const annotations: seq<string>
    /** The `FILE_PATH` class attribute, computed once when the class is
        defined. */
    const filePath: Path
    /** The `ConfigProperty` class attributes, by attribute name. */
    var descriptors: map<string, ConfigProperty>

    /** `fieldNames` lists the field table's keys, each once. */
    ghost predicate Valid()
      reads this
    {
      (forall n :: n in fields <==> n in fieldNames) &&
      (forall i, j :: 0 <= i < j < |fieldNames| ==> fieldNames[i] != fieldNames[j])
    }

    constructor (name: string, isDataclass: bool, fieldNames: seq<string>, fields: map<string, Field>,
                 typeHints: map<string, PyType>, annotations: seq<string>, filePath: Path)
      ensures this.name == name && this.isDataclass == isDataclass && this.fieldNames == fieldNames
      ensures this.fields == fields && this.typeHints == typeHints && this.annotations == annotations
      ensures this.filePath == filePath && descriptors == map[]
    {
      this.name := name;
      this.isDataclass := isDataclass;
      this.fieldNames := fieldNames;
      this.fields := fields;
      this.typeHints := typeHints;
      this.annotations := annotations;
      this.filePath := filePath;
      descriptors := map[];
    }

    /** `create_property_descriptors`: sets a `ConfigProperty` named after the
        field for every annotation except `FILE_PATH`; other class attributes
        and the field table are untouched. */
    method CreatePropertyDescriptors()
      modifies this
      ensures descriptors == old(descriptors) + DescriptorTable(annotations)
      ensures fields == old(fields)
    {
      var i := 0;
      while i < |annotations|
        invariant 0 <= i <= |annotations|
        invariant descriptors == old(descriptors) + DescriptorTable(annotations[..i])
        invariant fields == old(fields)
      {
        var fieldName := annotations[i];
        assert annotations[..i + 1] == annotations[..i] + [fieldName];
        if fieldName != FilePathName {
          descriptors := descriptors[fieldName := ConfigProperty(fieldName)];
        }
        i := i + 1;
      }
      assert annotations[..i] == annotations;
    }
  }
}
