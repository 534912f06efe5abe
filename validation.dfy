/** Type resolution and per-field validation of a parsed document against the
    declared type hints (`validation.py`). */
module Validation {
  import opened Wrappers
  import opened Values
  import opened Errors
  import opened Nullable

  /** The message of the exception group a failed validation raises. */
  const GroupMessage: string := "Configuration validation failed"

  /** The members of `args` other than `NoneType`, in order: the list
      comprehension of `get_single_non_none_type`. */
  function NonNoneTypes(args: seq<PyType>): (r: seq<PyType>)
    ensures forall x :: x in r <==> x in args && x != NoneT
    ensures |r| <= |args|
  {
    if args == [] then []
    else (if args[0] != NoneT then [args[0]] else []) + NonNoneTypes(args[1..])
  }

  /** `ExpectedType`: a declared annotation and the type validation actually
      checks against. */
  datatype ExpectedType = ExpectedType(expectedType: PyType)
  {
    /** `get_actual`: a nullable union with exactly one non-`None` member
        resolves to that member; anything else resolves to itself. */
    function GetActual(): PyType
    {
      if !IsNullableType(expectedType) then expectedType
      else if ArgsOf(expectedType) == NoArgs then expectedType
      else match GetTypeArgs()
        case None => expectedType
        case Some(args) => GetSingleNonNoneType(args, expectedType)
    }

    /** `_get_type_args`: `__args__` when it exists and is a tuple or list. */
    function GetTypeArgs(): Option<seq<PyType>>
    {
      match ArgsOf(expectedType)
      case ArgsItems(items) => Some(items)
      case _ => None
    }

    /** `get_single_non_none_type`. */
    static function GetSingleNonNoneType(args: seq<PyType>, fallback: PyType): PyType
    {
      var nonNone := NonNoneTypes(args);
      if |nonNone| == 1 then nonNone[0] else fallback
    }
  }

  /** What `get_actual` can return: the annotation itself, or a non-`None`
      member of a nullable union. */
  lemma GetActualResult(t: PyType)
    ensures var r := ExpectedType(t).GetActual();
      r == t || (IsNullableType(t) && r in ArgItems(ArgsOf(t)) && r != NoneT)
  {
    var r := ExpectedType(t).GetActual();
    if r != t {
      var args := ArgItems(ArgsOf(t));
      assert NonNoneTypes(args)[0] in NonNoneTypes(args);
    }
  }

  /** A non-nullable annotation, including a parameterised one such as
      `List[str]`, is returned unchanged. */
  lemma GetActualNonNullable(t: PyType)
    requires !IsNullableType(t)
    ensures ExpectedType(t).GetActual() == t
  {
  }

  /** `Optional[T]`, `Union[None, T]` and `T | None` resolve to `T`. */
  lemma {:induction false} GetActualOptional(t: PyType)
    requires t != NoneT
    ensures ExpectedType(Union([t, NoneT])).GetActual() == t
    ensures ExpectedType(Union([NoneT, t])).GetActual() == t
    ensures ExpectedType(PipeUnion([t, NoneT])).GetActual() == t
  {
    NonNoneOfPair(t);
    GetActualSingleMember([t, NoneT], t);
    GetActualSingleMember([NoneT, t], t);
  }

  /** A union, in either syntax, with `None` and exactly one other member
      resolves to that member. */
  lemma {:induction false} GetActualSingleMember(ms: seq<PyType>, t: PyType)
    requires NoneT in ms && NonNoneTypes(ms) == [t]
    ensures ExpectedType(Union(ms)).GetActual() == t
    ensures ExpectedType(PipeUnion(ms)).GetActual() == t
  {
  }

  /** The non-`None` members of `[t, None]` and `[None, t]`. */
  lemma {:induction false} NonNoneOfPair(t: PyType)
    requires t != NoneT
    ensures NonNoneTypes([t, NoneT]) == [t] && NonNoneTypes([NoneT, t]) == [t]
  {
    assert [t, NoneT][1..] == [NoneT];
    assert [NoneT][1..] == [];
    assert [NoneT, t][1..] == [t];
    assert [t][1..] == [];
  }

  /** A nullable union without exactly one non-`None` member falls back to
      the union itself. */
  lemma GetActualAmbiguous(t: PyType)
    requires |NonNoneTypes(ArgItems(ArgsOf(t)))| != 1
    ensures ExpectedType(t).GetActual() == t
  {
  }

  /** An annotation whose `__args__` is missing, `None` or not a tuple or list
      is returned unchanged. */
  lemma GetActualWithoutArgs(t: PyType)
    requires ExpectedType(t).GetTypeArgs().None?
    ensures ExpectedType(t).GetActual() == t
  {
  }

  /** A nullable annotation always has a tuple of arguments, so the two
      `__args__` guards of `get_actual` only matter for objects that merely
      claim to be nullable. */
  lemma NullableHasArgs(t: PyType)
    requires IsNullableType(t)
    ensures ArgsOf(t) != NoArgs && ExpectedType(t).GetTypeArgs().Some?
  {
  }

  /** Resolving twice is resolving once, for unions whose members are not
      themselves nullable unions (Python flattens nested unions). */
  lemma GetActualIdempotent(t: PyType)
    requires forall m :: m in ArgItems(ArgsOf(t)) ==> !IsNullableType(m)
    ensures ExpectedType(ExpectedType(t).GetActual()).GetActual() == ExpectedType(t).GetActual()
  {
    GetActualResult(t);
  }

  /** `Validation`: one document field, its value and its declared type. */
  datatype Validation = Validation(fieldName: string, yamlValue: Value, expectedType: PyType)
  {
    /** The resolved type. */
    function Actual(): PyType
    {
      ExpectedType(expectedType).GetActual()
    }

    /** `validate` calls `isinstance` and `__name__` on the resolved type
        exactly when it is not a dataclass and the value is not `None`; those
        calls are defined for plain classes only. */
    predicate Defined()
    {
      IsDataclassType(Actual()) || yamlValue == VNone || Checkable(Actual())
    }

    /** `validate`: a finding when the value is not an instance of the
        resolved type; dataclass types and `None` values always pass. */
    function Validate(): Option<Finding>
      requires Defined()
    {
      var actual := Actual();
      if IsDataclassType(actual) then None
      else if yamlValue != VNone && !IsInstance(yamlValue, actual) then
        Some(Finding(fieldName, TypeName(actual), ValueTypeName(yamlValue)))
      else None
    }

    /** `is_dataclass_type`. */
    static predicate IsDataclassType(t: PyType)
    {
      t.Record?
    }
  }

  /** A resolved dataclass type never yields a finding, whatever the value. */
  lemma DataclassAlwaysPasses(name: string, v: Value, t: PyType)
    requires Validation.IsDataclassType(ExpectedType(t).GetActual())
    ensures Validation(name, v, t).Defined() && Validation(name, v, t).Validate().None?
  {
  }

  /** A `None` value never yields a finding, even for a non-nullable type. */
  lemma NoneAlwaysPasses(name: string, t: PyType)
    ensures Validation(name, VNone, t).Defined() && Validation(name, VNone, t).Validate().None?
  {
  }

  /** A finding is produced exactly when the value is not an instance of the
      resolved type, and it names the field, the resolved type and the
      value's own type. */
  lemma FindingIffNotInstance(name: string, v: Value, t: PyType)
    requires Checkable(ExpectedType(t).GetActual()) && !ExpectedType(t).GetActual().Record?
    ensures var actual := ExpectedType(t).GetActual();
      Validation(name, v, t).Validate().Some? <==> (v != VNone && !IsInstance(v, actual))
    ensures var actual := ExpectedType(t).GetActual();
      Validation(name, v, t).Validate().Some? ==>
        Validation(name, v, t).Validate().value == Finding(name, TypeName(actual), ValueTypeName(v))
    ensures var actual := ExpectedType(t).GetActual();
      Validation(name, v, t).Validate().Some? <==> (v != VNone && TypeName(actual) !in MroOf(v))
  {
  }

  /** A field annotated `object` accepts every value: every class derives
      from `object`. */
  lemma EveryValueIsObject(name: string, v: Value, a: ArgsAttr)
    ensures Validation(name, v, Other("object", a)).Validate().None?
  {
  }

  /** A value of a subclass passes a field annotated with any of its bases:
      a `datetime` passes a `date` field, a `bool` an `int` field. */
  lemma SubclassPasses(name: string, v: Value, t: PyType)
    requires Checkable(t) && !t.Record? && !IsNullableType(t)
    requires TypeName(t) in BasesOf(v)
    ensures Validation(name, v, t).Validate().None?
  {
  }

  /** A `datetime` value passes a `date` field and fails a `str` field,
      whose finding names the value's own class. */
  lemma DatetimeExample(attrs: map<string, Value>)
    ensures Validation("c", VObject("datetime", ["date"], attrs), Other("date", NoArgs)).Validate().None?
    ensures Validation("c", VObject("datetime", ["date"], attrs), StrT).Validate() == Some(Finding("c", "str", "datetime"))
  {
    assert "str" != "datetime" && "str" != "date" && "str" != "object";
  }

  /** `Optional[T]` validates every value exactly as `T` does, so its
      findings name `T`, never the union. */
  lemma {:induction false} OptionalValidatesAsInner(name: string, v: Value, t: PyType)
    requires t != NoneT && !IsNullableType(t)
    ensures Validation(name, v, Union([t, NoneT])).Defined() == Validation(name, v, t).Defined()
    ensures Validation(name, v, Union([t, NoneT])).Defined() ==>
      Validation(name, v, Union([t, NoneT])).Validate() == Validation(name, v, t).Validate()
  {
    GetActualOptional(t);
    GetActualNonNullable(t);
  }

  /** A `bool` value passes an `int` field, because `bool` subclasses `int`. */
  lemma BoolPassesAsInt(name: string, b: bool)
    ensures Validation(name, VBool(b), IntT).Validate().None?
  {
  }

  /** An `Optional[int]` field accepts `5` and rejects `"5"` with the message
      `Field 'n' expected int, got str`. */
  lemma OptionalIntExample()
    ensures Validation("n", VInt(5), Union([IntT, NoneT])).Validate().None?
    ensures Validation("n", VStr("5"), Union([IntT, NoneT])).Validate() == Some(Finding("n", "int", "str"))
  {
    OptionalValidatesAsInner("n", VInt(5), IntT);
    OptionalValidatesAsInner("n", VStr("5"), IntT);
  }

  /** Every validation in `vs` can be run. */
  predicate AllDefined(vs: seq<Validation>)
  {
    forall i :: 0 <= i < |vs| ==> vs[i].Defined()
  }

  /** Every hinted entry of `doc` can be validated. */
  predicate DocumentDefined(doc: Document, hints: map<string, PyType>)
  {
    forall i :: 0 <= i < |doc| && doc[i].0 in hints ==> Validation(doc[i].0, doc[i].1, hints[doc[i].0]).Defined()
  }

  /** The generator of `YamlFieldValidations.__init__`: one validation per
      document entry that has a type hint, in document order. */
  function FieldValidations(doc: Document, hints: map<string, PyType>): (r: seq<Validation>)
    ensures DocumentDefined(doc, hints) ==> AllDefined(r)
    ensures |r| <= |doc|
  {
    if doc == [] then []
    else
      (if doc[0].0 in hints then [Validation(doc[0].0, doc[0].1, hints[doc[0].0])] else [])
      + FieldValidations(doc[1..], hints)
  }

  /** The finding of one validation, as a list of zero or one element. */
  function FindingOf(v: Validation): seq<Finding>
    requires v.Defined()
  {
    match v.Validate()
    case Some(f) => [f]
    case None => []
  }

  /** The error list `YamlFieldValidations.validate` collects: the findings
      of all validations, in order. */
  function FindingsOf(vs: seq<Validation>): seq<Finding>
    requires AllDefined(vs)
  {
    if vs == [] then [] else FindingOf(vs[0]) + FindingsOf(vs[1..])
  }

  /** The exception group raised for a non-empty error list. */
  function GroupOf(findings: seq<Finding>): Option<Error>
  {
    if findings == [] then None else Some(ValidationFailed(GroupMessage, findings))
  }

  /** `validate_config_if_needed` skips validation when the hints are empty
      or name only `FILE_PATH`. */
  predicate NeedsValidation(hints: map<string, PyType>)
  {
    |hints| != 0 && hints.Keys - {FilePathName} != {}
  }

  /** The outcome of `validate_config_if_needed`: `None`, or the group of
      every finding. */
  function ConfigValidation(doc: Document, hints: map<string, PyType>): Option<Error>
    requires NeedsValidation(hints) ==> DocumentDefined(doc, hints)
  {
    if !NeedsValidation(hints) then None
    else GroupOf(FindingsOf(FieldValidations(doc, hints)))
  }

  /** The finding, if any, for one hinted document entry. */
  function EntryFinding(entry: (string, Value), hints: map<string, PyType>): Option<Finding>
    requires entry.0 in hints && Validation(entry.0, entry.1, hints[entry.0]).Defined()
  {
    Validation(entry.0, entry.1, hints[entry.0]).Validate()
  }

  lemma {:induction false} FindingsOfConcat(a: seq<Validation>, b: seq<Validation>)
    requires AllDefined(a) && AllDefined(b)
    ensures AllDefined(a + b) && FindingsOf(a + b) == FindingsOf(a) + FindingsOf(b)
  {
    AllDefinedConcat(a, b);
    if a == [] {
      EmptyConcat(a, b);
    } else {
      ConsConcat(a, b);
      FindingsOfConcat(a[1..], b);
      AppendAssociative(FindingOf(a[0]), FindingsOf(a[1..]), FindingsOf(b));
    }
  }

  /** Sequence facts kept apart from the validations, so that proving them
      does not unfold `Defined` at every index. */
  lemma EmptyConcat<T>(a: seq<T>, b: seq<T>)
    requires a == []
    ensures a + b == b
  {
  }

  lemma ConsConcat<T>(a: seq<T>, b: seq<T>)
    requires a != []
    ensures (a + b)[0] == a[0] && (a + b)[1..] == a[1..] + b
  {
  }

  lemma AppendAssociative<T>(x: seq<T>, y: seq<T>, z: seq<T>)
    ensures x + (y + z) == (x + y) + z
  {
  }

  lemma AllDefinedConcat(a: seq<Validation>, b: seq<Validation>)
    requires AllDefined(a) && AllDefined(b)
    ensures AllDefined(a + b)
  {
    forall i | 0 <= i < |a + b|
      ensures (a + b)[i].Defined()
    {
      if i < |a| {
        assert (a + b)[i] == a[i];
      } else {
        assert (a + b)[i] == b[i - |a|];
      }
    }
  }

  /** The findings of a document are exactly the findings of its hinted
      entries: every mismatching hinted entry is reported, and every
      reported finding comes from a mismatching hinted entry. Unhinted keys
      are never looked at. */
  lemma {:induction false} DocumentFindings(doc: Document, hints: map<string, PyType>)
    requires DocumentDefined(doc, hints)
    ensures forall i :: 0 <= i < |doc| && doc[i].0 in hints && EntryFinding(doc[i], hints).Some? ==>
      EntryFinding(doc[i], hints).value in FindingsOf(FieldValidations(doc, hints))
    ensures forall f :: f in FindingsOf(FieldValidations(doc, hints)) ==>
      exists i :: 0 <= i < |doc| && doc[i].0 in hints && EntryFinding(doc[i], hints) == Some(f)
  {
    if doc != [] {
      var rest := doc[1..];
      assert DocumentDefined(rest, hints) by {
        forall i | 0 <= i < |rest| && rest[i].0 in hints
          ensures Validation(rest[i].0, rest[i].1, hints[rest[i].0]).Defined()
        {
          assert rest[i] == doc[i + 1];
        }
      }
      DocumentFindings(rest, hints);
      var head := if doc[0].0 in hints then [Validation(doc[0].0, doc[0].1, hints[doc[0].0])] else [];
      assert FieldValidations(doc, hints) == head + FieldValidations(rest, hints);
      FindingsOfConcat(head, FieldValidations(rest, hints));
      var fs := FindingsOf(FieldValidations(doc, hints));
      assert doc[0].0 in hints ==> FindingsOf(head) == FindingOf(head[0]) + FindingsOf([]) by {
        if doc[0].0 in hints { assert head[1..] == []; }
      }
      forall i | 0 <= i < |doc| && doc[i].0 in hints && EntryFinding(doc[i], hints).Some?
        ensures EntryFinding(doc[i], hints).value in fs
      {
        if i > 0 {
          assert doc[i] == rest[i - 1];
        }
      }
      forall f | f in fs
        ensures exists i :: 0 <= i < |doc| && doc[i].0 in hints && EntryFinding(doc[i], hints) == Some(f)
      {
        if f in FindingsOf(head) {
          assert EntryFinding(doc[0], hints) == Some(f);
        } else {
          assert f in FindingsOf(FieldValidations(rest, hints));
          var j :| 0 <= j < |rest| && rest[j].0 in hints && EntryFinding(rest[j], hints) == Some(f);
          assert doc[j + 1] == rest[j];
        }
      }
    }
  }

  /** Validation fails exactly when some hinted document entry has a value of
      the wrong type (and there is something besides `FILE_PATH` to check);
      the failure then carries every finding. */
  lemma ValidationFailsIffMismatch(doc: Document, hints: map<string, PyType>)
    requires NeedsValidation(hints) && DocumentDefined(doc, hints)
    ensures ConfigValidation(doc, hints).Some? <==>
      exists i :: 0 <= i < |doc| && doc[i].0 in hints && EntryFinding(doc[i], hints).Some?
    ensures ConfigValidation(doc, hints).Some? ==>
      ConfigValidation(doc, hints) == Some(ValidationFailed(GroupMessage, FindingsOf(FieldValidations(doc, hints))))
  {
    DocumentFindings(doc, hints);
    var fs := FindingsOf(FieldValidations(doc, hints));
    if fs != [] {
      assert fs[0] in fs;
    }
  }

  /** `FILE_PATH` is validated like any other field once there is another
      hint, and ignored when it is the only one. */
  lemma FilePathValidation(v: Value, t: PyType, other: string, ot: PyType)
    requires other != FilePathName
    requires Validation(FilePathName, v, StrT).Validate().Some?
    ensures ConfigValidation([(FilePathName, v)], map[FilePathName := StrT]).None?
    ensures ConfigValidation([(FilePathName, v)], map[FilePathName := StrT, other := ot]).Some?
  {
    var hints := map[FilePathName := StrT, other := ot];
    var doc := [(FilePathName, v)];
    assert other in hints.Keys - {FilePathName};
    ValidationFailsIffMismatch(doc, hints);
    assert EntryFinding(doc[0], hints).Some?;
  }

  /** A document `{name: 123, age: "x", active: "y"}` against `str`, `int`
      and `bool` hints: three wrongly typed fields
      give one group with three findings, in document order. */
  lemma ThreeFindingsExample()
    ensures ConfigValidation(ExampleDocument(), ExampleHints()) == Some(ValidationFailed(GroupMessage,
      [Finding("name", "str", "int"), Finding("age", "int", "str"), Finding("active", "bool", "str")]))
  {
    var hints := ExampleHints();
    assert "name" in hints.Keys - {FilePathName};
    ExampleValidations();
    ExampleFindings();
  }

  function ExampleDocument(): Document
  {
    [("name", VInt(123)), ("age", VStr("x")), ("active", VStr("y"))]
  }

  function ExampleHints(): map<string, PyType>
  {
    map["name" := StrT, "age" := IntT, "active" := BoolT]
  }

  lemma ExampleValidations()
    ensures FieldValidations(ExampleDocument(), ExampleHints()) ==
      [Validation("name", VInt(123), StrT), Validation("age", VStr("x"), IntT), Validation("active", VStr("y"), BoolT)]
  {
    var doc := ExampleDocument();
    assert doc[1..] == [("age", VStr("x")), ("active", VStr("y"))];
    assert doc[1..][1..] == [("active", VStr("y"))];
    assert doc[1..][1..][1..] == [];
  }

  lemma ExampleFindings()
    ensures FindingsOf([Validation("name", VInt(123), StrT), Validation("age", VStr("x"), IntT), Validation("active", VStr("y"), BoolT)]) ==
      [Finding("name", "str", "int"), Finding("age", "int", "str"), Finding("active", "bool", "str")]
  {
    var vs := [Validation("name", VInt(123), StrT), Validation("age", VStr("x"), IntT), Validation("active", VStr("y"), BoolT)];
    assert vs[1..] == [Validation("age", VStr("x"), IntT), Validation("active", VStr("y"), BoolT)];
    assert vs[1..][1..] == [Validation("active", VStr("y"), BoolT)];
    assert vs[1..][1..][1..] == [];
  }

  /** `YamlFieldValidations`: the document's validations held as a one-shot
      generator that `Validate` consumes. */
  class YamlFieldValidations {
    /** The validations the generator has not yet produced. */
    var validations: seq<Validation>

    constructor (dictionaryConfig: Document, typeHints: map<string, PyType>)
      ensures validations == FieldValidations(dictionaryConfig, typeHints)
    {
      validations := FieldValidations(dictionaryConfig, typeHints);
    }

    /** `validate`: runs every pending validation, collects the findings in
        order and reports them as one group when there is at least one. The
        generator is exhausted afterwards, so a second call reports nothing. */
    method Validate() returns (err: Option<Error>)
      requires AllDefined(validations)
      modifies this
      ensures validations == []
      ensures err == GroupOf(FindingsOf(old(validations)))
    {
      var pending := validations;
      var errors: seq<Finding> := [];
      while pending != []
        invariant AllDefined(pending)
        invariant errors + FindingsOf(pending) == FindingsOf(validations)
        decreases |pending|
      {
        errors := errors + FindingOf(pending[0]);
        pending := pending[1..];
      }
      assert errors == FindingsOf(validations);
      validations := pending;
      if errors != [] {
        err := Some(ValidationFailed(GroupMessage, errors));
      } else {
        err := None;
      }
    }
  }

  /** `validate_config_if_needed`. */
  method ValidateConfigIfNeeded(dictionaryConfig: Document, typeHints: map<string, PyType>) returns (err: Option<Error>)
    requires NeedsValidation(typeHints) ==> DocumentDefined(dictionaryConfig, typeHints)
    ensures err == ConfigValidation(dictionaryConfig, typeHints)
  {
    if !NeedsValidation(typeHints) {
      return None;
    }
    var validations := new YamlFieldValidations(dictionaryConfig, typeHints);
    err := validations.Validate();
  }
}
