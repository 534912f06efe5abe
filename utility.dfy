/** Path building (`utility.py`): joining onto the current directory, taking
    a path as given, and the `FILE_PATH` field built from it. Paths are
    `pathlib.PurePosixPath` values: parsing splits on `/`, drops empty and
    `.` parts and keeps `..`. */
module Utility {
  import opened Wrappers
  import opened Values
  import opened FieldProcessor

  /** `s.split("/")`. */
  function Split(s: string): (r: seq<string>)
    ensures |r| >= 1
  {
    if s == [] then [""]
    else
      var rest := Split(s[1..]);
      if s[0] == '/' then [""] + rest else [[s[0]] + rest[0]] + rest[1..]
  }

  /** The parts that survive parsing: empty parts (from repeated or trailing
      slashes) and `.` are dropped; `..` is kept. */
  function KeepParts(segments: seq<string>): seq<string>
  {
    if segments == [] then []
    else (if segments[0] == "" || segments[0] == "." then [] else [segments[0]]) + KeepParts(segments[1..])
  }

  /** `Path(s)` for a string: absolute when it starts with `/`. */
  function ParsePath(s: string): Path
  {
    Path(|s| > 0 && s[0] == '/', KeepParts(Split(s)))
  }

  /** `"/".join(parts)`. */
  function JoinSlash(parts: seq<string>): string
  {
    if parts == [] then ""
    else if |parts| == 1 then parts[0]
    else parts[0] + "/" + JoinSlash(parts[1..])
  }

  /** `str(p)`: `.` for the empty relative path. */
  function Render(p: Path): string
  {
    if p.absolute then "/" + JoinSlash(p.parts)
    else if p.parts == [] then "."
    else JoinSlash(p.parts)
  }

  /** A part parsing can produce: not empty, not `.`, without `/`. */
  predicate WellFormedPart(x: string)
  {
    x != "" && x != "." && '/' !in x
  }

  /** A path whose parts are all well formed, as every parsed path is. */
  predicate WellFormed(p: Path)
  {
    forall i :: 0 <= i < |p.parts| ==> WellFormedPart(p.parts[i])
  }

  /** `base / rel`: an absolute right-hand side replaces the base. */
  function Join(base: Path, rel: Path): Path
  {
    if rel.absolute then rel else Path(base.absolute, base.parts + rel.parts)
  }

  /** The `Path | str` argument as a path. */
  function AsPath(path: PathLike): Path
  {
    match path
    case StrPath(s) => ParsePath(s)
    case PathObj(p) => p
  }

  /** `build_path`: joined onto `cwd` (the result of `Path.cwd()`) unless the
      flag says absolute; with the flag, a string is parsed and a path is
      returned as it is. The flag does not check that the path is absolute. */
  function BuildPath(path: PathLike, pathIsAbsolute: bool, cwd: Path): Path
  {
    if !pathIsAbsolute then Join(cwd, AsPath(path))
    else match path
      case StrPath(s) => ParsePath(s)
      case PathObj(p) => p
  }

  /** The `dataclasses_json` metadata that makes marshmallow treat the field
      as a `Path`. */
  const PathMetadata: Metadata := MarshmallowField("Path")

  /** `create_file_path_field`. */
  function CreateFilePathField(path: PathLike, pathIsAbsolute: bool, cwd: Path): (f: Field)
    ensures f.default == Some(VPath(BuildPath(path, pathIsAbsolute, cwd)))
    ensures !f.init && f.metadata == PathMetadata && f.defaultFactory.None?
    ensures IsAlreadyProcessed(f)
  {
    Field(Some(VPath(BuildPath(path, pathIsAbsolute, cwd))), None, false, PathMetadata)
  }

  lemma {:induction false} SplitWithoutSlash(a: string)
    requires '/' !in a
    ensures Split(a) == [a]
  {
    if a != [] {
      SplitWithoutSlash(a[1..]);
      assert a[0] != '/' by {
        assert a[0] in a;
      }
      assert [a[0]] + a[1..] == a;
    }
  }

  lemma {:induction false} SplitAtSlash(a: string, b: string)
    requires '/' !in a
    ensures Split(a + "/" + b) == [a] + Split(b)
  {
    var s := a + "/" + b;
    if a == [] {
      assert s[1..] == b;
    } else {
      assert s[1..] == a[1..] + "/" + b;
      SplitAtSlash(a[1..], b);
      assert s[0] == a[0] && a[0] != '/' by {
        assert a[0] in a;
      }
      assert [a[0]] + a[1..] == a;
    }
  }

  lemma {:induction false} SplitJoin(parts: seq<string>)
    requires |parts| >= 1
    requires forall i :: 0 <= i < |parts| ==> '/' !in parts[i]
    ensures Split(JoinSlash(parts)) == parts
  {
    if |parts| == 1 {
      SplitWithoutSlash(parts[0]);
    } else {
      SplitAtSlash(parts[0], JoinSlash(parts[1..]));
      SplitJoin(parts[1..]);
    }
  }

  lemma {:induction false} KeepWellFormed(parts: seq<string>)
    requires forall i :: 0 <= i < |parts| ==> WellFormedPart(parts[i])
    ensures KeepParts(parts) == parts
  {
    if parts != [] {
      KeepWellFormed(parts[1..]);
    }
  }

  /** Rendering a well-formed path and parsing the text gives the path back. */
  lemma {:induction false} ParseRender(p: Path)
    requires WellFormed(p)
    ensures ParsePath(Render(p)) == p
  {
    if p.parts != [] {
      SplitJoin(p.parts);
      KeepWellFormed(p.parts);
    }
    if p.absolute {
      SplitAtSlash("", JoinSlash(p.parts));
      assert "" + "/" + JoinSlash(p.parts) == Render(p);
      if p.parts == [] {
        assert Render(p) == "/";
        assert Split("/") == ["", ""] by {
          assert "/"[1..] == [];
        }
        assert KeepParts(["", ""]) == [] by {
          assert ["", ""][1..] == [""];
          assert [""][1..] == [];
        }
      } else {
        assert KeepParts([""] + p.parts) == KeepParts(p.parts) by {
          assert ([""] + p.parts)[1..] == p.parts;
        }
      }
    } else if p.parts == [] {
      assert Split(".") == ["."] by {
        assert "."[1..] == [];
        assert Split([]) == [""];
        assert ['.'] + "" == ".";
      }
      assert KeepParts(["."]) == [] by {
        assert ["."][1..] == [];
      }
    } else {
      assert Render(p)[0] == p.parts[0][0] by {
        JoinSlashHead(p.parts);
      }
    }
  }

  lemma {:induction false} JoinSlashHead(parts: seq<string>)
    requires |parts| >= 1 && parts[0] != ""
    ensures |JoinSlash(parts)| > 0 && JoinSlash(parts)[0] == parts[0][0]
  {
  }

  lemma {:induction false} JoinSlashSnoc(parts: seq<string>, x: string)
    requires |parts| >= 1
    ensures JoinSlash(parts + [x]) == JoinSlash(parts) + "/" + x
  {
    if |parts| == 1 {
      assert (parts + [x])[1..] == [x];
    } else {
      assert (parts + [x])[1..] == parts[1..] + [x];
      JoinSlashSnoc(parts[1..], x);
    }
  }

  /** A single well-formed name parses to a one-part relative path. */
  lemma ParseName(name: string)
    requires WellFormedPart(name)
    ensures ParsePath(name) == Path(false, [name])
  {
    ParseRender(Path(false, [name]));
  }

  /** Without the flag, the result is `cwd` joined with the path, for a
      string and for a path alike; `..` parts are kept, not resolved. */
  lemma BuildPathRelative(path: PathLike, cwd: Path)
    requires !AsPath(path).absolute
    ensures BuildPath(path, false, cwd) == Path(cwd.absolute, cwd.parts + AsPath(path).parts)
    ensures path.StrPath? ==> BuildPath(path, false, cwd) == BuildPath(PathObj(ParsePath(path.s)), false, cwd)
  {
  }

  /** Without the flag, an absolute path (or text starting with `/`) still
      comes out as itself: `cwd / path` keeps only the right-hand side, so
      the flag makes no difference. */
  lemma BuildPathAbsoluteWithoutFlag(path: PathLike, cwd: Path)
    requires AsPath(path).absolute
    ensures BuildPath(path, false, cwd) == AsPath(path) == BuildPath(path, true, cwd)
  {
  }

  /** `build_path("/etc/app/config.yml")` ignores `cwd`. */
  lemma {:induction false} AbsoluteTextIgnoresCwd(cwd: Path)
    ensures BuildPath(StrPath("/etc/app/config.yml"), false, cwd) == Path(true, ["etc", "app", "config.yml"])
  {
    ParseRender(Path(true, ["etc", "app", "config.yml"]));
    assert Render(Path(true, ["etc", "app", "config.yml"])) == "/etc/app/config.yml";
  }

  /** `build_path("../config.yml")` is `cwd / ".." / "config.yml"`. */
  lemma DotDotKept(cwd: Path)
    ensures BuildPath(StrPath("../config.yml"), false, cwd) == Path(cwd.absolute, cwd.parts + ["..", "config.yml"])
  {
    ParseRender(Path(false, ["..", "config.yml"]));
    assert Render(Path(false, ["..", "config.yml"])) == "../config.yml";
  }

  /** With the flag, a path is returned unchanged, so building an absolute
      path from a built path changes nothing; a string gives the same path
      as its parsed form. */
  lemma BuildPathAbsolute(path: PathLike, cwd: Path)
    ensures BuildPath(PathObj(BuildPath(path, true, cwd)), true, cwd) == BuildPath(path, true, cwd)
    ensures BuildPath(path, true, cwd) == AsPath(path)
  {
  }

  /** The text of `cwd` followed by `/name`, taken as absolute, is the same
      path as `name` joined onto `cwd`. */
  lemma {:induction false} AbsoluteTextMatchesJoin(cwd: Path, name: string)
    requires cwd.absolute && WellFormed(cwd) && |cwd.parts| > 0 && WellFormedPart(name)
    ensures BuildPath(StrPath(Render(cwd) + "/" + name), true, cwd) == BuildPath(StrPath(name), false, cwd)
  {
    var joined := Path(true, cwd.parts + [name]);
    JoinSlashSnoc(cwd.parts, name);
    assert Render(cwd) + "/" + name == Render(joined);
    ParseRender(joined);
    ParseRender(Path(false, [name]));
  }

  /** The field `create_file_path_field` builds is never given an automatic
      default and never receives a constructor argument. */
  lemma FilePathFieldUntouched(path: PathLike, pathIsAbsolute: bool, cwd: Path, fields: map<string, Field>,
                               hints: map<string, PyType>, k: string)
    requires k in fields && fields[k] == CreateFilePathField(path, pathIsAbsolute, cwd)
    ensures AutoDefaults(fields, hints)[k] == fields[k]
    ensures !fields[k].init
  {
  }
}
