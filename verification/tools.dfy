/**
  The tool side of `Agent`: the advertised schema, the `write_file` tool and
  the dispatch from a finalised tool call to its handler.
*/
module Tools {
  import opened Base
  import opened Paths
  import opened Messages

  datatype Property = Property(name: string, jsonType: string)

  /** One entry of the `tools` list passed to the completion call. */
  datatype ToolSchema = ToolSchema(name: string, properties: seq<Property>, required: seq<string>)

  const WriteFileSchema: ToolSchema :=
    ToolSchema("write_file", [Property("filename", "string"), Property("content", "string")], ["filename", "content"])

  /** The tools advertised to the model. */
  const Schemas: seq<ToolSchema> := [WriteFileSchema]

  predicate Advertised(name: string) {
    exists i :: 0 <= i < |Schemas| && Schemas[i].name == name
  }

  /** What `write_file` returns on success. */
  const Written: string := "true"

  datatype Node = File(content: string) | Directory

  /** The file system, keyed by resolved absolute path. */
  type FileSystem = map<Path, Node>

  /** A handler's effect: the file system afterwards, and its return value or exception. */
  datatype Effect = Effect(fs: FileSystem, result: Result<string, Error>)

  /** Whether `open(p, "w")` meets a directory. */
  predicate IsDirectoryAt(cwd: Path, fs: FileSystem, p: Path) {
    p == cwd || (p in fs && fs[p].Directory?)
  }

  /** The text of a JSON string, or `None` for a missing key or a value of another type. */
  function StringOf(v: Option<Json>): Option<string> {
    if v.Some? && v.value.JString? then Some(v.value.text) else None
  }

  /**
    `_tool_write_file(filename, content)` with the process working directory `cwd`.
    The target is checked before anything is opened; a content that is not a
    string fails only after `open` has created or truncated the target.
  */
  function WriteFile(cwd: Path, fs: FileSystem, filename: Option<Json>, content: Option<Json>): (e: Effect)
    ensures e.result.Success? ==> e.result.value == Written
    ensures e.result.Failure? ==> !e.result.error.UnknownTool?
  {
    match StringOf(filename)
    case None => Effect(fs, Failure(NotAString("filename")))
    case Some(name) =>
      var target := Resolve(cwd, name);
      if Parent(target) != cwd then Effect(fs, Failure(PathEscape))
      else if IsDirectoryAt(cwd, fs, target) then Effect(fs, Failure(IsADirectory))
      else
        match StringOf(content)
        case None => Effect(fs[target := File("")], Failure(NotAString("content")))
        case Some(text) => Effect(fs[target := File(text)], Success(Written))
  }

  /**
    `write_file` succeeds exactly when the target is a child of the working
    directory that is not a directory and the content is a string; it then
    writes that one file. A refused target changes nothing, and whatever
    changes is a direct child of the working directory.
  */
  lemma WriteFileContract(cwd: Path, fs: FileSystem, filename: Option<Json>, content: Option<Json>)
    ensures var e := WriteFile(cwd, fs, filename, content);
      && (e.result.Success? <==>
            StringOf(filename).Some? && DirectlyInside(cwd, StringOf(filename).value)
            && !IsDirectoryAt(cwd, fs, Resolve(cwd, StringOf(filename).value))
            && StringOf(content).Some?)
      && (e.result.Success? ==>
            e.fs == fs[Resolve(cwd, StringOf(filename).value) := File(StringOf(content).value)])
      && (StringOf(filename).Some? && !DirectlyInside(cwd, StringOf(filename).value) ==>
            e == Effect(fs, Failure(PathEscape)))
      && (e.fs != fs ==>
            StringOf(filename).Some?
            && var target := Resolve(cwd, StringOf(filename).value);
               |target| == |cwd| + 1 && target[..|cwd|] == cwd
               && e.fs == fs[target := File(if StringOf(content).Some? then StringOf(content).value else "")])
  {
    if StringOf(filename).Some? {
      DirectlyInsideMeansChild(cwd, StringOf(filename).value);
    }
  }

  /**
    One tool call of a finalised message: parse the arguments, then look the
    function name up; `write_file` is the only handler.
  */
  function Dispatch(cwd: Path, fs: FileSystem, call: ToolCall): (e: Effect)
    ensures e.result.Success? ==> e.result.value == Written
  {
    match call.arguments
    case Unparsable => Effect(fs, Failure(ArgumentParseError))
    case _ =>
      if call.name != WriteFileSchema.name then Effect(fs, Failure(UnknownTool(call.name)))
      else
        match call.arguments
        case Object(fields) => WriteFile(cwd, fs, Get(fields, "filename"), Get(fields, "content"))
        case _ => Effect(fs, Failure(ArgumentsNotAnObject))
  }

  /**
    Arguments are parsed before the name is looked up; the only name that does
    not raise `invalid tool` is the one the schema advertises, and a call to
    any other name leaves the file system alone.
  */
  lemma DispatchContract(cwd: Path, fs: FileSystem, call: ToolCall)
    ensures var e := Dispatch(cwd, fs, call);
      && (call.arguments.Unparsable? ==> e == Effect(fs, Failure(ArgumentParseError)))
      && (!call.arguments.Unparsable? ==>
            (e.result == Failure(UnknownTool(call.name)) <==> !Advertised(call.name)))
      && (!Advertised(call.name) ==> e.fs == fs)
      && (e.result.Success? ==> Advertised(call.name))
  {
    assert Schemas[0].name == WriteFileSchema.name;
  }

  /**
    The handler of the advertised tool reads exactly the schema's required keys,
    and those are its two string properties.
  */
  lemma HandlerReadsSchemaKeys(cwd: Path, fs: FileSystem, id: string, fields: map<string, Json>)
    ensures WriteFileSchema.required == [WriteFileSchema.properties[0].name, WriteFileSchema.properties[1].name]
    ensures forall p :: p in WriteFileSchema.properties ==> p.jsonType == "string"
    ensures Dispatch(cwd, fs, ToolCall(id, WriteFileSchema.name, Object(fields)))
         == WriteFile(cwd, fs, Get(fields, WriteFileSchema.required[0]), Get(fields, WriteFileSchema.required[1]))
  {
  }

  /** The arguments the schema asks for: `{"filename": name, "content": text}`. */
  function WriteArgs(name: string, text: string): Arguments {
    Object(map[WriteFileSchema.required[0] := JString(name), WriteFileSchema.required[1] := JString(text)])
  }

  /** A `write_file` call with well-formed arguments reaches the handler. */
  lemma DispatchWrite(cwd: Path, fs: FileSystem, id: string, name: string, text: string)
    ensures Dispatch(cwd, fs, ToolCall(id, "write_file", WriteArgs(name, text)))
         == WriteFile(cwd, fs, Some(JString(name)), Some(JString(text)))
  {
    var fields := map["filename" := JString(name), "content" := JString(text)];
    assert Get(fields, "filename") == Some(JString(name));
    assert Get(fields, "content") == Some(JString(text));
  }

  /** A `write_file` call whose target passes the check writes exactly that file. */
  lemma WriteAccepted(cwd: Path, fs: FileSystem, id: string, name: string, text: string)
    requires DirectlyInside(cwd, name) && !IsDirectoryAt(cwd, fs, Resolve(cwd, name))
    ensures Dispatch(cwd, fs, ToolCall(id, "write_file", WriteArgs(name, text)))
         == Effect(fs[Resolve(cwd, name) := File(text)], Success(Written))
  {
    DispatchWrite(cwd, fs, id, name, text);
    WriteFileContract(cwd, fs, Some(JString(name)), Some(JString(text)));
  }

  /** A `write_file` call whose target fails the check changes nothing. */
  lemma WriteRefused(cwd: Path, fs: FileSystem, id: string, name: string, text: string)
    requires !DirectlyInside(cwd, name)
    ensures Dispatch(cwd, fs, ToolCall(id, "write_file", WriteArgs(name, text)))
         == Effect(fs, Failure(PathEscape))
  {
    DispatchWrite(cwd, fs, id, name, text);
    WriteFileContract(cwd, fs, Some(JString(name)), Some(JString(text)));
  }

  /** A name that resolves to a new entry of the working directory writes that entry. */
  lemma WriteChild(cwd: Path, fs: FileSystem, id: string, name: string, text: string, child: string)
    requires Resolve(cwd, name) == cwd + [child]
    requires cwd + [child] !in fs || fs[cwd + [child]].File?
    ensures Dispatch(cwd, fs, ToolCall(id, "write_file", WriteArgs(name, text)))
         == Effect(fs[cwd + [child] := File(text)], Success(Written))
  {
    var target := cwd + [child];
    assert Parent(target) == cwd by {
      assert target[..|cwd|] == cwd;
    }
    assert target != cwd by {
      assert |target| != |cwd|;
    }
    WriteAccepted(cwd, fs, id, name, text);
  }

  /** A plain name such as `a.txt` writes that file in the working directory. */
  lemma WritePlainName(cwd: Path, fs: FileSystem, id: string, f: string, text: string)
    requires ProperName(f)
    requires cwd + [f] !in fs || fs[cwd + [f]].File?
    ensures Dispatch(cwd, fs, ToolCall(id, "write_file", WriteArgs(f, text)))
         == Effect(fs[cwd + [f] := File(text)], Success(Written))
  {
    ResolvePlain(cwd, f);
    WriteChild(cwd, fs, id, f, text, f);
  }

  /** `sub/../a.txt` climbs back in and writes `a.txt` in the working directory. */
  lemma WriteClimbingBackIn(cwd: Path, fs: FileSystem, id: string, d: string, f: string, text: string)
    requires ProperName(d) && ProperName(f)
    requires cwd + [f] !in fs || fs[cwd + [f]].File?
    ensures Dispatch(cwd, fs, ToolCall(id, "write_file", WriteArgs(d + "/../" + f, text)))
         == Effect(fs[cwd + [f] := File(text)], Success(Written))
  {
    ResolveClimbBack(cwd, d, f);
    WriteChild(cwd, fs, id, d + "/../" + f, text, f);
  }

  /** Below any working directory but the root, `../evil.txt` is refused and nothing is written. */
  lemma WriteClimbingOut(cwd: Path, fs: FileSystem, id: string, f: string, text: string)
    requires cwd != [] && ProperName(f)
    ensures Dispatch(cwd, fs, ToolCall(id, "write_file", WriteArgs("../" + f, text)))
         == Effect(fs, Failure(PathEscape))
  {
    SplitSingle(f);
    assert Named([f]) == [f];
    ClimbingOutEscapes(cwd, f);
    WriteRefused(cwd, fs, id, "../" + f, text);
  }

  /** At the root, `..` stays at the root, so `../evil.txt` is written there. */
  lemma WriteClimbingOutOfRoot(fs: FileSystem, id: string, f: string, text: string)
    requires ProperName(f)
    requires [f] !in fs || fs[[f]].File?
    ensures Dispatch([], fs, ToolCall(id, "write_file", WriteArgs("../" + f, text)))
         == Effect(fs[[f] := File(text)], Success(Written))
  {
    SplitSingle(f);
    SplitAtSlash("..", f);
    assert ".." + "/" + f == "../" + f;
    assert Split("../" + f) == ["..", f];
    assert Normalize([], ["..", f]) == Normalize(Parent([]), [f]);
    assert Normalize([], [f]) == Normalize([f], []);
    WriteChild([], fs, id, "../" + f, text, f);
  }

  /** A file in a subdirectory, such as `sub/x`, is refused. */
  lemma WriteIntoSubdirectory(cwd: Path, fs: FileSystem, id: string, d: string, f: string, text: string)
    requires ProperName(d) && ProperName(f)
    ensures Dispatch(cwd, fs, ToolCall(id, "write_file", WriteArgs(d + "/" + f, text)))
         == Effect(fs, Failure(PathEscape))
  {
    ResolveNested(cwd, d, f);
    assert Parent(cwd + [d, f]) == cwd + [d];
    assert |cwd + [d]| != |cwd|;
    WriteRefused(cwd, fs, id, d + "/" + f, text);
  }

  /**
    `.` names the working directory itself: refused by the containment test,
    except at the root, whose parent is itself, where the write finds a directory.
  */
  lemma WriteDirectoryItself(cwd: Path, fs: FileSystem, id: string, text: string)
    ensures Dispatch(cwd, fs, ToolCall(id, "write_file", WriteArgs(".", text)))
         == Effect(fs, Failure(if cwd == [] then IsADirectory else PathEscape))
  {
    ResolveDot(cwd);
    DispatchWrite(cwd, fs, id, ".", text);
    if cwd != [] {
      assert |Parent(cwd)| != |cwd|;
    }
  }

  /** An absolute name such as `/etc/passwd` is refused unless its directory is the working directory. */
  lemma WriteAbsoluteElsewhere(cwd: Path, fs: FileSystem, id: string, a: string, b: string, text: string)
    requires ProperName(a) && ProperName(b) && cwd != [a]
    ensures Dispatch(cwd, fs, ToolCall(id, "write_file", WriteArgs("/" + a + "/" + b, text)))
         == Effect(fs, Failure(PathEscape))
  {
    ResolveAbsolute(cwd, a, b);
    assert Parent([a, b]) == [a];
    WriteRefused(cwd, fs, id, "/" + a + "/" + b, text);
  }
}
