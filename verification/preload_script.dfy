/**
 A preload script record and its conversion to and from script values.

 A script value is either a string, a boolean, an object (a dictionary from
 property names to values) or some other value. Reading a typed property out
 of a dictionary fails when the key is missing or the value there does not
 convert to the requested type. The C++ converter writes its result through
 an out-pointer and returns a success flag; here it takes the previous
 contents of the record and returns the flag together with the new
 contents, so the partial writes of a failed conversion are visible.
 */
module PreloadScripts {

  datatype Option<T> = None | Some(value: T)

  datatype ScriptType = WebFrame | ServiceWorker

  /** A preload script. The file path is kept as its UTF-8 text. */
  datatype PreloadScript = PreloadScript(
    id: string,
    scriptType: ScriptType,
    filePath: string,
    deprecated: bool)

  /** A script value, abstracted to what the converters look at. */
  datatype Value =
    | Str(s: string)
    | Bool(b: bool)
    | Object(fields: map<string, Value>)
    | Other

  /** The record a default-constructed preload script holds. The script type
      has no default initializer in C++, so the caller supplies it. */
  function DefaultScript(scriptType: ScriptType): PreloadScript {
    PreloadScript([], scriptType, [], false)
  }

  // ---------------------------------------------------------------------
  // Script type <-> name
  // ---------------------------------------------------------------------

  /** The name a script type is written as. */
  function TypeName(t: ScriptType): string {
    match t
    case WebFrame => "frame"
    case ServiceWorker => "service-worker"
  }

  /** The lookup table a script type is read back through. */
  const NameToType: map<string, ScriptType> :=
    map["frame" := WebFrame, "service-worker" := ServiceWorker]

  function ScriptTypeToV8(t: ScriptType): (v: Value)
    ensures v.Str? && v.s in NameToType && NameToType[v.s] == t
  {
    Str(TypeName(t))
  }

  /** Reads a script type: the value must be a string that is one of the two
      names in the lookup table. */
  function ScriptTypeFromV8(v: Value): (r: Option<ScriptType>)
    ensures r.Some? <==> v.Str? && v.s in {"frame", "service-worker"}
    ensures r.Some? ==> v == ScriptTypeToV8(r.value)
  {
    if v.Str? && v.s in NameToType then Some(NameToType[v.s]) else None
  }

  function StringFromV8(v: Value): Option<string> {
    if v.Str? then Some(v.s) else None
  }

  function BoolFromV8(v: Value): Option<bool> {
    if v.Bool? then Some(v.b) else None
  }

  /** A file path is read from its string form. */
  function FilePathFromV8(v: Value): Option<string> {
    StringFromV8(v)
  }

  // ---------------------------------------------------------------------
  // Dictionary access
  // ---------------------------------------------------------------------

  function GetType(d: map<string, Value>, key: string): Option<ScriptType> {
    if key in d then ScriptTypeFromV8(d[key]) else None
  }

  function GetString(d: map<string, Value>, key: string): Option<string> {
    if key in d then StringFromV8(d[key]) else None
  }

  function GetFilePath(d: map<string, Value>, key: string): Option<string> {
    if key in d then FilePathFromV8(d[key]) else None
  }

  function GetBool(d: map<string, Value>, key: string): Option<bool> {
    if key in d then BoolFromV8(d[key]) else None
  }

  // ---------------------------------------------------------------------
  // Preload script <-> value
  // ---------------------------------------------------------------------

  /** Writes a preload script as an object with its file path, id and type;
      the deprecated flag is not written. */
  function ToV8(script: PreloadScript): (v: Value)
    ensures v.Object? && v.fields.Keys == {"filePath", "id", "type"}
    ensures "_deprecated" !in v.fields
    ensures v.fields["filePath"] == Str(script.filePath)
    ensures v.fields["id"] == Str(script.id)
    ensures ScriptTypeFromV8(v.fields["type"]) == Some(script.scriptType)
  {
    Object(map["filePath" := Str(script.filePath),
               "id" := Str(script.id),
               "type" := ScriptTypeToV8(script.scriptType)])
  }

  /** The success flag and the record after a conversion attempt. */
  datatype Conversion = Conversion(ok: bool, out: PreloadScript)

  /** True iff `v` is an object whose type, file path and id all read. */
  predicate Readable(v: Value) {
    && v.Object?
    && GetType(v.fields, "type").Some?
    && GetFilePath(v.fields, "filePath").Some?
    && GetString(v.fields, "id").Some?
  }

  /** Reads a preload script into `out`. The value must be an object; its
      type, file path and id are read in that order, each written into the
      record as soon as it reads, and the first that fails ends the
      conversion. The deprecated flag is optional: it is written only if
      present and boolean. */
  function FromV8(v: Value, out: PreloadScript): (r: Conversion)
    ensures r.ok <==> Readable(v)
    ensures !v.Object? ==> r.out == out
    ensures r.ok ==> && r.out.scriptType == GetType(v.fields, "type").value
                     && r.out.filePath == GetFilePath(v.fields, "filePath").value
                     && r.out.id == GetString(v.fields, "id").value
    ensures r.ok ==> r.out.deprecated == (match GetBool(v.fields, "_deprecated")
                                          case Some(b) => b
                                          case None => out.deprecated)
  {
    if !v.Object? then Conversion(false, out)
    else
      var d := v.fields;
      match GetType(d, "type")
      case None => Conversion(false, out)
      case Some(scriptType) =>
        var out := out.(scriptType := scriptType);
        match GetFilePath(d, "filePath")
        case None => Conversion(false, out)
        case Some(filePath) =>
          var out := out.(filePath := filePath);
          match GetString(d, "id")
          case None => Conversion(false, out)
          case Some(id) =>
            var out := out.(id := id);
            match GetBool(d, "_deprecated")
            case None => Conversion(true, out)
            case Some(deprecated) => Conversion(true, out.(deprecated := deprecated))
  }
}
