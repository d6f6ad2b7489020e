/**
 Properties of the preload script converters: the two script type tables
 are inverse bijections, a failed conversion leaves exactly the fields read
 so far written, and writing then reading a script loses only the
 deprecated flag.
 */
module PreloadScriptProperties {
  import opened PreloadScripts

  /** The read table's keys are exactly the two names, and it undoes the
      write table in both directions. */
  lemma TypeTablesAreInverse()
    ensures NameToType.Keys == {"frame", "service-worker"}
    ensures forall t: ScriptType :: TypeName(t) in NameToType && NameToType[TypeName(t)] == t
    ensures forall name | name in NameToType :: TypeName(NameToType[name]) == name
  {
  }

  /** Writing a script type and reading it back gives the same type. */
  lemma ScriptTypeRoundTrip(t: ScriptType)
    ensures ScriptTypeFromV8(ScriptTypeToV8(t)) == Some(t)
  {
  }

  /** Names are never shared: distinct script types are written as distinct
      strings. */
  lemma TypeNameInjective(t1: ScriptType, t2: ScriptType)
    requires TypeName(t1) == TypeName(t2)
    ensures t1 == t2
  {
    ScriptTypeRoundTrip(t1);
    ScriptTypeRoundTrip(t2);
  }

  /** A failed conversion has written exactly the fields that read before
      the first one that failed, in the order type, file path, id, and
      nothing else. */
  lemma FailureKeepsEarlierWrites(v: Value, out: PreloadScript)
    ensures !v.Object? ==> FromV8(v, out) == Conversion(false, out)
    ensures v.Object? && GetType(v.fields, "type").None? ==>
              FromV8(v, out) == Conversion(false, out)
    ensures v.Object? && GetType(v.fields, "type").Some?
            && GetFilePath(v.fields, "filePath").None? ==>
              FromV8(v, out)
              == Conversion(false, out.(scriptType := GetType(v.fields, "type").value))
    ensures v.Object? && GetType(v.fields, "type").Some?
            && GetFilePath(v.fields, "filePath").Some?
            && GetString(v.fields, "id").None? ==>
              FromV8(v, out)
              == Conversion(false, out.(scriptType := GetType(v.fields, "type").value,
                                        filePath := GetFilePath(v.fields, "filePath").value))
  {
  }

  /** A script read into a default-constructed record from an object
      without a `_deprecated` key is not deprecated. */
  lemma AbsentDeprecatedKeepsDefault(v: Value, t: ScriptType)
    requires Readable(v) && "_deprecated" !in v.fields
    ensures FromV8(v, DefaultScript(t)).ok
    ensures !FromV8(v, DefaultScript(t)).out.deprecated
  {
  }

  /** Writing a script and reading it back into `out` succeeds and restores
      its id, type and file path; the deprecated flag is the one `out`
      already had, since it is never written. */
  lemma RoundTrip(script: PreloadScript, out: PreloadScript)
    ensures FromV8(ToV8(script), out) == Conversion(true, script.(deprecated := out.deprecated))
  {
    var v := ToV8(script);
    ScriptTypeRoundTrip(script.scriptType);
    assert GetType(v.fields, "type") == Some(script.scriptType);
    assert GetFilePath(v.fields, "filePath") == Some(script.filePath);
    assert GetString(v.fields, "id") == Some(script.id);
    assert GetBool(v.fields, "_deprecated") == None;
  }

  /** After a successful read, writing the result reproduces the three
      fields of the object it was read from. */
  lemma ReadThenWrite(v: Value, out: PreloadScript)
    requires FromV8(v, out).ok
    ensures var w := ToV8(FromV8(v, out).out);
            forall key | key in {"type", "filePath", "id"} :: key in v.fields && w.fields[key] == v.fields[key]
  {
  }

  /** Reading the same value a second time, into the record the first read
      produced, changes nothing: the same fields are written with the same
      values and the same flag is returned. */
  lemma FromV8Idempotent(v: Value, out: PreloadScript)
    ensures FromV8(v, FromV8(v, out).out) == FromV8(v, out)
  {
  }
}
