/**
 * The devfile context and the extraction of the parent path from the raw
 * content (DevfileCtx in pkg/devfile/parser/context.go, SetDevfileParentPath
 * and GetParentPath in pkg/devfile/parser/parentPath.go).
 *
 * Decoding the raw bytes into a JSON object is a parameter: the model works
 * on the decoded object.
 */
module DevfileContext {
  import opened Wrappers

  newtype byte = x: int | 0 <= x < 256

  /** A decoded JSON value, as the untyped decoder produces it. */
  datatype Json =
    | JNull
    | JBool(b: bool)
    | JNumber(literal: string)
    | JString(s: string)
    | JArray(items: seq<Json>)
    | JObject(members: map<string, Json>)

  /** The fields of a devfile context, as a value. */
  datatype Ctx = Ctx(
    relPath: string,
    absPath: string,
    apiVersion: string,
    jsonSchema: string,
    parentPath: string,
    rawContent: seq<byte>)

  /**
   * What the source's type assertions take for granted: a "parent" member is
   * an object, and a "uri" member inside it is a string.
   */
  predicate ParentWellTyped(r: map<string, Json>)
  {
    "parent" in r ==>
      r["parent"].JObject? &&
      ("uri" in r["parent"].members ==> r["parent"].members["uri"].JString?)
  }

  /** The parent path held by a decoded devfile: `parent.uri`, or "" when either key is absent. */
  function ParentPathOf(r: map<string, Json>): (p: string)
    requires ParentWellTyped(r)
    ensures "parent" !in r ==> p == ""
    ensures "parent" in r && "uri" !in r["parent"].members ==> p == ""
    ensures "parent" in r && "uri" in r["parent"].members ==> p == r["parent"].members["uri"].s
  {
    if "parent" !in r then ""
    else
      var parent := r["parent"].members;
      if "uri" !in parent then "" else parent["uri"].s
  }

  /** The value found by following `keys` through nested objects, if there is one. */
  function Lookup(j: Json, keys: seq<string>): Option<Json>
    decreases |keys|
  {
    if keys == [] then Some(j)
    else if j.JObject? && keys[0] in j.members then Lookup(j.members[keys[0]], keys[1..])
    else None
  }

  /**
   * The parent path is the string at the key path parent.uri, and "" when
   * there is nothing there.
   */
  lemma ParentPathIsLookup(r: map<string, Json>)
    requires ParentWellTyped(r)
    ensures ParentPathOf(r) ==
            match Lookup(JObject(r), ["parent", "uri"])
            case Some(JString(s)) => s
            case _ => ""
  {
    var keys := ["parent", "uri"];
    assert keys[1..] == ["uri"] && keys[1..][1..] == [];
  }

  class DevfileCtx {
    var absPath: string
    var apiVersion: string
    var jsonSchema: string
    var parentPath: string
    var rawContent: seq<byte>
    var relPath: string

    function Snapshot(): Ctx
      reads this
    {
      Ctx(relPath, absPath, apiVersion, jsonSchema, parentPath, rawContent)
    }

    /** NewDevfileCtx: only the relative path is set. */
    constructor (path: string)
      ensures Snapshot() == Ctx(path, "", "", "", "", [])
    {
      relPath := path;
      absPath, apiVersion, jsonSchema, parentPath, rawContent := "", "", "", "", [];
    }

    /** The parent path as SetDevfileParentPath stored it. */
    function GetParentPath(): (p: string)
      reads this
      ensures p == Snapshot().parentPath
    {
      parentPath
    }

    /**
     * Sets the parent path from the raw content: fails when the decoder
     * reports an error, and otherwise stores parent.uri, or "" when either key
     * is absent (content such as `null` decodes to an empty map without
     * error). Nothing but the parent path changes.
     */
    method SetDevfileParentPath(unmarshal: seq<byte> -> Option<map<string, Json>>) returns (err: Option<string>)
      requires unmarshal(rawContent).Some? ==> ParentWellTyped(unmarshal(rawContent).value)
      modifies this`parentPath
      ensures err.Some? <==> unmarshal(rawContent).None?
      ensures err.Some? ==> Snapshot() == old(Snapshot())
      ensures err.None? ==>
                GetParentPath() == ParentPathOf(unmarshal(rawContent).value) &&
                Snapshot() == old(Snapshot()).(parentPath := GetParentPath())
    {
      var decoded := unmarshal(rawContent);
      if decoded.None? {
        return Some("failed to decode devfile json");
      }
      var r := decoded.value;
      if "parent" !in r {
        parentPath := "";
        return None;
      }
      var parent := r["parent"].members;
      if "uri" !in parent {
        parentPath := "";
        return None;
      }
      parentPath := parent["uri"].s;
      return None;
    }
  }
}
