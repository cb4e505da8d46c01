/** The process surroundings the core reads and writes: parsed JSON values,
    the environment as a map, and the file system as a map from path to the
    result of reading and parsing that file. */
module Host {
  import opened Wrappers

  /** A value as `JSON.parse` produces it. */
  datatype Json =
    | JNull
    | JBool(b: bool)
    | JNum(n: real)
    | JStr(s: string)
    | JArr(items: seq<Json>)
    | JObj(fields: map<string, Json>)

  /** JavaScript truthiness of a parsed value: `null`, `false`, `0` and `""` are falsy. */
  predicate IsTruthy(j: Json) {
    match j
    case JNull => false
    case JBool(b) => b
    case JNum(n) => n != 0.0
    case JStr(s) => s != ""
    case _ => true
  }

  /** `j[key]`: `undefined` (None) unless `j` is an object holding `key`. */
  function Field(j: Json, key: string): (r: Option<Json>)
    ensures r.Some? <==> j.JObj? && key in j.fields
  {
    if j.JObj? && key in j.fields then Some(j.fields[key]) else None
  }

  /** The process environment: a variable is absent or set to a (possibly empty) string. */
  type Env = map<string, string>

  /** `process.env[name]`. */
  function Lookup(env: Env, name: string): Option<string>
  {
    if name in env then Some(env[name]) else None
  }

  /** What reading a file and parsing it as JSON yields. */
  datatype FileContent =
    | JsonText(value: Json)   // the file holds JSON text with this value
    | MalformedText           // the file reads but `JSON.parse` throws
    | Unreadable              // `readFileSync` throws

  type Files = map<string, FileContent>

  /** `existsSync(path)`; the empty path never exists. */
  predicate Exists(files: Files, path: string) {
    path != "" && path in files
  }

  /** The message of the error `writeFileSync` throws: ENOENT for the empty
      path, and otherwise EACCES, standing for any refusal by the operating
      system (a read-only file, a missing directory, a full disk). */
  function WriteError(path: string): string {
    if path == "" then "ENOENT: no such file or directory, open ''"
    else "EACCES: permission denied, open '" + path + "'"
  }

  /** Whether writing `path` succeeds: the empty path and read-only paths throw. */
  predicate Writable(readOnly: set<string>, path: string) {
    path != "" && path !in readOnly
  }

  /** What `writeFileSync` of `path` does: nothing thrown, or the error's message. */
  function WriteOutcome(readOnly: set<string>, path: string): Outcome<string> {
    if Writable(readOnly, path) then Pass else Fail(WriteError(path))
  }

  /** The file system: its files, and the paths to which a write throws. */
  class Disk {
    var files: Files
    const readOnly: set<string>

    constructor (files: Files, readOnly: set<string>)
      ensures this.files == files && this.readOnly == readOnly
    {
      this.files := files;
      this.readOnly := readOnly;
    }

    /** `writeFileSync(path, JSON.stringify(value, null, 2))`: replaces the whole
        file, or throws and leaves it as it was. */
    method WriteJson(path: string, value: Json) returns (r: Outcome<string>)
      modifies this
      ensures r == WriteOutcome(readOnly, path)
      ensures files == if Writable(readOnly, path) then old(files)[path := JsonText(value)] else old(files)
    {
      if Writable(readOnly, path) {
        files := files[path := JsonText(value)];
        r := Pass;
      } else {
        r := Fail(WriteError(path));
      }
    }
  }
}
