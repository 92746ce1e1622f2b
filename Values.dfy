/** The dynamically typed values (`AnyObject`) the client handles: decoded JSON
    bodies, and the caller's parameter dictionaries, which may also hold local
    file URLs. */
module Values {
  import opened Wrappers

  /** A local file URL (`NSURL` with the file scheme), identified by its path. */
  datatype FileUrl = FileUrl(path: string)

  /** `NSURL.absoluteString` of a file URL (percent escaping is not modelled). */
  function AbsoluteString(u: FileUrl): string
  {
    "file://" + u.path
  }

  /** `NSURL.URLByAppendingPathComponent`. */
  function Appending(u: FileUrl, component: string): FileUrl
  {
    FileUrl(u.path + "/" + component)
  }

  /** Foundation bridges JSON booleans, JSON numbers and Swift `Bool`s alike to
      `NSNumber`, so a single `Number` case stands for all of them. */
  datatype Value =
    | Null
    | Number(n: real)
    | Str(s: string)
    | List(items: seq<Value>)
    | Dict(entries: map<string, Value>)
    | Url(url: FileUrl)

  /** A `[String: AnyObject]` dictionary. */
  type Params = map<string, Value>

  function Lookup(m: Params, key: string): Option<Value>
  {
    if key in m then Some(m[key]) else None
  }

  /** `value[key]` on an `AnyObject`: only a dictionary answers a key lookup. */
  function Field(v: Value, key: string): Option<Value>
  {
    if v.Dict? then Lookup(v.entries, key) else None
  }

  /** `as? String` */
  function AsString(v: Option<Value>): Option<string>
  {
    if v.Some? && v.value.Str? then Some(v.value.s) else None
  }

  /** `as? NSURL` */
  function AsUrl(v: Option<Value>): Option<FileUrl>
  {
    if v.Some? && v.value.Url? then Some(v.value.url) else None
  }

  /** `as? Bool`: any `NSNumber` converts, to `true` when it is non-zero. */
  function AsBool(v: Option<Value>): Option<bool>
  {
    if v.Some? && v.value.Number? then Some(v.value.n != 0.0) else None
  }

  /** `as? Float` (the rounding to single precision is not modelled). */
  function AsReal(v: Option<Value>): Option<real>
  {
    if v.Some? && v.value.Number? then Some(v.value.n) else None
  }
}
