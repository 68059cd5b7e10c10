/** Small value types shared by every slice of the store. */
module Common {

  /** A value that may be absent: JavaScript's `null`, `undefined` and a
      missing object key are all `None` here. */
  datatype Option<+T> = None | Some(value: T) {
    function GetOr(default: T): T
    {
      match this
      case Some(v) => v
      case None => default
    }
  }

  /** A spread of one optional key over another value: Some(v) overrides,
      None keeps. */
  function Pick<T>(o: Option<T>, keep: T): T
  {
    if o.Some? then o.value else keep
  }

  function PickOpt<T>(o: Option<T>, keep: Option<T>): Option<T>
  {
    if o.Some? then o else keep
  }

  /** The outcome of a reducer or selector that may throw in the source. */
  datatype Result<+T> = Ok(value: T) | Thrown(reason: string)

  /** JavaScript truthiness of an optional string: absent and `''` are falsy. */
  predicate Truthy(s: Option<string>)
  {
    s.Some? && s.value != ""
  }

  /** The `{ type, message }` record the slices keep in `state.notification`. */
  datatype NoticeKind = Success | Error
  datatype Notice = Notice(kind: NoticeKind, message: string)
}
