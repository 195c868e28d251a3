/** The absent-or-present value that stands for the source's nullable references and
    nullable value types. */
module Options {

  datatype Option<+T> = None | Some(value: T)

  /** The elements of a possibly absent collection; an absent collection is iterated as
      an empty one. */
  function Elements<T>(o: Option<seq<T>>): (s: seq<T>)
    ensures o.None? ==> s == []
  {
    if o.Some? then o.value else []
  }
}
