/** An optional value: JavaScript's `null` (or a failed network call) is `None`. */
module Options {

  datatype Option<+T> = None | Some(value: T)
}
