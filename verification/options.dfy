/** An optional value: `None` when a computation could not finish. */
module Options {

  datatype Option<+T> = None | Some(value: T)
}
