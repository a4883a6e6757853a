/** An optional value: `None` stands for JavaScript's `undefined` where the source tests for it. */
module Options {
  datatype Option<+T> = None | Some(value: T)
}
