/** An optional value: `None` stands for JavaScript's `undefined`/`null`
    (and, for parsed integers, for `NaN`). */
module Options {
  datatype Option<+T> = None | Some(value: T)
}
