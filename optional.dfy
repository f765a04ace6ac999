/** An optional value: stands for a JavaScript property that is absent (or
    `undefined`) as opposed to one that holds a value. */
module Optional {
  datatype Option<+T> = None | Some(value: T)
}
