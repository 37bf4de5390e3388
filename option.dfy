/** An optional value: `None` stands for JavaScript's `undefined` (an absent key or value). */
module Optional {
  datatype Option<+T> = None | Some(value: T)
}
