/** An optional value: `None` where the source leaves a setting unset or a string spells no category. */
module Options {
  datatype Option<+T> = None | Some(value: T)
}
