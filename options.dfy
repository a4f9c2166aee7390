/** A value that pandas may leave as NaN: `None` stands for NaN. */
module Options {
  datatype Option<+T> = None | Some(value: T)
}
