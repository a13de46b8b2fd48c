/** An optional value, for results the source signals with `None`
    or for steps that may fail. */
module Options {

  datatype Option<+T> = None | Some(value: T)

}
