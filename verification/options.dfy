/** The optional-value datatype used for the scheduler's "None or a date" guards
    and for operations that can fail. */
module Options {

  datatype Option<+T> = None | Some(value: T)
}
