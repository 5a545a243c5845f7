/** The optional value used for the engine's timer slots and for parse results. */
module Options {

  datatype Option<T> = None | Some(value: T)

}
