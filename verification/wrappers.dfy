/** The optional-value datatype used for lines read from standard input and
    for the result of parsing an integer. */
module Wrappers {

  datatype Option<+T> = None | Some(value: T)
}
