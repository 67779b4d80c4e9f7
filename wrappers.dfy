/** The nullable values of the galleries (`Photo | null`) as an option type. */
module Wrappers {

  datatype Option<+T> = None | Some(value: T)
}
