/** The optional value used for missing command-line options, failed queries and search results. */
module Wrappers {

  datatype Option<+T> = None | Some(value: T)
}
