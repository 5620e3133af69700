/** A value that may be absent: a key missing from the session dictionary, a
    query that fetched no row. */
module Opt {

  datatype Option<+T> = None | Some(value: T)

}
