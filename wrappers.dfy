/** Value-or-undefined, standing for the not-a-number sentinel of the metrics. */
module Wrappers {

  datatype Option<+T> = None | Some(value: T)
}
