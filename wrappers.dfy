/** The usual Some/None datatype. In this model `None` stands for a host read
    that came back `undefined`, or for a numeric conversion that gave `NaN`. */
module Wrappers {

  datatype Option<+T> = None | Some(value: T)
}
