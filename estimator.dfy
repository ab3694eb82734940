/** The chuck state record of estimator.h: a planar position and whether it is known. */
module Estimator {

  /** `valid` is false for the default-constructed record and true for one built from coordinates. */
  datatype ChuckState = ChuckState(x: real, y: real, valid: bool)
}
