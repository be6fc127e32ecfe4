/** The optional value used where the dashboard's JavaScript sees `null` or
    `undefined` (a missing subject, a missing demographic number). */
module Wrappers {
  datatype Option<+T> = None | Some(value: T)
}
