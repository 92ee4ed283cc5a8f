/** The optional value returned where `findFixtureByName` returns `null`. */
module Wrappers {

  datatype Option<+T> = None | Some(value: T)
}
