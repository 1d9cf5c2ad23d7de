/** Optional values: a prop that may be left out of a component's props. */
module Wrappers {

  datatype Option<+T> = None | Some(value: T)
}
