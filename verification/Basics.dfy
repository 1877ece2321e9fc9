// What the components share: threads, addresses and optional values.
module Basics {
  type Tid = int
  type Ptr = int // an address; NULL is 0

  const NULL: Ptr := 0

  datatype Option<T> = None | Some(value: T)
}
