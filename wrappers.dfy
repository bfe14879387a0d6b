/** `Option` stands for the TypeScript `T | null` and `T | undefined` unions of the dashboard. */
module Wrappers {

  datatype Option<+T> = None | Some(value: T)
}
