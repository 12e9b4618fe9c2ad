/** The optional value shared by both solvers: `None` stands for the points
    where the Rust code calls `unwrap` or `expect` on a missing value. */
module Wrappers {

  datatype Option<+T> = None | Some(value: T)
}
