/** A value that may be missing. In this model `None` stands for a Python
    exception that ends the computation, so no result is produced. */
module Optional {
  datatype Option<T> = None | Some(value: T)
}
