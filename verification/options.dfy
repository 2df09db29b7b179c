/** Swift optionals (`T?`) as a value type. */
module Options {

  datatype Option<T> = None | Some(value: T)
}
