/** What several parts of the model share. */
module Common {
  datatype Option<+T> = None | Some(value: T)

  type Byte = x: int | 0 <= x < 256

  /** What a connection is. */
  datatype Kind = Unknown | User | Host | Closed
}
