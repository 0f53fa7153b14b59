/** Python's `None` next to a value. */
module Optional {

  datatype Option<+T> = None | Some(value: T)

  /** Python's exception paths that the model keeps: a KeyError on a missing column. */
  datatype Result<+T> = Ok(value: T) | Err(missing: string)
}
