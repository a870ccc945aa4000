/** Optional values and failure-carrying results shared by the whole model.
    A Java `null` becomes `None`; a thrown exception becomes `Err`. */
module Results {

  datatype Option<+T> = None | Some(value: T)

  datatype Result<+T, +E> = Ok(value: T) | Err(error: E)
}
