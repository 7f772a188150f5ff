/** Optional values and the error returns that stand for the source's exceptions. */
module Wrappers {
  datatype Option<+T> = None | Some(value: T)

  /** Exception families the modelled code raises; messages are not modelled. */
  datatype Error =
    | SchemaError      // CloudSchemaError, ArchiveSchemaError
    | BoundsError      // CloudBoundsError
    | ConflictError    // CloudConflictError
    | AuthError        // CloudAuthError
    | ValueError
    | RuntimeError
    | StorageError     // a CHECK of the schema, or an integer SQLite cannot hold
    | InjectedFault    // raised by the repository's fault hook

  datatype Result<+T> = Ok(value: T) | Err(error: Error)
}
