/** Shared value types: an optional value, the failures the launcher can run into,
    and a result that carries one of them. */
module Common {

  datatype Option<T> = None | Some(value: T)

  /** The exceptions the launcher raises, named after what causes them. */
  datatype Error =
    | ConfigMissing     // the configuration file does not exist (a ValueError)
    | ConfigInvalid     // a field of the configuration is missing or not a string (pydantic ValidationError, a ValueError)
    | ConfigUndecodable // the configuration file is not text in the locale's encoding (UnicodeDecodeError, a ValueError)
    | ConfigMalformed  // the configuration is not YAML, or not a mapping with string keys (YAMLError or TypeError)
    | CacheMalformed   // the cache file exists but does not hold a valid snapshot
    | RemoteFailed      // authentication, the group lookup or the project listing failed
    | MissingArgument   // `open` given without a path (IndexError on the argument vector)
  {
    /** The configuration errors that are a ValueError, and so are caught by
        the `except ValueError` around reading the configuration in the menu.
        Only the configuration errors are classified: nothing catches the
        others, whatever their exception class. */
    predicate IsConfigValueError() {
      ConfigMissing? || ConfigInvalid? || ConfigUndecodable?
    }
  }

  datatype Result<T> = Success(value: T) | Failure(error: Error)
}
