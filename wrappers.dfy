/** Optional values, and results that carry one of the exceptions the
    Python code can raise on the paths this model covers. */
module Wrappers {

  datatype Option<+T> = None | Some(value: T)

  /** The Python exceptions that escape from the modelled code. */
  datatype Error =
    | IntegrityError   // a NOT NULL or foreign-key constraint rejected a row
    | RecursionError   // Python's recursion limit was reached
    | AttributeError   // an attribute was read from an object that lacks it
    | TypeError        // an operator was applied to None
    | ValueError       // a string could not be converted to an integer id
    | DoesNotExist     // `objects.get` found no row

  datatype Result<+T> = Ok(value: T) | Err(error: Error)
}
