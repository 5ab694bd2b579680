/** Option stands for a Java reference that may be null; Result for a call that either
    returns or throws. */
module Wrappers {

  datatype Option<+T> = None | Some(value: T)

  datatype Result<+T, +E> = Success(value: T) | Failure(error: E)
}

/** The two exceptions a profile operation can end in. */
module Errors {

  datatype Error =
    /** IllegalStateException("Cannot find profile with id: " + id) from the repository. */
    | CannotFindProfile(id: int)
    /** AccessDeniedException, raised when a method's @PreAuthorize expression is false. */
    | AccessDenied
}
