/** The errors the button's commands throw, and the success/failure wrappers
    used in place of Swift's `throws`. */
module MenuErrors {

  /** One constructor per distinct `RNIContextMenuError` the button raises. */
  datatype MenuError =
    /** "Unsupported, requires iOS 14+" (guard check failed) */
    | Unsupported
    /** "Context menu is disabled" (guard check failed) */
    | Disabled
    /** "Context menu is already visible" (guard check failed) */
    | AlreadyVisible
    /** "contextMenuInteraction is nil" (unexpected nil value) */
    | MissingInteraction
    /** "Unable to create ContextMenuInteractionWrapper" (unexpected nil value) */
    | WrapperUnavailable
    /** an error rethrown from the wrapper's `presentMenuAtLocation` */
    | PresentationFailed
    /** "No matching deferred completion handler found for deferredID" */
    | NoDeferredHandler(deferredID: string)
    /** "Unable to parse commandArguments" (invalid value) */
    | InvalidCommandArguments
    /** a command argument that is missing or has the wrong type */
    | InvalidArgument(key: string)
    /** "No matching command for commandName" (invalid value) */
    | NoMatchingCommand(commandName: string)

  datatype Result<+T> = Success(value: T) | Failure(error: MenuError)

  /** The result of an operation that returns nothing but may throw. */
  datatype Outcome = Pass | Fail(error: MenuError)
}
