/** The finalizer decision shared by every controller. */
module Finalizers {
  datatype Action = Attach | Proceed | CleanUp | Stop

  /** What checkAndHandleObjectDeletion does with an object it has just read. */
  function ActionFor(deleting: bool, finalizer: bool): Action {
    if deleting then (if finalizer then CleanUp else Stop)
    else if finalizer then Proceed else Attach
  }
}
