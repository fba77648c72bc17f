/** The error taxonomy of the item queue and of data items. */
module QueueErrors {

  /** An operating-system I/O failure (`std::io::Error`), kept as its message. */
  datatype IoError = IoError(message: string)

  datatype Error =
    | IOError(source: IoError)
    | QueueEmpty
    | SendError
    | NoGlobalQueue
    | NoLuaVm

  /** The `Display` text of each error. */
  function Message(e: Error): string {
    match e
    case IOError(source) => "an IO error occurred: " + source.message
    case QueueEmpty => "the item queue is empty"
    case SendError => "unable to communicate with the global queue"
    case NoGlobalQueue => "there is no running global queue"
    case NoLuaVm => "the Lua userscript environment does not appear to be running"
  }
}
