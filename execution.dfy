/** What a chain node receives for one invocation besides its own inputs:
    the logger, the optional socket transport with its client id, and the
    optional prior conversation; and the callback handlers built from them. */
module Execution {
  import opened Js

  /** One entry of a prior conversation; `kind` is the entry's `type`
      ('apiMessage', 'userMessage', or anything else). */
  datatype HistoryMessage = HistoryMessage(message: string, kind: string)

  /** `options` of a run: `logger`, `socketIO`, `socketIOClientId`, `chatHistory`.
      An absent field is `Undefined` (or `None` for the history). */
  datatype ExecOptions = ExecOptions(
    logger: Value,
    socketIO: Value,
    socketIOClientId: Value,
    chatHistory: Option<seq<HistoryMessage>>)

  /** The callback handlers handed to the chain library: the console logger,
      and the handler that forwards tokens to the socket. Their behaviour is
      the library's and the transport's; only which ones are chosen is modelled. */
  datatype Handler =
    | ConsoleLogger(logger: Value)
    | StreamingHandler(socketIO: Value, clientId: Value)

  /** `options.socketIO && options.socketIOClientId`, read as a condition. */
  predicate IsStreaming(o: ExecOptions)
  {
    Truthy(o.socketIO) && Truthy(o.socketIOClientId)
  }

  /** The handler list of one call: always the logger first, and the
      streaming handler second exactly when both socket fields are truthy. */
  function Callbacks(o: ExecOptions): (cbs: seq<Handler>)
    ensures 1 <= |cbs| <= 2 && cbs[0] == ConsoleLogger(o.logger)
    ensures |cbs| == 2 <==> IsStreaming(o)
    ensures |cbs| == 2 ==> cbs[1] == StreamingHandler(o.socketIO, o.socketIOClientId)
  {
    [ConsoleLogger(o.logger)]
    + (if IsStreaming(o) then [StreamingHandler(o.socketIO, o.socketIOClientId)] else [])
  }
}
