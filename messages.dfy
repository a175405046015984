/**
 * The messages of the interop test service, as far as the test cases build
 * and inspect them, and the stub through which the test cases call the server.
 */
module Messages {
  import opened Wrappers

  newtype byte = x: int | 0 <= x < 256

  datatype PayloadType = Compressable | Uncompressable

  /**
   * `Payload`. Its `type` is an optional field: a payload built with only
   * `:body` leaves it unset, which is `None` here.
   */
  datatype Payload = Payload(payloadType: Option<PayloadType>, body: seq<byte>)

  datatype Empty = Empty

  /** What `empty_call` hands back: an `Empty` message, or an object of some other class. */
  datatype EmptyCallReply = EmptyMessage(Empty) | OtherObject(className: string)

  datatype SimpleRequest = SimpleRequest(responseType: PayloadType, responseSize: int, payload: Payload)

  datatype SimpleResponse = SimpleResponse(payload: Payload)

  datatype StreamingInputCallRequest = StreamingInputCallRequest(payload: Payload)

  datatype StreamingInputCallResponse = StreamingInputCallResponse(aggregatedPayloadSize: int)

  datatype ResponseParameters = ResponseParameters(size: int)

  /** Used by `streaming_output_call` (no payload) and, one per stream element, by `full_duplex_call`. */
  datatype StreamingOutputCallRequest = StreamingOutputCallRequest(
    responseType: PayloadType,
    responseParameters: seq<ResponseParameters>,
    payload: Option<Payload>)

  datatype StreamingOutputCallResponse = StreamingOutputCallResponse(payload: Payload)

  /**
   * The stub's five calls. Each is an arbitrary total function, so nothing is
   * assumed about the replies: a test case only sees what the call returns.
   * A streamed reply is the finite, ordered sequence of its elements.
   */
  datatype Stub = Stub(
    emptyCall: Empty -> EmptyCallReply,
    unaryCall: SimpleRequest -> SimpleResponse,
    streamingInputCall: seq<StreamingInputCallRequest> -> StreamingInputCallResponse,
    streamingOutputCall: StreamingOutputCallRequest -> seq<StreamingOutputCallResponse>,
    fullDuplexCall: seq<StreamingOutputCallRequest> -> seq<StreamingOutputCallResponse>)
}
