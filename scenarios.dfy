/**
 * The interop test cases of `NamedTests`: the requests each one builds from
 * its size table, and the assertions it runs on what the stub returns.
 */
module Scenarios {
  import opened Wrappers
  import opened Messages
  import opened PayloadGenerator
  import opened Assertions

  // large_unary
  const LargeUnaryRequestSize: nat := 271828
  const LargeUnaryResponseSize: nat := 314159

  // client_streaming
  const ClientStreamingSizes: seq<nat> := [27182, 8, 1828, 45904]
  const WantedAggregateSize: int := 74922

  // server_streaming
  const ServerStreamingSizes: seq<nat> := [31415, 9, 2653, 58979]

  // ping_pong: (request body size, response size)
  const PingPongSizes: seq<(nat, nat)> := [(27182, 31415), (8, 9), (1828, 2653), (45904, 58979)]

  /** The request of `large_unary`. */
  function LargeUnaryRequest(): SimpleRequest
  {
    SimpleRequest(Compressable, LargeUnaryResponseSize,
                  Payload(Some(Compressable), Nulls(LargeUnaryRequestSize).value))
  }

  /** The requests of `client_streaming`, one per size, in table order. */
  function ClientStreamingRequests(): seq<StreamingInputCallRequest>
  {
    seq(|ClientStreamingSizes|, i requires 0 <= i < |ClientStreamingSizes| =>
      StreamingInputCallRequest(Payload(None, Nulls(ClientStreamingSizes[i]).value)))
  }

  /** The request of `server_streaming`: one response parameter per size. */
  function ServerStreamingRequest(): StreamingOutputCallRequest
  {
    StreamingOutputCallRequest(
      Compressable,
      seq(|ServerStreamingSizes|, i requires 0 <= i < |ServerStreamingSizes| =>
        ResponseParameters(ServerStreamingSizes[i])),
      None)
  }

  /**
   * The requests of `ping_pong`. The source passes one `ResponseParameters`
   * object where the field is repeated; here that is a one-element list.
   */
  function PingPongRequests(): seq<StreamingOutputCallRequest>
  {
    seq(|PingPongSizes|, i requires 0 <= i < |PingPongSizes| =>
      StreamingOutputCallRequest(
        Compressable,
        [ResponseParameters(PingPongSizes[i].1)],
        Some(Payload(None, Nulls(PingPongSizes[i].0).value))))
  }

  /** `msg_sizes[i][1]` of `ping_pong`: the response size expected at position i. */
  function PingPongResponseSizes(): seq<nat>
  {
    seq(|PingPongSizes|, i requires 0 <= i < |PingPongSizes| => PingPongSizes[i].1)
  }

  /** `empty_unary`'s one assertion: the reply is an `Empty` message. */
  function EmptyUnaryRun(resp: EmptyCallReply): (r: Run)
    ensures r.outcome == Pass <==> resp.EmptyMessage?
    ensures r.outcome.Fail? ==> r.outcome.failed == InvalidResponse
    ensures r.assertions == 1
  {
    AssertStep(Start, resp.EmptyMessage?, InvalidResponse)
  }

  /** `large_unary`'s two assertions: the body length first, then the content. */
  function LargeUnaryRun(resp: SimpleResponse): (r: Run)
    ensures |resp.payload.body| != 314159 ==> r == Run(Fail(WrongLength), 1)
    ensures |resp.payload.body| == 314159 ==> r.assertions == 2 && (r.outcome == Pass || r.outcome == Fail(InvalidContent))
  {
    var lengthChecked := AssertStep(Start, LargeUnaryResponseSize == |resp.payload.body|, WrongLength);
    AssertStep(lengthChecked, Nulls(LargeUnaryResponseSize).value == resp.payload.body, InvalidContent)
  }

  /** `client_streaming`'s one assertion: the aggregate the server reports. */
  function ClientStreamingRun(resp: StreamingInputCallResponse): (r: Run)
    ensures r.outcome == Pass <==> resp.aggregatedPayloadSize == 74922
    ensures r.outcome.Fail? ==> r.outcome.failed == WrongAggregateSize
    ensures r.assertions == 1
  {
    AssertStep(Start, WantedAggregateSize == resp.aggregatedPayloadSize, WrongAggregateSize)
  }

  /** What the stream loop asks of the element at position i. */
  predicate ElementConforms(r: StreamingOutputCallResponse, size: int)
  {
    r.payload.payloadType == Some(Compressable) && |r.payload.body| == size
  }

  /** The three assertions the stream loop runs on the element at position i. */
  function ElementRun(run: Run, r: StreamingOutputCallResponse, i: nat, sizes: seq<int>): (next: Run)
    ensures run.outcome.Fail? ==> next == run
    ensures run.outcome == Pass ==> (next.outcome == Pass <==> i < |sizes| && ElementConforms(r, sizes[i]))
    ensures run.outcome == Pass && next.outcome == Pass ==> next.assertions == run.assertions + 3
    ensures run.outcome == Pass && next.outcome.Fail? ==>
              IsStreamCheck(next.outcome.failed) && next.outcome.failed.index == i &&
              run.assertions < next.assertions <= run.assertions + 3
  {
    var counted := AssertStep(run, i < |sizes|, TooManyResponses(i));
    var typed := AssertStep(counted, r.payload.payloadType == Some(Compressable), WrongPayloadType(i));
    if i < |sizes| then AssertStep(typed, sizes[i] == |r.payload.body|, WrongBodyLength(i)) else typed
  }

  /**
   * The `each_with_index` loop of `server_streaming` and `ping_pong` over the
   * stream `resps`, against the expected sizes `sizes`.
   */
  function StreamRun(resps: seq<StreamingOutputCallResponse>, sizes: seq<int>): (r: Run)
    ensures r.assertions <= 3 * |resps|
    ensures r.outcome.Fail? ==> IsStreamCheck(r.outcome.failed) && r.outcome.failed.index < |resps|
  {
    if resps == [] then Start
    else
      var i := |resps| - 1;
      ElementRun(StreamRun(resps[..i], sizes), resps[i], i, sizes)
  }

  function ServerStreamingRun(resps: seq<StreamingOutputCallResponse>): Run
  {
    StreamRun(resps, ServerStreamingSizes)
  }

  function PingPongRun(resps: seq<StreamingOutputCallResponse>): Run
  {
    StreamRun(resps, PingPongResponseSizes())
  }
}
