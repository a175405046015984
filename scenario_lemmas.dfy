/** What `large_unary`, `client_streaming` and `ping_pong` send, and what `large_unary` accepts. */
module ScenarioLemmas {
  import opened Wrappers
  import opened Messages
  import opened PayloadGenerator
  import opened Assertions
  import opened Scenarios

  /** Sum of the body lengths of a client stream: what its aggregate should report. */
  function TotalBodyLength(reqs: seq<StreamingInputCallRequest>): nat
  {
    if reqs == [] then 0 else |reqs[0].payload.body| + TotalBodyLength(reqs[1..])
  }

  function Sum(sizes: seq<nat>): nat
  {
    if sizes == [] then 0 else sizes[0] + Sum(sizes[1..])
  }

  /**
   * `large_unary` accepts exactly a body of 314159 NUL bytes. The length is
   * asserted first: a body of the wrong length fails on that assertion and
   * its content is never compared.
   */
  lemma LargeUnaryAcceptsExactly(resp: SimpleResponse)
    ensures LargeUnaryRun(resp).outcome == Pass <==>
              |resp.payload.body| == 314159 &&
              forall i :: 0 <= i < |resp.payload.body| ==> resp.payload.body[i] == 0
    ensures |resp.payload.body| != 314159 ==> LargeUnaryRun(resp) == Run(Fail(WrongLength), 1)
    ensures |resp.payload.body| == 314159 ==> LargeUnaryRun(resp).assertions == 2
    ensures LargeUnaryRun(resp).outcome.Fail? && |resp.payload.body| == 314159 ==>
              LargeUnaryRun(resp).outcome == Fail(InvalidContent)
  {
    NullsIsTheAllNulString(LargeUnaryResponseSize, resp.payload.body);
  }

  /**
   * The `large_unary` request asks for a COMPRESSABLE reply of 314159 bytes
   * and carries a COMPRESSABLE payload of 271828 NUL bytes.
   */
  lemma LargeUnaryRequestFollowsTable()
    ensures LargeUnaryRequest().responseType == Compressable
    ensures LargeUnaryRequest().responseSize == 314159
    ensures LargeUnaryRequest().payload.payloadType == Some(Compressable)
    ensures |LargeUnaryRequest().payload.body| == 271828
    ensures forall i :: 0 <= i < 271828 ==> LargeUnaryRequest().payload.body[i] == 0
  {
  }

  /** A client stream whose bodies have the lengths `sizes`, in order, totals `Sum(sizes)`. */
  lemma {:induction false} TotalBodyLengthIsSum(reqs: seq<StreamingInputCallRequest>, sizes: seq<nat>)
    requires |reqs| == |sizes|
    requires forall i :: 0 <= i < |reqs| ==> |reqs[i].payload.body| == sizes[i]
    ensures TotalBodyLength(reqs) == Sum(sizes)
  {
    if reqs != [] {
      TotalBodyLengthIsSum(reqs[1..], sizes[1..]);
    }
  }

  /**
   * `client_streaming` sends one request per size of its table, in order,
   * each with that many NUL bytes and no payload type; the bodies total
   * 74922, the aggregate the test case asserts.
   */
  lemma ClientStreamingRequestsFollowTable()
    ensures |ClientStreamingRequests()| == 4
    ensures forall i :: 0 <= i < 4 ==>
              ClientStreamingRequests()[i].payload.payloadType == None &&
              |ClientStreamingRequests()[i].payload.body| == [27182, 8, 1828, 45904][i] &&
              forall k :: 0 <= k < |ClientStreamingRequests()[i].payload.body| ==>
                ClientStreamingRequests()[i].payload.body[k] == 0
    ensures TotalBodyLength(ClientStreamingRequests()) == WantedAggregateSize
  {
    TotalBodyLengthIsSum(ClientStreamingRequests(), ClientStreamingSizes);
  }

  /**
   * `ping_pong` sends four requests; request i carries `msg_sizes[i][0]` NUL
   * bytes and asks for one COMPRESSABLE reply of `msg_sizes[i][1]` bytes.
   */
  lemma PingPongRequestsFollowTable()
    ensures |PingPongRequests()| == 4
    ensures forall i :: 0 <= i < 4 ==>
              PingPongRequests()[i].responseType == Compressable &&
              PingPongRequests()[i].responseParameters == [ResponseParameters(PingPongSizes[i].1)] &&
              PingPongRequests()[i].payload.Some? &&
              PingPongRequests()[i].payload.value.payloadType == None &&
              |PingPongRequests()[i].payload.value.body| == PingPongSizes[i].0 &&
              forall k :: 0 <= k < |PingPongRequests()[i].payload.value.body| ==>
                PingPongRequests()[i].payload.value.body[k] == 0
  {
  }

  /** `server_streaming` sends one COMPRESSABLE request with the four sizes, in table order. */
  lemma ServerStreamingRequestFollowsTable()
    ensures ServerStreamingRequest().responseType == Compressable
    ensures ServerStreamingRequest().responseParameters ==
              [ResponseParameters(31415), ResponseParameters(9), ResponseParameters(2653), ResponseParameters(58979)]
  {
  }
}
