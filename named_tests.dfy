/**
 * The class `NamedTests`: one method per interop test case, run against the
 * stub it was built with. Minitest's counter `assertions` is its mutable
 * state; a failed assertion ends the method with `Fail`.
 */
module InteropClient {
  import opened Wrappers
  import opened Messages
  import opened PayloadGenerator
  import opened Assertions
  import opened Scenarios
  import StreamLemmas

  class NamedTests {
    var assertions: nat
    const stub: Stub

    constructor (stub: Stub)
      ensures this.stub == stub
      ensures assertions == 0
    {
      this.stub := stub;
      assertions := 0;
    }

    /** Minitest's `assert`/`assert_equal`: count the assertion, fail when `test` is false. */
    method Assert(test: bool, check: Check) returns (outcome: Outcome)
      modifies this`assertions
      ensures assertions == old(assertions) + 1
      ensures outcome == if test then Pass else Fail(check)
    {
      assertions := assertions + 1;
      outcome := if test then Pass else Fail(check);
    }

    method EmptyUnary() returns (outcome: Outcome)
      modifies this`assertions
      ensures outcome == EmptyUnaryRun(stub.emptyCall(Empty)).outcome
      ensures assertions == old(assertions) + EmptyUnaryRun(stub.emptyCall(Empty)).assertions
    {
      var resp := stub.emptyCall(Empty);
      outcome := Assert(resp.EmptyMessage?, InvalidResponse);
    }

    method LargeUnary() returns (outcome: Outcome)
      modifies this`assertions
      ensures outcome == LargeUnaryRun(stub.unaryCall(LargeUnaryRequest())).outcome
      ensures assertions == old(assertions) + LargeUnaryRun(stub.unaryCall(LargeUnaryRequest())).assertions
    {
      var resp := stub.unaryCall(LargeUnaryRequest());
      outcome := Assert(LargeUnaryResponseSize == |resp.payload.body|, WrongLength);
      if outcome.Fail? {
        return;
      }
      outcome := Assert(Nulls(LargeUnaryResponseSize).value == resp.payload.body, InvalidContent);
    }

    method ClientStreaming() returns (outcome: Outcome)
      modifies this`assertions
      ensures outcome == ClientStreamingRun(stub.streamingInputCall(ClientStreamingRequests())).outcome
      ensures assertions == old(assertions) + ClientStreamingRun(stub.streamingInputCall(ClientStreamingRequests())).assertions
    {
      var reqs := ClientStreamingRequests();
      var resp := stub.streamingInputCall(reqs);
      outcome := Assert(WantedAggregateSize == resp.aggregatedPayloadSize, WrongAggregateSize);
    }

    method ServerStreaming() returns (outcome: Outcome)
      modifies this`assertions
      ensures outcome == ServerStreamingRun(stub.streamingOutputCall(ServerStreamingRequest())).outcome
      ensures assertions == old(assertions) + ServerStreamingRun(stub.streamingOutputCall(ServerStreamingRequest())).assertions
    {
      var resps := stub.streamingOutputCall(ServerStreamingRequest());
      outcome := AssertEachResponse(resps, ServerStreamingSizes);
    }

    method PingPong() returns (outcome: Outcome)
      modifies this`assertions
      ensures outcome == PingPongRun(stub.fullDuplexCall(PingPongRequests())).outcome
      ensures assertions == old(assertions) + PingPongRun(stub.fullDuplexCall(PingPongRequests())).assertions
    {
      var resps := stub.fullDuplexCall(PingPongRequests());
      outcome := AssertEachResponse(resps, PingPongResponseSizes());
    }

    /**
     * The `each_with_index` loop shared by `server_streaming` and
     * `ping_pong`: position i must exist in `sizes`, be COMPRESSABLE and
     * have body length `sizes[i]`; the first failed assertion stops it.
     */
    method AssertEachResponse(resps: seq<StreamingOutputCallResponse>, sizes: seq<int>) returns (outcome: Outcome)
      modifies this`assertions
      ensures outcome == StreamRun(resps, sizes).outcome
      ensures assertions == old(assertions) + StreamRun(resps, sizes).assertions
    {
      var i := 0;
      while i < |resps|
        invariant 0 <= i <= |resps|
        invariant StreamRun(resps[..i], sizes).outcome == Pass
        invariant assertions == old(assertions) + StreamRun(resps[..i], sizes).assertions
      {
        assert resps[..i + 1][..i] == resps[..i];
        var r := resps[i];
        outcome := Assert(i < |sizes|, TooManyResponses(i));
        if outcome.Fail? {
          StreamLemmas.StreamRunSettled(resps, sizes, i + 1);
          return;
        }
        outcome := Assert(r.payload.payloadType == Some(Compressable), WrongPayloadType(i));
        if outcome.Fail? {
          StreamLemmas.StreamRunSettled(resps, sizes, i + 1);
          return;
        }
        outcome := Assert(sizes[i] == |r.payload.body|, WrongBodyLength(i));
        if outcome.Fail? {
          StreamLemmas.StreamRunSettled(resps, sizes, i + 1);
          return;
        }
        i := i + 1;
      }
      assert resps[..i] == resps;
      outcome := Pass;
    }
  }
}
