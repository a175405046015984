/**
 * An ideal server: every reply body is `nulls` of the requested size, with
 * the requested type, and the client-stream aggregate is the true sum. Every
 * test case passes against it.
 */
module IdealServer {
  import opened Wrappers
  import opened Messages
  import opened PayloadGenerator
  import opened Assertions
  import opened Scenarios
  import opened ScenarioLemmas
  import opened StreamLemmas
  import InteropClient

  /** The body the ideal server sends for a requested size (none for a negative size). */
  function EchoBody(size: int): (body: seq<byte>)
    ensures size >= 0 ==> Nulls(size) == Success(body)
    ensures size < 0 ==> body == []
  {
    match Nulls(size)
    case Success(b) => b
    case Failure(_) => []
  }

  /** One reply per response parameter, in order. */
  function OutputReplies(req: StreamingOutputCallRequest): seq<StreamingOutputCallResponse>
  {
    seq(|req.responseParameters|, i requires 0 <= i < |req.responseParameters| =>
      StreamingOutputCallResponse(Payload(Some(req.responseType), EchoBody(req.responseParameters[i].size))))
  }

  /** The duplex stream: the replies to each request, in send order. */
  function DuplexReplies(reqs: seq<StreamingOutputCallRequest>): seq<StreamingOutputCallResponse>
  {
    if reqs == [] then [] else OutputReplies(reqs[0]) + DuplexReplies(reqs[1..])
  }

  function IdealStub(): Stub
  {
    Stub(
      (_: Empty) => EmptyMessage(Empty),
      (req: SimpleRequest) => SimpleResponse(Payload(Some(req.responseType), EchoBody(req.responseSize))),
      (reqs: seq<StreamingInputCallRequest>) => StreamingInputCallResponse(TotalBodyLength(reqs)),
      OutputReplies,
      DuplexReplies)
  }

  /** With one response parameter per request, the duplex stream pairs reply i with request i. */
  lemma {:induction false} DuplexRepliesPairByPosition(reqs: seq<StreamingOutputCallRequest>)
    requires forall k :: 0 <= k < |reqs| ==> |reqs[k].responseParameters| == 1
    ensures |DuplexReplies(reqs)| == |reqs|
    ensures forall k :: 0 <= k < |reqs| ==> DuplexReplies(reqs)[k] == OutputReplies(reqs[k])[0]
  {
    if reqs != [] {
      DuplexRepliesPairByPosition(reqs[1..]);
    }
  }

  lemma {:induction false} TotalBodyLengthAppend(a: seq<StreamingInputCallRequest>, b: seq<StreamingInputCallRequest>)
    ensures TotalBodyLength(a + b) == TotalBodyLength(a) + TotalBodyLength(b)
  {
    if a == [] {
      assert a + b == b;
    } else {
      assert (a + b)[1..] == a[1..] + b;
      TotalBodyLengthAppend(a[1..], b);
    }
  }

  /** The aggregate does not depend on the order in which the requests arrive. */
  lemma {:induction false} TotalBodyLengthIgnoresOrder(a: seq<StreamingInputCallRequest>, b: seq<StreamingInputCallRequest>)
    requires multiset(a) == multiset(b)
    ensures TotalBodyLength(a) == TotalBodyLength(b)
  {
    if a == [] {
      assert |b| == |multiset(b)| == 0;
    } else {
      var x := a[0];
      assert x in multiset(b);
      var j :| 0 <= j < |b| && b[j] == x;
      var tail := [x] + b[j + 1..];
      var rest := b[..j] + b[j + 1..];
      assert b == b[..j] + tail;
      assert tail[1..] == b[j + 1..];
      assert multiset(b) == multiset(b[..j]) + multiset{x} + multiset(b[j + 1..]);
      assert multiset(rest) == multiset(b[..j]) + multiset(b[j + 1..]);
      assert a == [x] + a[1..];
      assert multiset(a) == multiset{x} + multiset(a[1..]);
      assert multiset(a[1..]) == multiset(a) - multiset{x};
      assert multiset(rest) == multiset(b) - multiset{x};
      assert multiset(rest) == multiset(a[1..]);
      TotalBodyLengthIgnoresOrder(a[1..], rest);
      TotalBodyLengthAppend(b[..j], tail);
      TotalBodyLengthAppend(b[..j], b[j + 1..]);
    }
  }

  /**
   * `client_streaming` passes against a server that reports the true sum,
   * whatever order the requests reach it in.
   */
  lemma ClientStreamingPassesInAnyOrder(reqs: seq<StreamingInputCallRequest>)
    requires multiset(reqs) == multiset(ClientStreamingRequests())
    ensures ClientStreamingRun(IdealStub().streamingInputCall(reqs)).outcome == Pass
  {
    TotalBodyLengthIgnoresOrder(reqs, ClientStreamingRequests());
    ClientStreamingRequestsFollowTable();
  }

  /** `empty_unary` and `large_unary` pass against the ideal server. */
  lemma IdealServerPassesUnaryTestCases()
    ensures EmptyUnaryRun(IdealStub().emptyCall(Empty)) == Run(Pass, 1)
    ensures LargeUnaryRun(IdealStub().unaryCall(LargeUnaryRequest())) == Run(Pass, 2)
  {
    LargeUnaryAcceptsExactly(IdealStub().unaryCall(LargeUnaryRequest()));
  }

  /** `client_streaming` passes against the ideal server. */
  lemma IdealServerPassesClientStreaming()
    ensures ClientStreamingRun(IdealStub().streamingInputCall(ClientStreamingRequests())) == Run(Pass, 1)
  {
    ClientStreamingRequestsFollowTable();
  }

  /** `server_streaming` passes against the ideal server, after 4 x 3 assertions. */
  lemma IdealServerPassesServerStreaming()
    ensures ServerStreamingRun(IdealStub().streamingOutputCall(ServerStreamingRequest())) == Run(Pass, 12)
  {
    var served := OutputReplies(ServerStreamingRequest());
    assert |served| == 4;
    assert forall i :: 0 <= i < 4 ==> ElementConforms(served[i], ServerStreamingSizes[i]);
    StreamRunPassesIff(served, ServerStreamingSizes);
  }

  /** `ping_pong` passes against the ideal server, after 4 x 3 assertions. */
  lemma IdealServerPassesPingPong()
    ensures PingPongRun(IdealStub().fullDuplexCall(PingPongRequests())) == Run(Pass, 12)
  {
    var reqs := PingPongRequests();
    DuplexRepliesPairByPosition(reqs);
    var served := DuplexReplies(reqs);
    assert forall i :: 0 <= i < 4 ==> ElementConforms(served[i], PingPongResponseSizes()[i]);
    StreamRunPassesIff(served, PingPongResponseSizes());
  }

  /** Running the five test cases of `NamedTests` against the ideal server: all pass. */
  method RunAllAgainstIdealServer() returns (outcomes: seq<Outcome>, assertions: nat)
    ensures outcomes == [Pass, Pass, Pass, Pass, Pass]
    ensures assertions == 1 + 2 + 1 + 12 + 12
  {
    IdealServerPassesUnaryTestCases();
    IdealServerPassesClientStreaming();
    IdealServerPassesServerStreaming();
    IdealServerPassesPingPong();
    var tests := new InteropClient.NamedTests(IdealStub());
    var emptyUnary := tests.EmptyUnary();
    var largeUnary := tests.LargeUnary();
    var clientStreaming := tests.ClientStreaming();
    var serverStreaming := tests.ServerStreaming();
    var pingPong := tests.PingPong();
    outcomes := [emptyUnary, largeUnary, clientStreaming, serverStreaming, pingPong];
    assertions := tests.assertions;
  }
}
