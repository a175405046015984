/** What the stream loop of `server_streaming` and `ping_pong` accepts and rejects. */
module StreamLemmas {
  import opened Wrappers
  import opened Messages
  import opened Assertions
  import opened Scenarios

  /** Once an assertion has failed, the rest of the stream is not looked at. */
  lemma {:induction false} StreamRunSettled(resps: seq<StreamingOutputCallResponse>, sizes: seq<int>, k: nat)
    requires k <= |resps|
    requires StreamRun(resps[..k], sizes).outcome.Fail?
    ensures StreamRun(resps, sizes) == StreamRun(resps[..k], sizes)
  {
    if k == |resps| {
      assert resps[..k] == resps;
    } else {
      var n := |resps| - 1;
      assert resps[..n][..k] == resps[..k];
      StreamRunSettled(resps[..n], sizes, k);
    }
  }

  /**
   * The loop accepts a stream exactly when it has no more elements than
   * `sizes` and each element conforms to the size at its own position; a
   * passing stream has run three assertions per element.
   */
  lemma {:induction false} StreamRunPassesIff(resps: seq<StreamingOutputCallResponse>, sizes: seq<int>)
    ensures StreamRun(resps, sizes).outcome == Pass <==>
              |resps| <= |sizes| && forall i :: 0 <= i < |resps| ==> ElementConforms(resps[i], sizes[i])
    ensures StreamRun(resps, sizes).outcome == Pass ==> StreamRun(resps, sizes).assertions == 3 * |resps|
  {
    if resps != [] {
      var n := |resps| - 1;
      var prefix := resps[..n];
      StreamRunPassesIff(prefix, sizes);
      assert forall i :: 0 <= i < n ==> prefix[i] == resps[i];
    }
  }

  /** The check that fails first on an element that does not conform at position i. */
  function FirstFailedCheck(r: StreamingOutputCallResponse, i: nat, sizes: seq<int>): Check
  {
    if i >= |sizes| then TooManyResponses(i)
    else if r.payload.payloadType != Some(Compressable) then WrongPayloadType(i)
    else WrongBodyLength(i)
  }

  /**
   * The loop fails on the first element that does not conform, with the
   * first of its checks that fails, after the three assertions of each
   * element before it.
   */
  lemma StreamRunFailsAtFirstBadElement(resps: seq<StreamingOutputCallResponse>, sizes: seq<int>, j: nat)
    requires j < |resps|
    requires forall i :: 0 <= i < j ==> i < |sizes| && ElementConforms(resps[i], sizes[i])
    requires !(j < |sizes| && ElementConforms(resps[j], sizes[j]))
    ensures StreamRun(resps, sizes).outcome == Fail(FirstFailedCheck(resps[j], j, sizes))
    ensures StreamRun(resps, sizes).assertions ==
              3 * j + (if j >= |sizes| then 1
                       else if resps[j].payload.payloadType != Some(Compressable) then 2
                       else 3)
  {
    var prefix := resps[..j];
    assert forall i :: 0 <= i < j ==> prefix[i] == resps[i];
    StreamRunPassesIff(prefix, sizes);
    assert resps[..j + 1][..j] == prefix;
    StreamRunSettled(resps, sizes, j + 1);
  }

  /** A stream cut short is not rejected: every prefix of an accepted stream passes. */
  lemma StreamRunAcceptsPrefix(resps: seq<StreamingOutputCallResponse>, sizes: seq<int>, k: nat)
    requires k <= |resps|
    requires StreamRun(resps, sizes).outcome == Pass
    ensures StreamRun(resps[..k], sizes).outcome == Pass
  {
    StreamRunPassesIff(resps, sizes);
    StreamRunPassesIff(resps[..k], sizes);
  }

  /** `server_streaming` accepts exactly: at most 4 replies, each COMPRESSABLE with the size at its position. */
  lemma ServerStreamingAcceptsExactly(resps: seq<StreamingOutputCallResponse>)
    ensures ServerStreamingRun(resps).outcome == Pass <==>
              |resps| <= 4 &&
              forall i :: 0 <= i < |resps| ==>
                resps[i].payload.payloadType == Some(Compressable) &&
                |resps[i].payload.body| == [31415, 9, 2653, 58979][i]
  {
    StreamRunPassesIff(resps, ServerStreamingSizes);
  }

  /**
   * A fifth reply fails `server_streaming`; when the first four conform, it
   * is the `too many responses` assertion on position 4 that fails.
   */
  lemma ServerStreamingRejectsFifthReply(resps: seq<StreamingOutputCallResponse>)
    requires |resps| > 4
    ensures ServerStreamingRun(resps).outcome.Fail?
    ensures (forall i :: 0 <= i < 4 ==> ElementConforms(resps[i], ServerStreamingSizes[i])) ==>
              ServerStreamingRun(resps) == Run(Fail(TooManyResponses(4)), 13)
  {
    StreamRunPassesIff(resps, ServerStreamingSizes);
    if forall i :: 0 <= i < 4 ==> ElementConforms(resps[i], ServerStreamingSizes[i]) {
      StreamRunFailsAtFirstBadElement(resps, ServerStreamingSizes, 4);
      var prefix := resps[..4];
      assert forall i :: 0 <= i < 4 ==> prefix[i] == resps[i];
      StreamRunPassesIff(prefix, ServerStreamingSizes);
      assert resps[..5][..4] == prefix;
      StreamRunSettled(resps, ServerStreamingSizes, 5);
    }
  }

  /** `ping_pong` accepts exactly: at most 4 replies, reply i COMPRESSABLE with body length `msg_sizes[i][1]`. */
  lemma PingPongAcceptsExactly(resps: seq<StreamingOutputCallResponse>)
    ensures PingPongRun(resps).outcome == Pass <==>
              |resps| <= 4 &&
              forall i :: 0 <= i < |resps| ==>
                resps[i].payload.payloadType == Some(Compressable) &&
                |resps[i].payload.body| == PingPongSizes[i].1
  {
    StreamRunPassesIff(resps, PingPongResponseSizes());
  }

  /**
   * Pairing is by position: swapping two replies of an accepted `ping_pong`
   * stream whose bodies differ in length makes it fail.
   */
  lemma PingPongDetectsSwappedReplies(resps: seq<StreamingOutputCallResponse>, i: nat, j: nat)
    requires i < |resps| && j < |resps|
    requires |resps[i].payload.body| != |resps[j].payload.body|
    requires PingPongRun(resps).outcome == Pass
    ensures PingPongRun(resps[i := resps[j]][j := resps[i]]).outcome.Fail?
  {
    var swapped := resps[i := resps[j]][j := resps[i]];
    PingPongAcceptsExactly(resps);
    PingPongAcceptsExactly(swapped);
    assert swapped[i] == resps[j];
  }
}
