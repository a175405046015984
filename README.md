# gRPC Ruby interop client: the test-case matrix

This project models the core of the Ruby interop client (`src/ruby/bin/interop/interop_client.rb`) in Dafny.
That core is two things:

- `nulls(l)`, the filler generator. It returns `l` NUL bytes and raises for a negative `l`.
- The class `NamedTests`. It has five test cases: `empty_unary`, `large_unary`, `client_streaming`, `server_streaming` and `ping_pong`. Each one builds its request(s) from a fixed size table, calls the stub once, and checks the reply with Minitest assertions.

The model is split into these modules:

- `Messages`: the protocol messages the test cases build and read. It also has the `Stub`, a datatype of five arbitrary total functions, one per call. Nothing is assumed about the replies.
- `PayloadGenerator`: `nulls` as `[].pack('x' * l)`. `Repeat` builds the template and `PackNullDirectives` turns each `x` into one NUL byte.
- `Assertions`: Minitest's `assert` as a `Run`, which holds an outcome and an assertion count. Each assertion that runs adds one to the count. The first one that fails ends the test case, and the failure records which check it was (and the stream position, for the stream checks).
- `Scenarios`: the size tables, the request builders, and one pure function per test case. That function gives the `Run` the test case produces from a reply. `StreamRun` is the `each_with_index` loop shared by `server_streaming` and `ping_pong`.
- `InteropClient.NamedTests`: the class. It has the mutable `assertions` counter and the stub. Each test-case method is proved to return the outcome, and to add the assertion count, of its `Scenarios` function applied to what the stub returned. The stream loop is a `while` loop with invariants.
- `StreamLemmas` and `ScenarioLemmas`: what each test case accepts (in both directions), in which order its checks fail, and what its requests contain.
- `IdealServer`: a server that answers every request with `nulls` of the requested size, with the requested type, and reports the true aggregate. Every test case passes against it, both through the pure functions and through the class methods.

Behaviour of the code worth noting:

- `server_streaming` and `ping_pong` do not reject a stream with fewer than four replies. The loop only bounds the count from above (`StreamRunAcceptsPrefix`).
- `empty_unary` checks only the class of the reply, no field of it.
- `nulls` produces only a body. Requests built with `Payload.new(:body => ...)` leave the payload type unset (`None`).

## Model

| member | source | states |
|---|---|---|
| PayloadGenerator.Nulls | src/ruby/bin/interop/interop_client.rb:80-83 | fails exactly when `l < 0`, and then with the uninterpolated message `requires #{l} to be +ve`; otherwise returns exactly `l` bytes, all NUL |
| PayloadGenerator.Repeat | src/ruby/bin/interop/interop_client.rb:82 | the template `'x' * l` has length `l` and is `x` at every position |
| PayloadGenerator.PackNullDirectives | src/ruby/bin/interop/interop_client.rb:82 | packing an all-`x` template with no elements gives one NUL byte per directive |
| PayloadGenerator.NullsIsTheAllNulString | src/ruby/bin/interop/interop_client.rb:80-83 | for `l >= 0`, a byte string equals `nulls(l)` iff it has length `l` and only NUL bytes; so equal lengths give identical strings |
| PayloadGenerator.NullsErrorIgnoresLength | src/ruby/bin/interop/interop_client.rb:81 | every negative length gives the same error, which does not mention the length |
| Scenarios.EmptyUnaryRun | src/ruby/bin/interop/interop_client.rb:101-105 | one assertion; passes iff the reply is an `Empty` message, and otherwise fails as an invalid response |
| Scenarios.ClientStreamingRun | src/ruby/bin/interop/interop_client.rb:137-138 | one assertion; passes iff the reported aggregate is 74922 |
| Assertions.AssertStep | src/ruby/bin/interop/interop_client.rb:103-121 | no contract; Minitest's `assert` (count, then raise when false) on a run; see `InteropClient.NamedTests.Assert` and `StreamLemmas.StreamRunSettled` |
| Scenarios.LargeUnaryRequest | src/ruby/bin/interop/interop_client.rb:112-116 | no contract; see `ScenarioLemmas.LargeUnaryRequestFollowsTable` |
| Scenarios.ClientStreamingRequests | src/ruby/bin/interop/interop_client.rb:130-135 | no contract; see `ScenarioLemmas.ClientStreamingRequestsFollowTable` |
| Scenarios.ServerStreamingRequest | src/ruby/bin/interop/interop_client.rb:147-150 | no contract; see `ScenarioLemmas.ServerStreamingRequestFollowsTable` |
| Scenarios.PingPongRequests | src/ruby/bin/interop/interop_client.rb:170-176 | no contract; see `ScenarioLemmas.PingPongRequestsFollowTable` |
| Scenarios.PingPongResponseSizes | src/ruby/bin/interop/interop_client.rb:181 | no contract; the `msg_sizes[i][1]` column; see `StreamLemmas.PingPongAcceptsExactly` |
| Scenarios.LargeUnaryRun | src/ruby/bin/interop/interop_client.rb:118-121 | a body of the wrong length fails the first assertion and stops there; a body of the right length runs both assertions and fails, if at all, on content; see `ScenarioLemmas.LargeUnaryAcceptsExactly` for the iff |
| Scenarios.ElementRun | src/ruby/bin/interop/interop_client.rb:153-156 | after a failure nothing runs; otherwise the element passes iff its position is in the table and it is COMPRESSABLE with the size at that position, taking 3 assertions, and a failure names that position after 1 to 3 assertions |
| Scenarios.StreamRun | src/ruby/bin/interop/interop_client.rb:152-157 | runs at most 3 assertions per element, and a failure names a stream check at a position inside the stream |
| Scenarios.ServerStreamingRun | src/ruby/bin/interop/interop_client.rb:152-157 | no contract; the loop against `[31415, 9, 2653, 58979]`; see `StreamLemmas.ServerStreamingAcceptsExactly` |
| Scenarios.PingPongRun | src/ruby/bin/interop/interop_client.rb:178-183 | no contract; the loop against `msg_sizes[i][1]`; see `StreamLemmas.PingPongAcceptsExactly` |
| ScenarioLemmas.LargeUnaryAcceptsExactly | src/ruby/bin/interop/interop_client.rb:118-121 | passes iff the body is 314159 NUL bytes; a wrong length fails on the first assertion, before the content is compared; a right-length body with other content fails on the content assertion |
| ScenarioLemmas.LargeUnaryRequestFollowsTable | src/ruby/bin/interop/interop_client.rb:112-116 | the request asks for a COMPRESSABLE reply of 314159 bytes and carries a COMPRESSABLE payload of 271828 NUL bytes |
| ScenarioLemmas.ClientStreamingRequestsFollowTable | src/ruby/bin/interop/interop_client.rb:130-135 | four requests, in the order 27182, 8, 1828, 45904, each with that many NUL bytes and no type; their bodies total 74922, the asserted aggregate |
| ScenarioLemmas.ServerStreamingRequestFollowsTable | src/ruby/bin/interop/interop_client.rb:147-150 | one COMPRESSABLE request whose response parameters are the sizes 31415, 9, 2653, 58979 in order |
| ScenarioLemmas.PingPongRequestsFollowTable | src/ruby/bin/interop/interop_client.rb:170-176 | four requests; request i carries `msg_sizes[i][0]` NUL bytes and asks for one COMPRESSABLE reply of `msg_sizes[i][1]` bytes |
| StreamLemmas.StreamRunSettled | src/ruby/bin/interop/interop_client.rb:152-157 | after the first failed assertion, the rest of the stream changes neither the outcome nor the count |
| StreamLemmas.StreamRunPassesIff | src/ruby/bin/interop/interop_client.rb:152-157 | the loop passes iff the stream has no more elements than the table and each element is COMPRESSABLE with the size at its own position; a pass runs three assertions per element |
| StreamLemmas.StreamRunFailsAtFirstBadElement | src/ruby/bin/interop/interop_client.rb:152-157 | the loop fails at the first non-conforming element, on its first failing check (too many, then type, then length), after exactly 3 assertions per earlier element plus 1, 2 or 3 for that check |
| StreamLemmas.StreamRunAcceptsPrefix | src/ruby/bin/interop/interop_client.rb:152-157 | every prefix of an accepted stream is accepted, so a short stream is not rejected |
| StreamLemmas.ServerStreamingAcceptsExactly | src/ruby/bin/interop/interop_client.rb:146-157 | passes iff there are at most 4 replies and reply i is COMPRESSABLE with body length `[31415, 9, 2653, 58979][i]` |
| StreamLemmas.ServerStreamingRejectsFifthReply | src/ruby/bin/interop/interop_client.rb:153 | a fifth reply always fails; after four conforming replies, it fails the `too many responses` check on position 4, at assertion 13 |
| StreamLemmas.PingPongAcceptsExactly | src/ruby/bin/interop/interop_client.rb:178-183 | passes iff there are at most 4 replies and reply i is COMPRESSABLE with body length `msg_sizes[i][1]` |
| StreamLemmas.PingPongDetectsSwappedReplies | src/ruby/bin/interop/interop_client.rb:170-183 | swapping two replies of different lengths in an accepted stream makes it fail |
| InteropClient.NamedTests.constructor | src/ruby/bin/interop/interop_client.rb:92-95 | starts with zero assertions and keeps the given stub |
| InteropClient.NamedTests.Assert | src/ruby/bin/interop/interop_client.rb:87-90 | counts one assertion, and fails with the given check exactly when the test is false |
| InteropClient.NamedTests.EmptyUnary | src/ruby/bin/interop/interop_client.rb:101-105 | outcome and added assertions are those of `EmptyUnaryRun` on the stub's reply |
| InteropClient.NamedTests.LargeUnary | src/ruby/bin/interop/interop_client.rb:111-123 | outcome and added assertions are those of `LargeUnaryRun` on the stub's reply to the large request |
| InteropClient.NamedTests.ClientStreaming | src/ruby/bin/interop/interop_client.rb:129-140 | outcome and added assertions are those of `ClientStreamingRun` on the stub's reply to the four requests |
| InteropClient.NamedTests.ServerStreaming | src/ruby/bin/interop/interop_client.rb:146-159 | outcome and added assertions are those of the stream loop against `[31415, 9, 2653, 58979]` |
| InteropClient.NamedTests.PingPong | src/ruby/bin/interop/interop_client.rb:168-185 | outcome and added assertions are those of the stream loop against the response sizes of `msg_sizes` |
| InteropClient.NamedTests.AssertEachResponse | src/ruby/bin/interop/interop_client.rb:152-157 | the imperative loop stops at the first failed assertion and agrees with `StreamRun` on both the outcome and the count |
| IdealServer.IdealServerPassesUnaryTestCases | src/ruby/bin/interop/interop_client.rb:101-123 | against a server that echoes `nulls` of the requested size, `empty_unary` passes after one assertion and `large_unary` after two |
| IdealServer.IdealServerPassesClientStreaming | src/ruby/bin/interop/interop_client.rb:129-140 | a server that reports the true sum of body lengths passes `client_streaming` |
| IdealServer.ClientStreamingPassesInAnyOrder | src/ruby/bin/interop/interop_client.rb:130-138 | that server passes whatever order the four requests arrive in (the sum does not depend on order) |
| IdealServer.IdealServerPassesServerStreaming | src/ruby/bin/interop/interop_client.rb:146-159 | one reply of `nulls(size)` per requested size passes, after 12 assertions |
| IdealServer.IdealServerPassesPingPong | src/ruby/bin/interop/interop_client.rb:168-185 | one reply per duplex request, in send order, passes after 12 assertions |
| IdealServer.RunAllAgainstIdealServer | src/ruby/bin/interop/interop_client.rb:92-185 | a `NamedTests` built on the ideal server passes all five test-case methods, with 28 assertions in all |

## Left out

- `load_test_certs`, `test_creds` and `create_stub` are not modelled. They read files, build TLS credentials and open a channel.
- `parse_options` and `main` are not modelled. They parse options and pick the test case by reflection.
- The stub's network calls are not modelled. They are arbitrary functions, so transport errors and exceptions raised by the stub are not modelled either.
- A reply stream is a finite sequence. A lazy stream that never ends is not modelled.
- The `p 'OK: ...'` console output is not modelled.
- Assertion message strings are not modelled. A `Check` value names the failed assertion instead. The stream checks carry the position, but the source's message `'payload body #{i} has the wrong length'` is single-quoted, so a real failure message never shows it.
- Every reply is taken to have a payload and a body. In Ruby a reply with no payload raises `NoMethodError` at the first field read through it: at `r.payload.type` in the stream loops (lines 154 and 180), after 1 assertion, and at `resp.payload.body` in `large_unary` (line 118), after 0. A reply whose body is unset (nil) raises at `body.length` (lines 118, 155 and 181) before that assertion runs, so it is neither counted nor failed. The model instead runs and fails that assertion: for a COMPRESSABLE stream reply at position 0 with a nil body, it gives `WrongBodyLength(0)` after 3 assertions, where Ruby stops with an exception after 2.
- A body's length is its byte count. This matches Ruby's `String#length` only for a binary-encoded body, where characters and bytes coincide.
- `empty_unary` sends a `Proto2::Empty` and checks for a `Proto::Empty`. The model has a single `Empty` type, so any difference between those two names is not captured.
- `ping_pong` passes one `ResponseParameters` object for a repeated field. The model treats it as a one-element list.
- PayloadGenerator.PackNullDirectives: only the `x` directive of `Array#pack` is modelled, since it is the only one the client uses.
- The ideal server is not part of the source. It exists only to show that a conforming reply passes. For a negative requested size it sends an empty body.
- test/cpp/interop/client_helper.cc is not part of this model. It consists of flag lookups, a cached key-file read, and channel and credential construction.
