# node-wreq verification model

A Dafny model of the stateful cores of node-wreq, with proofs of what they promise. The TypeScript
side (WebSocket class, fetch loop, responses, headers, request bodies) and the Rust side (handle
stores, connection task, upload channels, client cache) are modelled together where they have to
agree. Run `dafny verify dfyconfig.toml` to check everything.

## Parts

- **WebSocket** (`WebSocketModel`, `WebSocketSafety`, `WebSocketHistory`, `WebSocketEvents`, `WebSocketDelivery`,
  `WebSocketObjects`, `WebSocketDriver`). One transition system holds the socket, the process-wide handle store and the
  connection task. Handlers may call `send` and `close` in the middle of a method: `turn` is what a
  method still has to do when they return. Native threads and the task may step at any time. The
  classes of `WebSocketObjects` are the same code with mutable fields, each method proved against the
  function of the transition system; `WebSocketDriver` drives them together and shows that their calls
  are its runs. `WebSocketHistory` tells a run by its steps alone: the frames that arrived, the calls of `send` and
  `close`, what listeners were shown; the theorems on events and delivery are stated over these.
- **Fetch** (`Urls`, `Redirects`, `RedirectChain`, `Fetch`, `FetchTheorems`, `FetchHeaders`,
  `FetchDecisions`, `FetchResponses`, `FetchExamples`, `FetchLoop`). One turn of the loop is a function of the loop state and of what the
  outside does: signal, cookie jar, hooks (which may edit headers, answer, replace responses or
  throw), server, callbacks. A run takes any infinite sequence of turns; it is proved to end. A hop
  records the tokens of the Referrer-Policy headers seen since the hop before it. `FetchDecisions` is a table of
  the outcomes of a turn beside the code: each comes about exactly under its conditions. `FetchLoop` is the
  loop in statement form over a request object whose headers are edited in place.
- **Bodies** (`NativeBody`, `ResponseBody`, `ResponseObjects`). A response
  and all its clones share one native body; a branch of `tee` is a position in the chunks pulled so far.
- **Uploads** (`Upload`). Pump, writer tasks, bounded channels, cancellation and the settling of
  `nativeRequest`, for raw and multipart bodies.
- **Kernels** (`Boundary`, `HeaderTable`, `ClientCache`). Boundary rewriting on byte arrays, the header
  index beside the tuple list, and the get, build and insert sequence of the client cache.

## What the code does differently from what one may expect

- A beforeRedirect hook that throws stops the redirect, but the referrer policy of that response
  already counts: if the request is retried, the next hop starts from it (src/http/fetch.ts:186-209).
  `FetchHeaders.TurnKeepsPolicy` states the exact rule.
- The attempt number given to beforeRetry repeats exactly when the hook or the backoff of a retry throws in
  the try block and the catch clause decides to retry as well (src/http/fetch.ts:244-254 and 296-307):
  `FetchTheorems.RetryAttemptsCountUp`, with a run in `FetchExamples.AttemptAnnouncedTwice`. A throw alone
  only makes one announcement more than there are retries (`FetchTheorems.AnnouncementsAreRetries`).
- A response is lost, neither cancelled nor carried by an error, exactly where a Location does not resolve
  and where one of these callbacks throws an error that does not carry it while it is held: onStats, the
  cookie jar, beforeRedirect, shouldRetry, beforeRetry, validateStatus and, for the response of a caught
  error, beforeError, which may also exchange the error (src/http/fetch.ts:112-148, 199-209, 233-251, 259,
  272-319). `FetchResponses.HeldThrow` and `FetchResponses.CatchThrow` name the guards,
  `FetchExamples.StoppedRedirectLosesResponse` and `FetchExamples.ThrowingValidatorLosesResponse` are runs.
- A body read in chunks waits for good when two empty data frames follow each other: an empty chunk is not
  enqueued (src/http/response.ts:343), and the Streams Standard pulls a source that delivered nothing only for
  a new read. `ResponseBody.UnusedBodyCanBeRead` has the exact condition, `ResponseBody.EmptyFramesStall` a run.
- An upload cancelled because its request settled early closes its channel without a failure, so what
  was received looks like a complete body (`Upload.CancelTruncates`). `Upload.CancelledEndIsComplete` says
  exactly when it is one.
- `bufferedAmount` is documented as the bytes not yet flushed (src/websocket/index.ts:210); bytes sent
  while closing or closed stay in it for good, as the WHATWG WebSockets Standard asks.
- In the random browser modes equal cache keys do not mean equal clients: a cached client keeps the
  identity that was drawn when it was built (`ClientCache.KeyDeterminesConfig`).

## Model

| member | source | states |
|---|---|---|
| WebSocketSafety.ReachableIsSafe | src/websocket/index.ts:260-579 | the invariant tying the socket fields, the native store and the connection holds after every interleaving of calls, handlers, microtasks, native threads and task steps |
| WebSocketSafety.EveryHandleIsOwnedOrGone | src/websocket/index.ts:411-458 | a handle a connect yielded is, once the connect continuation ran, adopted by an open or closing socket, about to be terminated for a wrong subprotocol, or out of the store |
| WebSocketSafety.ClosedMeansReleased | src/websocket/index.ts:564-579 | a CLOSED socket has no handle and its handle is not in the store, unless the connect result has not been handled yet |
| WebSocketSafety.LateConnectionIsTerminated | src/websocket/index.ts:418-422 | a connect that succeeds after close() is removed from the store and changes nothing a listener can see |
| WebSocketSafety.FailedReadIsFinal | rust/src/store/websocket_store.rs:84-100 | after a read that returned Close or an error the handle is never in the store again |
| WebSocketSafety.GoneStaysGone | rust/src/store/websocket_store.rs:41-59 | a handle that left the store never comes back: handles are not reused |
| WebSocketSafety.ReadyStateIsMonotone | src/websocket/index.ts:297-579 | readyState never decreases along any run |
| WebSocketEvents.EventTraceLanguage | src/websocket/index.ts:351-579 | every reachable event trace is a prefix of `error close` without an open, and `open (message or error)*` followed, once closed, by `close error*` with one |
| WebSocketEvents.ClassifiedShape | src/websocket/index.ts:509-579 | every trace the automaton does not reject has the written-out shape of its state, so the language is stated without the automaton |
| WebSocketEvents.NothingDeliveredAfterCloseCall | src/websocket/index.ts:297-349 | after a valid close() call no message and no open event is dispatched |
| WebSocketEvents.OpenedSettlesOnce | src/websocket/index.ts:524-540 | `opened` settles at most once, has settled by the time the socket leaves OPEN or CONNECTING, and resolves exactly when the open event is dispatched |
| WebSocketEvents.IncomingOrder | rust/src/transport/websocket.rs:84-127 | the message events are a prefix, in order, of the data frames that arrived; the reader is told at most one close and nothing after it |
| WebSocketEvents.OpenSocketLosesNothing | src/websocket/index.ts:461-493 | while the socket is open and its task runs, the messages dispatched, in flight and waiting are together exactly the data frames that arrived |
| WebSocketEvents.CloseEventTellsWhy | src/websocket/index.ts:481-579 | every close event is 1006 and not clean, or has code and reason of a close frame of the peer, 1005 and an empty reason for one without a status |
| WebSocketEvents.NextOutcomeGetsThrough | src/websocket/index.ts:459-507 | whenever an outcome waits in the event channel and no method is suspended, some continuation of at most four steps dispatches it |
| WebSocketEvents.PumpNeverStops | src/websocket/index.ts:459-507 | on an open or closing socket on which no method is suspended a read is outstanding |
| WebSocketHistory.ObservedIsShown | src/websocket/index.ts:260-579 | in every run the log of events is what a table says each step shows, and readyState is what that log says |
| WebSocketHistory.ReceivedAreArrivals | rust/src/transport/websocket.rs:84-127 | the frames a task has received are the data frames among the steps of the run, in order |
| WebSocketHistory.QueuedAreOutcomes | rust/src/transport/websocket.rs:84-127 | what the task told the reader is, in order, the frames that arrived while somebody could read and how the connection ended |
| WebSocketHistory.TaskStopsExactly | rust/src/transport/websocket.rs:16-130 | the task of a connection has stopped exactly when some step failed a write, closed or broke the connection, brought a frame nobody reads, or found nobody holding it |
| WebSocketHistory.AcceptedAreSends | src/websocket/index.ts:260-294 | the payloads accepted are those of the calls of send on an open socket; those of later calls are counted as discarded bytes |
| WebSocketHistory.SendCounts | src/websocket/index.ts:260-294 | a call that does not throw adds its bytes, and on an open socket queues its payload |
| WebSocketDelivery.OrderedDelivery | src/websocket/index.ts:276-293 | the wire is, in call order, the payloads of the first calls of send on the open socket, without the blobs that could not be read, then at most one close frame after all of them |
| WebSocketDelivery.WireIsPrefixOfSends | rust/src/transport/websocket.rs:16-83 | when every payload could be read, data frame i on the wire carries the payload of send i, as text or as bytes |
| WebSocketDelivery.CloseFrameIsLast | src/websocket/index.ts:542-562 | a close frame on the wire is the last frame, comes after every send, and says what the first legal call of close asked for: 1000 for a reason alone, nothing for neither |
| WebSocketDelivery.EmptyQueueIsSent | src/websocket/index.ts:276-293 | when the queue is empty and the connection works, every readable payload is on the wire, followed by the close frame exactly if the socket is closing |
| WebSocketDelivery.NothingFollowsFailure | rust/src/transport/websocket.rs:28-35 | after a failed write, and once the task has ended, the wire never changes |
| WebSocketDelivery.ByteAccounting | src/websocket/index.ts:260-294 | bufferedAmount is the bytes of the payloads sent while open, from the first unsettled one on, plus the bytes of those given to send later |
| WebSocketDelivery.ClampIsIdle | src/websocket/index.ts:291-293 | the clamp at zero never changes the value |
| WebSocketDriver.Runtime.Play | src/websocket/index.ts:260-579 | any sequence of enabled steps, taken as method calls on the socket, the handle store and the connection task, is the run of the transition system |
| WebSocketDriver.Drive | src/websocket/index.ts:260-579 | a fresh socket driven by any steps is in a reachable state of the transition system, so its theorems hold of the objects; stated here for the release of the handle |
| WebSocketObjects.GetSendByteLength | src/websocket/send-data.ts:21-39 | the byte count taken before the copy is the byte count of the copy |
| WebSocketObjects.SnapshotCopies | src/websocket/send-data.ts:7-19 | the copy of a view holds the bytes of its window, that of a buffer all of them, element by element |
| Basics.Utf8LengthIsExact | src/websocket/send-data.ts:21-39 | the byte count of a text is the length of its UTF-8 encoding |
| WebSocketObjects.HandleStore.Insert | rust/src/store/websocket_store.rs:41-59 | a handle is the counter value, never one already in the store |
| WebSocketObjects.HandleStore.ReadMessage | rust/src/store/websocket_store.rs:84-100 | a close outcome, an error or a missing event removes the handle; a message keeps it |
| WebSocketObjects.HandleStore.SendCommand | rust/src/store/websocket_store.rs:102-126 | only an acknowledged success keeps the handle |
| WebSocketObjects.ReadThreadRefines | rust/src/store/websocket_store.rs:84-100 | the atomic read of the store is the three interleaved steps of the read thread |
| WebSocketObjects.SendThreadRefines | rust/src/store/websocket_store.rs:102-126 | the atomic command is the run of lookup, push, write or drop, and settle, for a running, a failed and an ended task and for a missing handle |
| WebSocketObjects.WebSocket.Send | src/websocket/index.ts:260-294 | the new state is that of the transition system, with the bytes of the argument as they stood at the call; throws exactly while CONNECTING |
| WebSocketObjects.WebSocket.Close | src/websocket/index.ts:297-349 | the new state is that of the transition system; throws exactly for an invalid code or reason |
| WebSocketObjects.WebSocket.ConnectSucceeded | src/websocket/index.ts:416-436 | the new state of socket and store after the connect promise resolved, including the termination of an unwanted connection |
| WebSocketObjects.WebSocket.ReadSettled | src/websocket/index.ts:464-491 | one turn of the message pump, as in the transition system |
| WebSocketObjects.WebSocket.JobCatch | src/websocket/index.ts:288-290 | the catch link of the send queue, as in the transition system |
| WebSocketObjects.WebSocket.JobFinally | src/websocket/index.ts:291-293 | the finally link of the send queue, as in the transition system |
| WebSocketObjects.WebSocket.FinalizeClose | src/websocket/index.ts:564-579 | the close transition happens once and leaves no handle |
| WebSocketObjects.WebSocket.ResumeMethod | src/websocket/index.ts:437-453 | what each method does after the handlers of its event returned |
| WebSocketObjects.ConnectionTask.Run | rust/src/transport/websocket.rs:11-130 | the select loop stops at the first failed write, close, closed channel or unread frame; up to there it writes every command, receives every data frame, and tells the reader each outcome |
| WebSocketObjects.ChoiceRefinesTask | rust/src/transport/websocket.rs:16-129 | each choice of the loop is one step of the interleaved task, or two when a write fails |
| Fetch.TurnMoves | src/http/fetch.ts:67-322 | a turn goes round the loop only by one followed redirect or one retry; otherwise it keeps its place and ends the run |
| Fetch.TurnSpends | src/http/pipeline/retries.ts:15-44 | every turn that goes round spends exactly one unit of the redirect and retry budget |
| Fetch.Run | src/http/fetch.ts:67-322 | every run ends, with a returned response or a thrown error |
| FetchTheorems.RedirectChainIsLinked | src/http/fetch.ts:139-221 | at every loop head the chain is linked from the first URL to the current one, visits no URL twice, and is at most maxRedirects long |
| FetchTheorems.RetryKeepsPlace | src/http/fetch.ts:244-257 | a retry leaves chain, visited URLs, URL and method unchanged |
| FetchTheorems.DispatchesAreBounded | src/http/fetch.ts:67-322 | a run makes at most 1 + maxRedirects + limit dispatches, however redirects and both kinds of retry interleave |
| FetchTheorems.MethodAndBodyAlongRun | src/http/fetch.ts:159-177 | each request sent has the method and the body of the first until some hop is a 303, or a 301 or 302 of a POST; from then on it is a GET, or a HEAD, without a body |
| FetchTheorems.NoBodyOnGetOrHead | src/http/request.ts:102-124 | starting from a constructible request no GET or HEAD is ever sent with a body |
| FetchTheorems.RetryAttemptsCountUp | src/http/fetch.ts:224-256 | beforeRetry sees 2, 3, 4, ... once each and in order exactly when in no turn both the try block and the catch clause decide to retry; it never sees an attempt beyond limit + 1 |
| FetchTheorems.AnnouncementsAreRetries | src/http/fetch.ts:244-254 | beforeRetry is called once for every retry made and once more for every retry whose beforeRetry hook or backoff throws |
| FetchExamples.AttemptAnnouncedTwice | src/http/fetch.ts:244-254 | a run in which the backoff throws, the catch clause retries, and beforeRetry is given the attempt 2 twice |
| FetchExamples.AnnouncedButNotMade | src/http/fetch.ts:244-254 | a run in which the hook of a retry throws and nothing retries: the retry is announced and not made, and the attempts still count up |
| FetchTheorems.ReturnedResponseIsFinal | src/http/fetch.ts:125-267 | what is returned is no redirect to follow, has an allowed status, and is retryable only when the attempts are used up |
| FetchDecisions.AfterHooksChoose | src/hooks/index.ts:48-71 | the afterResponse hooks yield the response of the last hook that returned one, and fail exactly when some hook throws |
| FetchDecisions.AfterHooksRelease | src/hooks/index.ts:48-71 | each response that is replaced is cancelled and the one that stays is not; a throw cancels it too |
| FetchDecisions.ReceivesExactly | src/http/fetch.ts:70-110 | a turn judges a response exactly when it gets one and no hook throws: that of the last hook that returned one, else the given one |
| FetchDecisions.TurnDispatches | src/http/fetch.ts:70-90 | a turn sends at most one request, exactly when it is not aborted, the jar and the beforeRequest hooks let it and its stream is unused: the current one with the cookies of the jar and the edits of the hooks |
| FetchDecisions.CookiesComeFromJar | src/http/pipeline/cookies.ts:18-37 | with a jar, a request carries the cookies the jar gave for it and no others |
| FetchDecisions.AbortedTurnStops | src/http/fetch.ts:70-71 | an aborted turn sends nothing and fails with ERR_ABORTED |
| FetchDecisions.StopsAreNamed | src/http/fetch.ts:70-90 | a turn stopped before it has a response fails with the error of the jar, of the beforeRequest hook, or with the code of the transport |
| FetchDecisions.StreamIsSentOnce | src/http/request.ts:303-324 | once a turn began to read a stream, no later request of the run carries one |
| FetchDecisions.FollowsExactly | src/http/fetch.ts:124-222 | a redirect is followed exactly under the listed conditions; the next request goes to its target with the edits of the hooks, and the hop records status, target and policy tokens |
| FetchDecisions.NextHeadersAre | src/http/pipeline/redirects.ts:44-63 | a redirected request is made with the headers of the request, without those the redirect strips and, with a jar, without cookies |
| FetchDecisions.StoppedRedirectCounts | src/http/fetch.ts:186-209 | a redirect stopped by a beforeRedirect hook fails with its error, changes no request, and its policy counts all the same |
| FetchDecisions.RefusalsAreNamed | src/http/fetch.ts:125-158 | a redirect not followed is returned in manual mode, or refused with the error that names why and carries the response |
| FetchDecisions.DecisionIsExact | src/http/pipeline/retries.ts:15-44 | the retry decision is yes exactly when an attempt is left, the method and the status or code may be retried, and the callback agrees; it fails exactly when the callback does |
| FetchDecisions.RetriesExactly | src/http/fetch.ts:224-257 | another attempt begins exactly when one of the two decisions is yes and no hook and no backoff throws |
| FetchDecisions.RetriesNeedAllowedVerb | src/http/pipeline/retries.ts:23-25 | a run makes a retry only if the first method may be retried, or GET may and a redirect dropped the body |
| FetchDecisions.ReturnsExactly | src/http/fetch.ts:125-267 | a response is returned exactly when it is the redirect a manual caller asked for, or an acceptable one that is not retried; it is the one that was judged |
| FetchDecisions.RunReturnsChosen | src/http/fetch.ts:67-322 | what a run returns is the response the last turn chose |
| FetchDecisions.UnacceptableIsThrown | src/http/fetch.ts:259-265 | a status that is not acceptable is thrown with the error that carries the response |
| FetchDecisions.ThrowsExactly | src/http/fetch.ts:268-321 | a turn ends with an error exactly when the try block fails and the catch clause does not retry; it is what beforeError makes of that error |
| FetchHeaders.HeadersAlongRun | src/http/pipeline/redirects.ts:44-63 | each request sent carries a header of the first one exactly when no hop before it strips that header, for every header no hook edits |
| FetchHeaders.CredentialsAlongRun | src/http/pipeline/redirects.ts:57-62 | authorization, proxy-authorization, cookie and cookie2 are carried on a hop exactly when it and all hops before it share the first origin |
| FetchHeaders.FramingAlongRun | src/http/pipeline/redirects.ts:50-55 | no redirected request has the caller's host or content-length; content-type is gone exactly once the body was dropped |
| FetchHeaders.RefererAlongRun | src/http/pipeline/redirects.ts:85-202 | the Referer of the request on hop k is the first Referer cleaned and reduced to the least detail any of the k hops allows, for every parser that reads back what the pipeline writes |
| FetchHeaders.RefererKeepsSecrets | src/http/pipeline/redirects.ts:100-114 | no redirected request shows credentials, the fragment or an overlong path of the URL that the first Referer was |
| FetchHeaders.TurnKeepsPolicy | src/http/fetch.ts:186-191 | the policy in force is the last recognised token of every response whose redirect was taken up, followed or stopped by a hook |
| FetchResponses.ResponsesAreConserved | src/http/fetch.ts:86-321 | in every run, whatever callbacks throw, each response obtained is cancelled, lost to a throw at a named place, or what the run ends with; it is conserved exactly when errors bring it back as often as it is lost |
| FetchExamples.StoppedRedirectLosesResponse | src/http/fetch.ts:199-209 | a run in which a beforeRedirect hook throws and the response it held is neither cancelled nor carried |
| FetchExamples.ThrowingValidatorLosesResponse | src/http/fetch.ts:259-265 | a run in which validateStatus throws and the response is neither cancelled nor carried |
| FetchResponses.RunAfterAccounts | src/hooks/index.ts:48-71 | a replacing afterResponse hook releases what it replaces, and a throwing one the current response |
| FetchResponses.JudgeAccounts | src/http/fetch.ts:112-267 | the try block accounts for its response: released on the way round, returned, carried by the error, or lost exactly when one of the listed callbacks, or a Location that does not resolve, throws an error that does not carry it |
| FetchResponses.QuietRunLosesNothing | src/http/fetch.ts:86-321 | when no callback throws that could still see a response, no beforeError hook exchanges the error, and every Location resolves, nothing is lost |
| FetchResponses.HeadsAreBalanced | src/http/fetch.ts:67-70 | in such runs, if other errors carry no response, nothing is outstanding at any loop head |
| FetchLoop.FetchWithNativeClient | src/http/fetch.ts:60-322 | the loop over local variables terminates and computes the run of the transition function |
| FetchLoop.FetchCall.RunAfterResponseHooks | src/hooks/index.ts:48-71 | the hook loop, as a function of its state |
| FetchLoop.FetchCall.Attempt | src/http/fetch.ts:70-267 | the try block in statement form equals its specification |
| FetchLoop.FetchCall.FollowOrRefuse | src/http/fetch.ts:125-222 | the redirect branch with its header edits in place, including the policy variable that changes before the hooks run |
| FetchLoop.FetchCall.Recover | src/http/fetch.ts:268-321 | the catch clause in statement form |
| FetchLoop.RequestObject.Replace | src/http/request.ts:303-324 | a copy for another URL, refused exactly for credentials in the URL or a used stream that would be sent again |
| FetchLoop.ShouldRetryRequest | src/http/pipeline/retries.ts:15-44 | the chain of tests computes the retry decision |
| RedirectChain.MethodChangesOnlyToGet | src/http/pipeline/redirects.ts:204-229 | along any chain the method changes only to GET together with the loss of the body |
| RedirectChain.MethodAlongChain | src/http/pipeline/redirects.ts:204-229 | the body is dropped exactly when some hop is a 303, or a 301 or 302 of a POST; the method is then GET, or HEAD for HEAD, and otherwise the first one |
| RedirectChain.ChainsCompose | src/http/pipeline/redirects.ts:204-229 | method and body loss of a chain in two parts are those of the parts |
| RedirectChain.CredentialsStayOnOrigin | src/http/pipeline/redirects.ts:57-62 | over a chain, credentials survive exactly while every hop stays on the first origin |
| RedirectChain.ContentTypeFollowsBody | src/http/pipeline/redirects.ts:53-55 | content-type is stripped somewhere exactly when the body is dropped somewhere |
| RedirectChain.OtherHeadersStay | src/http/pipeline/redirects.ts:44-63 | no chain strips any other header |
| RedirectChain.LeastDetailIsMinimum | src/http/pipeline/redirects.ts:134-192 | the accumulated detail is at most what each hop allows |
| RedirectChain.LeastDetailIsAllowed | src/http/pipeline/redirects.ts:134-192 | and, unless it is full, exactly what some hop allows |
| RedirectChain.RefererStep | src/http/pipeline/redirects.ts:120-202 | for a parser that reads back what the pipeline writes, applying the policy to what is left equals what the whole chain allows: detail never returns |
| RedirectChain.RefererIsDiscreet | src/http/pipeline/redirects.ts:94-118 | after a hop a Referer is gone or shows a discreet part of the first one, only the origin as soon as some hop allowed no more |
| Redirects.CleanIsDiscreet | src/http/pipeline/redirects.ts:106-114 | no credentials, no fragment; path and query exactly up to 4096 characters; nothing else changed |
| Redirects.PolicyTable | src/http/pipeline/redirects.ts:134-192 | the cases in which a policy sends nothing, and those in which it sends the whole URL, both exactly |
| Redirects.ParsesExactlyNames | src/http/pipeline/redirects.ts:6-16 | a token is read as a policy exactly when, trimmed and in lower case, it is the name of the policy |
| Redirects.SomeParserRoundTrips | src/http/pipeline/redirects.ts:94-118 | there is such a parser, and one that also reads back every well-formed http(s) URL |
| Redirects.UndoingPrintRoundTrips | src/http/pipeline/redirects.ts:94-118 | every parser that undoes printing on well-formed URLs reads back what the pipeline writes |
| Urls.PrintIsInjective | src/http/pipeline/redirects.ts:199 | two well-formed URLs with the same text are the same |
| Urls.OriginIsTriple | src/http/pipeline/redirects.ts:129 | two http(s) URLs have the same origin exactly when scheme, host and port agree |
| RedirectChain.PolicyStep | src/http/pipeline/redirects.ts:126 | keeping the current policy when a response names none equals taking the last token of all responses |
| RedirectChain.UnnamedPolicyIsStrict | src/http/pipeline/redirects.ts:17-20 | unless some response names a policy, strict-origin-when-cross-origin is in force |
| Redirects.LastPolicyIsLast | src/http/pipeline/redirects.ts:65-83 | the policy of a header is that of the last token that names one, and there is none exactly if no token does |
| RedirectChain.PolicyTouchesOnlyReferer | src/http/pipeline/redirects.ts:120-202 | the policy changes no other header |
| Redirects.StripRemovesExactly | src/http/pipeline/redirects.ts:44-63 | one redirect removes exactly the headers it must and leaves every other value alone |
| Redirects.StripRedirectSensitiveHeaders | src/http/pipeline/redirects.ts:44-63 | the deletions in place compute the stripped list |
| Redirects.ResponseReferrerPolicy | src/http/pipeline/redirects.ts:65-83 | the last recognised token decides |
| Redirects.ParseReferrer | src/http/pipeline/redirects.ts:85-118 | no credentials, no fragment, no path and query beyond 4096 characters; a value that is not an http(s) URL is deleted |
| Redirects.JudgePolicy | src/http/pipeline/redirects.ts:138-192 | the switch removes or strips exactly as the policy table allows |
| Redirects.ApplyRedirectReferrerPolicy | src/http/pipeline/redirects.ts:120-202 | the header list and the returned policy after one redirect |
| ResponseBody.WholeReadIsComplete | src/http/response.ts:440-498 | whatever was done to a response and its clones, a whole-body read that succeeds on any of them returns all data frames |
| ResponseBody.ReadWholeAtMostOnce | src/http/response.ts:299-301 | a response is read whole at most once; a used or locked body refuses reads and clones without any change |
| ResponseBody.HandleHasOneOwner | src/http/response.ts:326-363 | while the native handle is stored it belongs to the one response or to the shared stream source, never both, and afterwards to nobody |
| ResponseBody.NothingLeftInStore | src/http/response.ts:410-420 | when every branch is cancelled, or some branch has been read to the end, the handle has left the store |
| ResponseBody.ReturnedReadEnded | src/http/response.ts:478-492 | a whole-body read that returned has read to the end, and the handle is gone |
| ResponseBody.ReadersGetTheBody | src/http/response.ts:371-420 | the readers of a response are given the chunks of the body in order; at the end of a body that is not broken that was all of it |
| ResponseBody.ReaderGoesOn | src/http/response.ts:381-399 | a read by a reader of the caller gives the next chunk |
| ResponseBody.StepUses | src/http/response.ts:371-420 | a body is used exactly by reading or cancelling it, and stays used |
| ResponseBody.StepLocks | src/http/response.ts:299-301 | it is locked exactly by a reader until the lock is released, and by a whole-body read for good |
| ResponseBody.UnusedBodyCanBeRead | src/http/response.ts:254-297 | whatever was done to its clones, an unused response of an unbroken body can be read whole exactly when it still has the native handle, or the source has not stalled and no two empty data frames in a row are to come |
| ResponseBody.CloneCanBeRead | src/http/response.ts:254-297 | a clone is one response more, and it and the original can each be read whole exactly when the rest of the body can be pulled |
| ResponseBody.FullFramesNeverStall | src/http/response.ts:331-350 | a body without empty data frames meets that condition in every reachable state |
| ResponseBody.EmptyFramesStall | src/http/response.ts:331-350 | a run in which two empty data frames in a row leave a whole-body read waiting |
| ResponseBody.StepKeepsOk | src/http/response.ts:254-498 | the invariant of bodies, branches and owners is kept by every step |
| NativeBody.WholeByChunks | rust/src/store/body_store.rs:50-84 | the whole body is the next chunk and the whole of what follows |
| NativeBody.BodyStore.ReadBodyChunk | rust/src/store/body_store.rs:50-84 | the next data frame; the handle goes away at the end and on an error |
| NativeBody.BodyStore.ReadBodyAll | rust/src/store/body_store.rs:86-105 | the concatenation of all data frames or an error; the handle goes away first |
| NativeBody.BodyStore.ReadByChunks | src/http/response.ts:331-356 | looping read_body_chunk gives the bytes, the errors and the store of read_body_all |
| NativeBody.BodyStore.CancelBody | rust/src/store/body_store.rs:107-109 | removes the handle and reports whether it was there |
| ResponseObjects.Pipe.Pull | src/http/response.ts:331-350 | each pull keeps what was read and what is to come together equal to the whole body |
| ResponseObjects.ResponseObject.EnsureStreamSource | src/http/response.ts:303-364 | the handle moves from the response to the stream source; what can be read stays the same |
| ResponseObjects.ResponseObject.Clone | src/http/response.ts:254-297 | refused exactly when the body is unusable; otherwise both are branches of one pipe, new unless there was one, and can read the whole body |
| ResponseObjects.ResponseObject.ConsumeBytes | src/http/response.ts:440-498 | refused when unusable; otherwise the whole body by either path; the response and the pipe its clones share stay good |
| ResponseObjects.ResponseObject.CancelResponseBody | src/http/response.ts:502-512 | nothing while the body is locked; otherwise the branch is gone from the pipe, and the native body is released exactly with the last branch |
| ResponseObjects.CancelThenReadClone | src/http/response.ts:501-512 | a clone of a cancelled response still reads the whole body |
| ResponseObjects.CancelInTurn | src/http/response.ts:378-420 | of a response and its clone, the second to be cancelled drops the native body and the first does not, in either order |
| ResponseObjects.CloneAndReadBoth | src/http/response.ts:254-297 | a response and its clone both read the same whole body |
| ResponseObjects.ReadTwice | src/http/response.ts:440-443 | a second whole-body read and a late clone are refused |
| ResponseObjects.ReadBothWays | src/http/response.ts:440-493 | reading by handle and reading a clone chunk by chunk give the same |
| Upload.ReachableOk | src/http/body/bytes.ts:283-410 | the invariant of every channel relative to the pump holds in every interleaving |
| Upload.ReceivedInOrder | src/http/body/bytes.ts:522-589 | the request receives the source chunks in order, and at most one failure, last |
| Upload.AtMostTwoBuffered | rust/src/store/upload_store.rs:10-43 | at most two chunks wait in a channel |
| Upload.CleanEndIsComplete | rust/src/napi/upload.rs:26-77 | a clean end without cancellation means every chunk arrived |
| Upload.UploadCanComplete | src/http/body/bytes.ts:522-589 | from every state of an upload under way, not cancelled and not failed, some continuation brings every chunk of every source to the request and then the ends |
| Upload.BegunUploadCanComplete | src/http/body/bytes.ts:283-320 | in particular once the request has begun, for a raw body and for a multipart body of any number of sources |
| Upload.BrokenSourceIsReported | src/http/body/bytes.ts:341-410 | when a source breaks while the request reads its channel, some continuation brings the chunks on the way and then the failure |
| Upload.CancelledPumpReadsNoMore | src/http/body/bytes.ts:341-410 | a cancelled pump starts no new read |
| Upload.CancelledEndIsComplete | src/http/body/bytes.ts:326-340 | a cancelled upload that ends without a failure arrived whole exactly when, at the cancellation, every chunk was in the channel or held by the writer task |
| Upload.SettledLeavesNoHandle | src/native/request.ts:38-90 | once the request settles none of its upload handles is in the store, then or later |
| Upload.CancelTruncates | src/native/request.ts:53-63 | a concrete run in which a cancelled upload ends like a complete one |
| Upload.UploadStore.CreateUpload | rust/src/store/upload_store.rs:27-43 | a new handle with its receiver in the store |
| Upload.UploadStore.TakeReceiver | rust/src/store/upload_store.rs:45-54 | a receiver is taken at most once; unknown and attached handles are told apart |
| Upload.UploadStore.FinishUpload | rust/src/store/upload_store.rs:65-71 | removes the handle and reports whether it was there |
| Upload.UploadStore.PrepareHandles | src/http/body/bytes.ts:283-320 | fresh distinct handles, or the store as before when building the parts throws |
| Upload.NativeRequest.On | src/native/request.ts:46-89 | one callback: the first settles, later ones change nothing |
| Upload.NativeRequest.Race | src/native/request.ts:46-89 | however callbacks race, the first decides, the upload is cancelled once, the native request only on an abort that came first |
| Boundary.FindSequence | src/http/body/bytes.ts:160-172 | the least match at or after the offset, or -1 exactly when there is none |
| Boundary.ReplaceBoundaryBytes | src/http/body/bytes.ts:174-221 | equals the recursive leftmost non-overlapping replacement; throws exactly when nothing matches; every output index is written once |
| Boundary.FindMatches | src/http/body/bytes.ts:188-197 | the matches are the leftmost non-overlapping ones and none is left |
| Boundary.CopyPieces | src/http/body/bytes.ts:207-220 | the copying loop fills the output with the rewritten source |
| Boundary.ReplacedLength | src/http/body/bytes.ts:203-205 | the preallocated length is exact |
| Boundary.NormalizeFixesExactlyPaired | src/http/body/bytes.ts:141-143 | a text is unchanged exactly when its line endings are already pairs; normalising twice is once |
| Boundary.NormalizeKeepsLines | src/http/body/bytes.ts:141-143 | normalizing keeps the lines of a text and joins them with the pair |
| Boundary.EscapedParameterIsInert | src/http/body/bytes.ts:145-150 | an escaped parameter holds no quote and no line break |
| Boundary.EscapeIsLetterwise | src/http/body/bytes.ts:145-150 | a parameter is escaped character by character: quote, carriage return and line feed, and nothing else |
| HeaderTable.IndexFollowsList | src/headers/index.ts:79-144 | for every sequence of edits, grouping the edited list is the edited index |
| HeaderTable.GroupingIsFaithful | src/headers/index.ts:116-134 | the index answers what the list says: values in order, display name of the first tuple |
| HeaderTable.AppendCombines | src/headers/index.ts:79-122 | appending adds the value after a comma to what get returns; a first value is returned as it is |
| HeaderTable.Headers.Append | src/headers/index.ts:79-97 | index and list stay in step; throws exactly for a blank name |
| HeaderTable.Headers.Set | src/headers/index.ts:99-114 | index and list stay in step; all older values are gone |
| HeaderTable.Headers.Delete | src/headers/index.ts:136-144 | index and list stay in step; the values are gone |
| HeaderTable.Headers.Copy | src/headers/index.ts:32-38 | a copy by appending has the same tuple list |
| HeaderTable.Headers.Get | src/headers/index.ts:116-122 | the joined values of the tuple list |
| HeaderTable.Headers.HasName | src/headers/index.ts:129-134 | whether the tuple list has the name |
| HeaderTable.Headers.GetSetCookie | src/headers/index.ts:124-127 | the Set-Cookie values of the tuple list, unjoined |
| HeaderTable.Headers.ToOriginalNames | src/headers/index.ts:162-179 | the first display name of each key in list order |
| HeaderTable.Headers.OriginalNamesPermuteKeys | src/headers/index.ts:162-193 | toOriginalNames() is a permutation of keys() |
| HeaderTable.KeyOrderIsFirstSeen | src/headers/index.ts:162-179 | the distinct keys are listed in the order in which they are first seen |
| HeaderTable.TrimCuts | src/headers/index.ts:79-97 | trimming cuts all spaces off both ends and nothing else |
| ClientCache.KeyDeterminesConfig | src/native/client-cache.ts:6-34 | equal keys mean equal configurations, for requests and sockets alike, exactly in fixed browser mode |
| ClientCache.MissingTimeoutConfusesKinds | src/native/client-cache.ts:18 | why the default timeout of the socket class matters: options without one, which that class never passes, would share their key with a different request |
| ClientCache.SameKeySameClient | rust/src/transport/client.rs:99-114 | in every interleaving, resolves of one owner and key with no removal between them return the same client |
| ClientCache.CachedClientIsAsRequested | rust/src/transport/client.rs:99-114 | in fixed mode the client given is configured as asked, whoever built it |
| ClientCache.StepRecords | rust/src/transport/client.rs:99-114 | a lookup answers with the stored client if there is one and nothing is built then; a removal forgets the clients of its owner and of nobody else |
| ClientCache.ClientStore.GetClient | rust/src/store/client_store.rs:13-20 | looks the client up by owner and key |
| ClientCache.ClientStore.InsertClient | rust/src/store/client_store.rs:22-27 | the first client under a key stays and is what every inserter gets; other keys are untouched |
| ClientCache.ClientStore.RemoveClients | rust/src/store/client_store.rs:29-35 | drops all clients of an owner |
| ClientCache.ClientStore.ResolveClient | rust/src/transport/client.rs:99-114 | without interference, a hit builds nothing and a miss stores what it built |

## Left out

- Conversion code of the native binding, module loading, scripts, generated profiles and emulation
  overlays: plumbing and data.
- The wreq client, TLS, DNS and sockets: servers, frames and write results are arbitrary inputs.
- URL parsing: URLs are structured values, and the parser on header text is a parameter. Of it the Referer
  theorems assume only `Redirects.RoundTrips`: a cleaned http(s) referrer, and its origin, read back as
  what they were printed from. Origins of blob URLs are not modelled.
- Lower-casing of header names beyond ASCII, and iteration of a Headers object while it is edited.
- JSON encoding of the client cache key: taken to be injective on its record.
- Real time, timings, backoff delays and abort signals inside a native call, apart from the outcome.
- Web-stream scheduling and back pressure: a stream is a sequence of chunks with a position and a lock. Of
  the pull rule of the Streams Standard the model keeps that the first pull runs ahead of all reads, that
  a pull which brought nothing is followed by one only for a waiting read, and that nothing follows when
  that one brings nothing either; otherwise a read may or may not wait. `ResponseObjects` reads on after
  empty frames. How long the cancellation of one branch waits for the others is not modelled.
- Responses built by the caller, responses without a body, and charset, JSON, form-data and blob
  decoding of bodies.
- Request body readers, `Request.clone` and `_takeBodyInit`: of a request body the model keeps whether it
  can be sent again, its content, and whether its stream was used.
- Hooks that change the options, and hooks that lock or read a request body. beforeError hooks are one
  step that leaves, exchanges or throws.
- Event listeners that throw, `binaryType` conversion, and the construction of WebSocket options.
- Overflow of the handle counters and of the accepted message queue.
- The store locks as such: each store operation is one atomic step, and so is an uninterrupted read of a
  whole body.
- FetchHeaders.HeadersAlongRun: is about headers no hook edits, and not about `cookie` when a cookie jar manages it, since both replace the value on purpose.
- FetchHeaders.RefererAlongRun: assumes that no hook edits the Referer, for the same reason.
- FetchResponses.ResponsesAreConserved: a response counts as cancelled when the pipeline asks for it; a body that a hook has locked stays with the reader of the hook, which the model does not follow.
- WebSocketDelivery.OrderedDelivery: a blob that cannot be read is skipped on the wire, as in the code, which goes on with the next send.
- WebSocketSafety.ClosedMeansReleased: a connect result whose continuation has not run yet is still in the store; `LateConnectionIsTerminated` covers it.
- Upload.CleanEndIsComplete: excludes cancelled uploads, for which it is false (`Upload.CancelTruncates`); `Upload.CancelledEndIsComplete` has their exact condition.
