# Netty HTTP server on virtual threads: a verified model of its request handler

The server answers every body-less HTTP/1.1 `GET` with `200 OK`, `text/plain`,
body `Hello World!`. By default it runs the blocking service call on a
virtual-thread pool and hands the response back to the connection's own
Netty event loop to be written. This project models two things in Dafny:

- the per-connection `HttpRequestHandler`: admission, the sticky dispatch
  back to the event loop, response encoding, error responses and
  exception handling;
- the start-up arithmetic of `Main`: the virtual-thread scheduler
  properties and the event-loop thread factory's counter and naming.

Files:

- `text.dfy` (`Text`): Netty's ASCII writer, used for response bodies, and
  `Integer.toString`. Each is paired with a reference decoder or parser, and
  the round trips between them are proved.
- `http.dfy` (`Http`): the decoded message kinds, the three statuses, how
  the 200 and error responses are built, and `Admit`, the decision table of
  `canCallService`.
- `handler.dfy` (`RequestHandler`): the handler as a class. Its fields are
  the handler's own state plus what its calls change around it:
  - the responses flushed on the connection, and whether it is closed;
  - the run queue of the connection's event-loop executor;
  - the tasks submitted to the blocking pool.

  The event-loop entry points (`ChannelRead`, `ExceptionCaught`,
  `RunOwnerTask`) are taken to run on the connection's event loop.
  `CallServiceAndFlushResponse` takes its thread as a `ThreadKind` argument,
  and the one writing method requires the event loop. On the worker path,
  `RunOffloadedTask` is proved never to write: it ensures the connection is
  unchanged. End-to-end exchanges are proved as scenario methods.
- `startup.dfy` (`Startup`): `setupDefaultScheduler` as an update of the
  system-property map, and the `ThreadFactory` as a class whose counter
  wraps like an `AtomicInteger`.

Behaviour of the code worth stating plainly:

- An error body is `"Error: "` followed by the status text, e.g.
  `Error: 405 Method Not Allowed`, not the bare status text.
- Error responses carry `Content-Type` only. They have no `Content-Length`,
  and a 405 has no `Allow` header.
- A 405 has neither `Content-Length` nor `Transfer-Encoding`, and the
  connection stays open. By section 6.3 of RFC 9112, an HTTP/1.1 client
  therefore reads its body until the connection closes. The 200 that
  `RequestHandler.RefusedMethodThenGet` shows following it on the wire
  would be read by such a client as part of the 405's body. A 400 is
  followed by a close, so its body is delimited.
- On the path the server uses (pooled buffers off), the 200 body is an
  unpooled heap copy. It is not taken from the pooled allocator.
- A request with a body draws more than a 405. Its body arrives as
  content objects that are not the shared empty end marker, so each of them
  draws a 400, and the first 400 closes the connection
  (`RequestHandler.RefusedMethodWithBody`). A subsequent GET therefore
  succeeds only after a body-less request.
- A GET with a body is no exception. Its body chunk draws a 400 and closes
  the connection. In the default offloaded mode, the GET's 200 then reaches
  a closed connection and is lost. Inline, the 200 goes out before the 400
  (`RequestHandler.GetWithBody`).
- A continuation that reaches a closed connection still calls
  `writeAndFlush`. The write fails, and nothing reaches the peer
  (`RequestHandler.Flushed`).
- The body writer keeps each character up to 0xFF as its own byte and
  writes '?' for any character above. It does not turn every non-ASCII
  character into '?'.

## Model

| member | source | states |
|---|---|---|
| Text.UnitByte | src/main/java/netty/loom/HttpRequestHandler.java:92 | The per-character rule of Netty's ASCII writer (c2b): a character up to 0xFF becomes its own byte, and any character above becomes '?'. |
| Text.EncodeAscii | src/main/java/netty/loom/HttpRequestHandler.java:92 | The ASCII writer produces exactly one byte per character. |
| Text.EncodeAsciiAt | src/main/java/netty/loom/HttpRequestHandler.java:92 | Each character is written in place: its own code up to 0xFF, and '?' above. |
| Text.DecodeLatin1 | src/main/java/netty/loom/HttpRequestHandler.java:92 | The reference decoder returns one character per byte, each at most 0xFF. It is the partner of the writer's round trip. |
| Text.AsciiRoundTrip | src/main/java/netty/loom/HttpRequestHandler.java:92 | Decoding undoes the writer if and only if every character is at most 0xFF; otherwise a character is lost. |
| Text.AsciiIsLatin1 | src/main/java/netty/loom/HttpRequestHandler.java:92 | A step of the round trips: ASCII text consists of characters at most 0xFF, so it survives the writer unchanged. |
| Text.AsciiConcat | src/main/java/netty/loom/HttpRequestHandler.java:129 | A step of StatusText and ErrorBody: concatenating two ASCII texts gives ASCII text. |
| Text.NatToDecimal | src/main/java/netty/loom/HttpRequestHandler.java:120 | The decimal digits of a non-negative number: a non-empty string of digits. |
| Text.IntToDecimal | src/main/java/netty/loom/Main.java:111-113 | Integer.toString: non-empty, starting with '-' exactly for negative numbers, and all digits otherwise. Its round trip is IntDecimalRoundTrip. |
| Text.NatToDecimalDigits | src/main/java/netty/loom/HttpRequestHandler.java:120 | The decimal rendering of n denotes n. This is the induction behind IntDecimalRoundTrip. |
| Text.DigitsAreAscii | src/main/java/netty/loom/HttpRequestHandler.java:120 | A step of IntDecimalRoundTrip: decimal digits are ASCII. |
| Text.ParseDigits | src/main/java/netty/loom/Main.java:111-113 | A step of IntDecimalRoundTrip, for non-negative values: the reference parser reads a non-empty digit string as its value. |
| Text.ParseSignedDigits | src/main/java/netty/loom/Main.java:111-113 | A step of IntDecimalRoundTrip, for negative values: the parser reads '-' followed by digits as the negated value. |
| Text.SignedAscii | src/main/java/netty/loom/Main.java:111-113 | A step of IntDecimalRoundTrip: a minus sign in front of ASCII text keeps it ASCII. |
| Text.IntDecimalRoundTrip | src/main/java/netty/loom/Main.java:111-113 | Integer.toString output is non-empty ASCII, and it parses back to the same int, negatives included. |
| Text.IntToDecimalInjective | src/main/java/netty/loom/Main.java:122 | Two different ints never render as the same text. |
| Http.StatusText | src/main/java/netty/loom/HttpRequestHandler.java:129 | HttpResponseStatus.toString() (the code, a space, the reason): ASCII whenever the reason phrase is. |
| Http.ServiceCall | src/main/java/netty/loom/HttpRequestHandler.java:76-84 | serviceCall returns a 12-character ASCII text, so its encoding is lossless. |
| Http.EncodeAsciiResponse | src/main/java/netty/loom/HttpRequestHandler.java:86-94 | The unpooled body copy has exactly as many bytes as the service text has characters. |
| Http.EncodedResponseReadsBack | src/main/java/netty/loom/HttpRequestHandler.java:86-94 | The body reads back as the service text if and only if every character of that text is at most 0xFF. |
| Http.SuccessResponse | src/main/java/netty/loom/HttpRequestHandler.java:115-120 | The 200 response: HTTP/1.1, status OK, body equal to the given bytes, headers exactly content-type (text/plain) and content-length. |
| Http.SuccessContentLength | src/main/java/netty/loom/HttpRequestHandler.java:120 | The content-length value parses back to the number of body bytes. |
| Http.ErrorResponse | src/main/java/netty/loom/HttpRequestHandler.java:126-129 | An error response has HTTP/1.1, the given status, and content-type text/plain as its only header. |
| Http.ErrorBody | src/main/java/netty/loom/HttpRequestHandler.java:129 | For an ASCII reason phrase, the error body reads back as "Error: " followed by the code, a space and the reason. |
| Http.Admit | src/main/java/netty/loom/HttpRequestHandler.java:45-59 | Each outcome holds exactly for its inputs. The shared empty end marker is ignored. Anything but an exact DefaultHttpRequest gets 400 and close. A DefaultHttpRequest not using GET gets 405 and stays open. Only a GET DefaultHttpRequest is accepted. |
| Http.DecimalCodes | src/main/java/netty/loom/HttpRequestHandler.java:129 | The codes 200, 400 and 405 render as "200", "400" and "405". |
| Http.StatusTextOk | src/main/java/netty/loom/HttpRequestHandler.java:116 | The OK status text is "200 OK". |
| Http.StatusTextBadRequest | src/main/java/netty/loom/HttpRequestHandler.java:50 | The Bad Request status text is "400 Bad Request". |
| Http.StatusTextMethodNotAllowed | src/main/java/netty/loom/HttpRequestHandler.java:55 | The Method Not Allowed status text is "405 Method Not Allowed". |
| Http.AsciiSuccessResponse | src/main/java/netty/loom/HttpRequestHandler.java:86-120 | For an ASCII service text, the 200's content-length is the text's length, and the body reads back as the text. |
| Http.HelloWorldResponse | src/main/java/netty/loom/HttpRequestHandler.java:76-94 | The service's 200 response has content-length "12" and a body that reads "Hello World!". |
| RequestHandler.SuccessFor | src/main/java/netty/loom/HttpRequestHandler.java:64-65 | The 200 built from a service text (encodeAsciiResponse, then writeAndFlushResponse's construction): status OK, content-type text/plain, and exactly the two headers. |
| RequestHandler.SuccessForReadsBack | src/main/java/netty/loom/HttpRequestHandler.java:64-65 | The 200 declares the text's length as its content-length, and its body reads back as the text exactly when every character is at most 0xFF. |
| RequestHandler.Flushed | src/main/java/netty/loom/HttpRequestHandler.java:121 | A flush on an open connection appends exactly this response, and the connection is closed afterwards only if a close was attached. A flush on a closed connection changes nothing. Nothing is ever written after the closing write. |
| RequestHandler.Closed | src/main/java/netty/loom/HttpRequestHandler.java:140 | Closing keeps what was already flushed, marks the connection closed, and keeps "nothing after close". |
| RequestHandler.HttpRequestHandler.constructor | src/main/java/netty/loom/HttpRequestHandler.java:20-23 | A new handler keeps the dispatch mode and has no context yet. Nothing has been written, queued or submitted. |
| RequestHandler.HttpRequestHandler.ChannelActive | src/main/java/netty/loom/HttpRequestHandler.java:27-30 | The context is captured; the handler invariant holds. |
| RequestHandler.HttpRequestHandler.WriteAndFlush | src/main/java/netty/loom/HttpRequestHandler.java:121 | A write happens only on the connection's own event loop, and only once a context exists. |
| RequestHandler.HttpRequestHandler.WriteAndFlushResponse | src/main/java/netty/loom/HttpRequestHandler.java:115-122 | The 200 response around the bytes is flushed without a close, on the event loop only. |
| RequestHandler.HttpRequestHandler.SendErrorResponse | src/main/java/netty/loom/HttpRequestHandler.java:125-135 | The error response for the status is flushed, with a close exactly when asked. Without a context it fails with a null dereference and writes nothing. |
| RequestHandler.HttpRequestHandler.CanCallService | src/main/java/netty/loom/HttpRequestHandler.java:45-59 | Returns true exactly when Admit accepts. On a refusal it flushes Admit's status and close flag; otherwise the connection is unchanged. |
| RequestHandler.HttpRequestHandler.CallServiceAndFlushResponse | src/main/java/netty/loom/HttpRequestHandler.java:61-72 | The service is called once. On the event loop the 200 is written at once. On a worker nothing is written, and one continuation holding the service text is queued on the connection's executor. Without a context it fails. |
| RequestHandler.HttpRequestHandler.ExceptionCaught | src/main/java/netty/loom/HttpRequestHandler.java:138-141 | The connection is closed, and what was flushed is kept. |
| RequestHandler.HttpRequestHandler.ChannelRead | src/main/java/netty/loom/HttpRequestHandler.java:33-42 | Per Admit outcome: an ignored message changes nothing; a refusal writes its error, or closes the connection when there is no context; an accepted GET either writes the 200 inline (event-loop mode) or submits one task to the blocking pool and writes nothing. Every accepted GET is accounted for as a service call or a pending task. |
| RequestHandler.HttpRequestHandler.RunOffloadedTask | src/main/java/netty/loom/HttpRequestHandler.java:40 | A pool worker runs one submitted task. It calls the service, queues the write on the event loop, and never touches the connection itself. |
| RequestHandler.HttpRequestHandler.RunOwnerTask | src/main/java/netty/loom/HttpRequestHandler.java:67-70 | The event loop runs the oldest queued continuation and flushes the 200 for "Hello World!". The invariant guarantees that every queued continuation holds the service's text. |
| RequestHandler.ServeGet | src/main/java/netty/loom/HttpRequestHandler.java:33-72 | In either dispatch mode, a GET followed by the empty end marker produces exactly one 200 "Hello World!" response, and the connection stays open. |
| RequestHandler.RefusedMethodThenGet | src/main/java/netty/loom/HttpRequestHandler.java:54-56 | A non-GET method gets a 405, the connection stays open, and a following GET on it gets its 200. |
| RequestHandler.RefusedMethodWithBody | src/main/java/netty/loom/HttpRequestHandler.java:46-56 | A non-GET request followed by a body chunk gets a 405, then a 400, and the connection is closed. |
| RequestHandler.GetWithBody | src/main/java/netty/loom/HttpRequestHandler.java:33-72 | A GET followed by a body chunk: offloaded, the peer sees only a 400 and the connection closes; inline, it sees the 200 and then the 400, and the connection closes. |
| RequestHandler.MalformedAfterGet | src/main/java/netty/loom/HttpRequestHandler.java:49-51 | A malformed request after an offloaded GET gets a 400 and the connection closes. The GET's later response never reaches the peer. |
| Startup.Max | src/main/java/netty/loom/Main.java:109-110 | Integer.max: at least both arguments, and equal to one of them. |
| Startup.JavaHalf | src/main/java/netty/loom/Main.java:110 | Java's `p / 2` rounds toward zero, for negative p too. |
| Startup.DeriveSchedulerSettings | src/main/java/netty/loom/Main.java:108-110 | maxPoolSize is the larger of p and 256, and it is 256 exactly when p <= 256. minRunnable is at least 1, at most p for positive p, half of p (rounded down) for p >= 2, and 1 for p <= 3. |
| Startup.SetupDefaultScheduler | src/main/java/netty/loom/Main.java:108-114 | Exactly the three scheduler properties are set, and every other property is kept. Their values are the decimal texts of p, maxPoolSize and minRunnable, and each parses back to its number. |
| Startup.ConfiguredScheduler | src/main/java/netty/loom/Main.java:25-29 | With the configured parallelism 1, the properties become "1", "256" and "1". |
| Startup.Wrap32 | src/main/java/netty/loom/Main.java:118-122 | The AtomicInteger's value after k getAndIncrement calls: the int32 congruent to k modulo 2^32. |
| Startup.Wrap32Succ | src/main/java/netty/loom/Main.java:122 | getAndIncrement: the counter advances by one, and after Integer.MAX_VALUE it wraps to Integer.MIN_VALUE. |
| Startup.Wrap32InRange | src/main/java/netty/loom/Main.java:118-122 | Within one turn of the counter, the k-th value is k read as a signed 32-bit int. |
| Startup.EventLoopThreadFactory.constructor | src/main/java/netty/loom/Main.java:118 | The counter starts at 0, and no names have been issued. |
| Startup.EventLoopThreadFactory.NewThread | src/main/java/netty/loom/Main.java:121-125 | The thread runs the given runnable and is named "Netty event-loop-" followed by the counter's previous value. The counter advances with 32-bit wrap-around. The issued names stay indexed by call order. |
| Startup.EventLoopThreadName | src/main/java/netty/loom/Main.java:122 | The k-th thread's name starts with "Netty event-loop-" and has something after the prefix. |
| Startup.EventLoopThreadNameReadsBack | src/main/java/netty/loom/Main.java:122 | What follows the prefix parses back to the counter value the thread was named after. |
| Startup.EventLoopThreadNameIsIndex | src/main/java/netty/loom/Main.java:122 | Until the counter overflows, the k-th thread is named "Netty event-loop-k". |
| Startup.FirstEventLoopThreadName | src/main/java/netty/loom/Main.java:122 | The first event-loop thread is "Netty event-loop-0". |
| Startup.EventLoopThreadNamesDistinct | src/main/java/netty/loom/Main.java:118-122 | Any two of the first 2^32 threads have different names. |
| Startup.EventLoopThreadNamesRepeatAfterWrap | src/main/java/netty/loom/Main.java:118-122 | The thread after 2^32 creations reuses the first thread's name. |
| Startup.IssuedNamesDistinct | src/main/java/netty/loom/Main.java:118-122 | The names a factory has issued are pairwise distinct until its counter comes round again. |

## Left out

- Server bootstrap, channel options, the listening port, `EVENT_LOOP_THREADS` and shutdown: these are configuration and I/O with no logic to prove.
- The HTTP codec: it is represented only by the message kinds it hands the handler. The fact that it produces an exact `DefaultHttpRequest` for a parsable request and a `DefaultFullHttpRequest` for an unparsable one is assumed, not derived.
- Real concurrency: thread identity is an explicit argument, and the interleaving of pool tasks and event-loop tasks is chosen by the caller of `RunOffloadedTask` and `RunOwnerTask`. Memory visibility of the `ctx` field across threads is not modelled.
- `verifyLoomThreads`, `ResourceLeakDetector` and the allocator-lock deadlock: these are diagnostics and runtime behaviour of the JDK and Netty, with no handler logic.
- The pooled-direct-buffer branch of `encodeAsciiResponse`: the constant that selects it is false, so it is never taken. Buffer reference counting and release are not modelled.
- `serviceCall`'s one-millisecond sleep and the interrupt it swallows: the model has no clock, and the call always returns "Hello World!".
- Logging, `printStackTrace` and the `System.out` lines of the thread factory are left out as I/O.
- RequestHandler.Flushed: a failed write on a closed connection is not reported. The model drops the write, and the future's failure and the `voidPromise` exception path are not modelled.
- RequestHandler.Flushed: the CLOSE listener is taken as closing right after the flush. The asynchronous gap between them is not modelled.
- Http.ErrorResponse: `String.getBytes()` uses the platform default charset (UTF-8 since JDK 18). It is modelled by the same writer as the 200 body. The two agree on ASCII text, and both error status texts are ASCII.
- Text.EncodeAscii: Dafny's char is a Unicode scalar value. Java holds a character above U+FFFF as two UTF-16 units, so Netty writes two '?' for it and `length()` counts it twice. The model writes one '?' and counts it once. Every text the server encodes is ASCII.
- RequestHandler.HttpRequestHandler.RunOffloadedTask: when the context is missing, the worker's null dereference only ends the task. No exception reaches the pipeline, as in the code.
- Startup.IssuedNamesDistinct: thread-name uniqueness holds only for the first 2^32 threads, because the counter wraps (`EventLoopThreadNamesRepeatAfterWrap`).
- Startup.SetupDefaultScheduler: `System.setProperty` is modelled as an update of a map passed in and returned. The JVM-global property table is not modelled.
