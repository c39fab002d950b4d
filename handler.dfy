/**
 * HttpRequestHandler: one instance per connection. The class holds the
 * handler's own fields (runOnEventLoop, and whether the context has been
 * captured) together with what its calls do to the world around it: the
 * responses flushed to the connection and its closed flag, the run queue of
 * the connection's own event-loop executor, and the tasks submitted to the
 * blocking pool. The event-loop entry points are taken to run on the event
 * loop; callServiceAndFlushResponse takes its thread as an argument, the one
 * writing method requires the event loop, and the worker path is proved
 * never to write.
 */
module RequestHandler {
  import opened Text
  import opened Http

  /** One ctx.writeAndFlush call, and whether a CLOSE listener was attached to it. */
  datatype Write = Write(response: Response, closeAfterFlush: bool)

  /** What the peer sees of the connection: the responses flushed to it, in order, and whether it is closed. */
  datatype Channel = Channel(writes: seq<Write>, closed: bool)

  /** Only the last write may carry the close listener, and once it has, the connection is closed. */
  predicate NothingAfterClose(ch: Channel) {
    forall i :: 0 <= i < |ch.writes| && ch.writes[i].closeAfterFlush ==> i == |ch.writes| - 1 && ch.closed
  }

  /** The connection after a writeAndFlush; a closed connection fails the write and nothing reaches the peer. */
  function Flushed(ch: Channel, r: Response, closeAfterFlush: bool): (c: Channel)
    ensures NothingAfterClose(ch) ==> NothingAfterClose(c)
    ensures ch.closed ==> c == ch
    ensures !ch.closed ==> c.writes == ch.writes + [Write(r, closeAfterFlush)] && c.closed == closeAfterFlush
  {
    if ch.closed then ch else Channel(ch.writes + [Write(r, closeAfterFlush)], closeAfterFlush)
  }

  /** The connection after ctx.close(): closed, with what was already flushed untouched. */
  function Closed(ch: Channel): (c: Channel)
    ensures c.closed && c.writes == ch.writes
    ensures NothingAfterClose(ch) ==> NothingAfterClose(c)
  {
    Channel(ch.writes, true)
  }

  /** The 200 response for a service result: encodeAsciiResponse followed by writeAndFlushResponse's construction. */
  function SuccessFor(content: string): (r: Response)
    ensures r.status == OK && r.headers.Keys == {CONTENT_TYPE, CONTENT_LENGTH} && r.headers[CONTENT_TYPE] == TEXT_PLAIN
  {
    SuccessResponse(EncodeAsciiResponse(content))
  }

  /** The 200 for a service text declares the text's Java length and reads back as the text exactly when it is Latin-1. */
  lemma SuccessForReadsBack(content: string)
    ensures ParseInt(SuccessFor(content).headers[CONTENT_LENGTH]) == Some(|content|)
    ensures IsLatin1(content) <==> DecodeLatin1(SuccessFor(content).body) == content
  {
    SuccessContentLength(EncodeAsciiResponse(content));
    EncodedResponseReadsBack(content);
  }

  /** The thread running a piece of handler code: the connection's own event loop, or a blocking-pool worker. */
  datatype ThreadKind = EventLoopThread | WorkerThread

  class HttpRequestHandler {
    const runOnEventLoop: bool
    /** The `ctx` field is non-null: channelActive has run. */
    var hasCtx: bool
    var channel: Channel
    /** Continuations queued on ctx.executor(), each holding the service result it will encode and write. */
    var ownerQueue: seq<string>
    /** callServiceAndFlushResponse tasks handed to the blocking pool and not yet run. */
    var pendingOffloads: nat
    /** GET requests admitted so far, and service calls made so far. */
    ghost var acceptedGets: nat
    ghost var serviceCalls: nat

    /** What holds between any two steps of the handler, whichever thread runs them. */
    ghost predicate ChannelInvariant()
      reads this
    {
      && NothingAfterClose(channel)
      && (ownerQueue != [] ==> hasCtx)
      && (forall i :: 0 <= i < |ownerQueue| ==> ownerQueue[i] == SERVICE_RESPONSE)
      && (runOnEventLoop ==> ownerQueue == [])
    }

    /** Every admitted GET has either called the service or is waiting in the blocking pool. */
    ghost predicate Valid()
      reads this
    {
      && ChannelInvariant()
      && serviceCalls + pendingOffloads == acceptedGets
      && (runOnEventLoop ==> pendingOffloads == 0)
    }

    constructor (runOnEventLoop: bool)
      ensures Valid()
      ensures this.runOnEventLoop == runOnEventLoop && !hasCtx
      ensures channel == Channel([], false) && ownerQueue == [] && pendingOffloads == 0
      ensures acceptedGets == 0 && serviceCalls == 0
    {
      this.runOnEventLoop := runOnEventLoop;
      hasCtx := false;
      channel := Channel([], false);
      ownerQueue := [];
      pendingOffloads := 0;
      acceptedGets := 0;
      serviceCalls := 0;
    }

    /** channelActive: the context is captured; nothing is written. */
    method ChannelActive()
      requires Valid()
      modifies this`hasCtx
      ensures Valid() && hasCtx
    {
      hasCtx := true;
    }

    /** ctx.writeAndFlush. The one method that writes, callable only on the connection's own event loop. */
    method WriteAndFlush(on: ThreadKind, r: Response, closeAfterFlush: bool)
      requires ChannelInvariant() && hasCtx && on == EventLoopThread
      modifies this`channel
      ensures ChannelInvariant()
      ensures channel == Flushed(old(channel), r, closeAfterFlush)
    {
      channel := Flushed(channel, r, closeAfterFlush);
    }

    /** writeAndFlushResponse: a 200 response around the bytes, flushed without closing. */
    method WriteAndFlushResponse(on: ThreadKind, contentBytes: seq<byte>)
      requires ChannelInvariant() && hasCtx && on == EventLoopThread
      modifies this`channel
      ensures ChannelInvariant()
      ensures channel == Flushed(old(channel), SuccessResponse(contentBytes), false)
    {
      WriteAndFlush(on, SuccessResponse(contentBytes), false);
    }

    /**
     * sendErrorResponse, called from channelRead on the event loop. With no
     * context captured the call through `ctx` fails with a null dereference,
     * reported as `npe` and nothing is written.
     */
    method SendErrorResponse(status: Status, closeAfterFlush: bool) returns (npe: bool)
      requires ChannelInvariant()
      modifies this`channel
      ensures ChannelInvariant()
      ensures npe == !hasCtx
      ensures channel == if hasCtx then Flushed(old(channel), ErrorResponse(status), closeAfterFlush) else old(channel)
    {
      if !hasCtx {
        return true;
      }
      WriteAndFlush(EventLoopThread, ErrorResponse(status), closeAfterFlush);
      return false;
    }

    /** canCallService: the admission decision, with the error response it sends on refusal. */
    method CanCallService(msg: Message) returns (ok: bool, npe: bool)
      requires ChannelInvariant()
      modifies this`channel
      ensures ChannelInvariant()
      ensures ok <==> Admit(msg) == Accept
      ensures npe <==> Admit(msg).Reject? && !hasCtx
      ensures channel == match Admit(msg)
                         case Reject(status, close) =>
                           if hasCtx then Flushed(old(channel), ErrorResponse(status), close) else old(channel)
                         case _ => old(channel)
    {
      if msg == EmptyLastContent {
        return false, false;
      }
      if !(msg.Request? && msg.cls == DefaultHttpRequestClass) {
        npe := SendErrorResponse(BAD_REQUEST, true);
        return false, npe;
      }
      if msg.methodName != "GET" {
        npe := SendErrorResponse(METHOD_NOT_ALLOWED, false);
        return false, npe;
      }
      return true, false;
    }

    /**
     * callServiceAndFlushResponse, run on `on`. On the event loop it encodes
     * and writes at once; anywhere else it queues that work on the
     * connection's own executor and writes nothing itself.
     */
    method CallServiceAndFlushResponse(on: ThreadKind) returns (npe: bool)
      requires ChannelInvariant()
      requires on == WorkerThread ==> !runOnEventLoop
      modifies this`channel, this`ownerQueue, this`serviceCalls
      ensures ChannelInvariant()
      ensures serviceCalls == old(serviceCalls) + 1
      ensures npe == !hasCtx
      ensures on == WorkerThread || !hasCtx ==> channel == old(channel)
      ensures on == EventLoopThread && hasCtx ==> channel == Flushed(old(channel), SuccessFor(ServiceCall()), false)
      ensures ownerQueue == if on == WorkerThread && hasCtx then old(ownerQueue) + [ServiceCall()] else old(ownerQueue)
    {
      var serviceResponse := ServiceCall();
      serviceCalls := serviceCalls + 1;
      if !hasCtx {
        return true;
      }
      if on == EventLoopThread {
        var response := EncodeAsciiResponse(serviceResponse);
        WriteAndFlushResponse(on, response);
      } else {
        ownerQueue := ownerQueue + [serviceResponse];
      }
      return false;
    }

    /** exceptionCaught: the connection is closed. */
    method ExceptionCaught()
      requires ChannelInvariant()
      modifies this`channel
      ensures ChannelInvariant()
      ensures channel == Closed(old(channel))
    {
      channel := Closed(channel);
    }

    /**
     * channelRead, on the event loop. An exception thrown out of it is
     * delivered by the pipeline to exceptionCaught.
     */
    method ChannelRead(msg: Message)
      requires Valid()
      modifies this`channel, this`ownerQueue, this`pendingOffloads, this`acceptedGets, this`serviceCalls
      ensures Valid()
      ensures acceptedGets == old(acceptedGets) + if Admit(msg) == Accept then 1 else 0
      ensures ownerQueue == old(ownerQueue)
      ensures Admit(msg) == Ignore ==>
        channel == old(channel) && pendingOffloads == old(pendingOffloads) && serviceCalls == old(serviceCalls)
      ensures Admit(msg).Reject? ==>
        && pendingOffloads == old(pendingOffloads) && serviceCalls == old(serviceCalls)
        && channel == if hasCtx then Flushed(old(channel), ErrorResponse(Admit(msg).status), Admit(msg).closeAfterFlush)
                      else Closed(old(channel))
      ensures Admit(msg) == Accept && runOnEventLoop ==>
        && pendingOffloads == old(pendingOffloads) && serviceCalls == old(serviceCalls) + 1
        && channel == if hasCtx then Flushed(old(channel), SuccessFor(ServiceCall()), false) else Closed(old(channel))
      ensures Admit(msg) == Accept && !runOnEventLoop ==>
        && pendingOffloads == old(pendingOffloads) + 1 && serviceCalls == old(serviceCalls)
        && channel == old(channel)
    {
      var ok, npe := CanCallService(msg);
      if npe {
        ExceptionCaught();
        return;
      }
      if !ok {
        return;
      }
      acceptedGets := acceptedGets + 1;
      if runOnEventLoop {
        npe := CallServiceAndFlushResponse(EventLoopThread);
        if npe {
          ExceptionCaught();
        }
      } else {
        pendingOffloads := pendingOffloads + 1;
      }
    }

    /**
     * A blocking-pool worker runs one submitted callServiceAndFlushResponse.
     * It never writes; a failure on the worker ends the task without
     * reaching the connection.
     */
    method RunOffloadedTask()
      requires Valid() && pendingOffloads > 0
      modifies this`channel, this`ownerQueue, this`pendingOffloads, this`serviceCalls
      ensures Valid()
      ensures channel == old(channel)
      ensures pendingOffloads == old(pendingOffloads) - 1 && serviceCalls == old(serviceCalls) + 1
      ensures ownerQueue == if hasCtx then old(ownerQueue) + [ServiceCall()] else old(ownerQueue)
    {
      pendingOffloads := pendingOffloads - 1;
      var npe := CallServiceAndFlushResponse(WorkerThread);
    }

    /** The connection's event loop drains the oldest queued continuation: encode, then write. */
    method RunOwnerTask()
      requires Valid() && ownerQueue != []
      modifies this`channel, this`ownerQueue
      ensures Valid()
      ensures ownerQueue == old(ownerQueue)[1..]
      ensures channel == Flushed(old(channel), SuccessFor(SERVICE_RESPONSE), false)
    {
      var serviceResponse := ownerQueue[0];
      ownerQueue := ownerQueue[1..];
      var response := EncodeAsciiResponse(serviceResponse);
      WriteAndFlushResponse(EventLoopThread, response);
    }
  }

  // ---------------------------------------------------------------------------
  // End-to-end exchanges on one connection, derived from the contracts above

  /** A GET is answered with exactly one 200 "Hello World!" and the connection stays open, in either dispatch mode. */
  method ServeGet(runOnEventLoop: bool) returns (ch: Channel)
    ensures ch == Channel([Write(SuccessFor("Hello World!"), false)], false)
  {
    var h := new HttpRequestHandler(runOnEventLoop);
    h.ChannelActive();
    h.ChannelRead(Request(DefaultHttpRequestClass, "GET"));
    h.ChannelRead(EmptyLastContent);
    if !runOnEventLoop {
      h.RunOffloadedTask();
      h.RunOwnerTask();
    }
    ch := h.channel;
  }

  /** Any method other than GET gets a 405 and leaves the connection open, so a following GET on it still succeeds. */
  method RefusedMethodThenGet(methodName: string) returns (ch: Channel)
    requires methodName != "GET"
    ensures ch == Channel([Write(ErrorResponse(METHOD_NOT_ALLOWED), false), Write(SuccessFor("Hello World!"), false)], false)
  {
    var h := new HttpRequestHandler(false);
    h.ChannelActive();
    h.ChannelRead(Request(DefaultHttpRequestClass, methodName));
    ghost var afterRefusal := h.channel;
    assert afterRefusal == Channel([Write(ErrorResponse(METHOD_NOT_ALLOWED), false)], false);
    h.ChannelRead(Request(DefaultHttpRequestClass, "GET"));
    h.RunOffloadedTask();
    assert h.channel == afterRefusal && h.ownerQueue == [ServiceCall()];
    h.RunOwnerTask();
    ch := h.channel;
  }

  /**
   * A refused method whose request carries a body: the body arrives as a
   * content object that is not the empty end-of-content marker, so after the
   * 405 it draws a 400 and the connection closes.
   */
  method RefusedMethodWithBody(methodName: string) returns (ch: Channel)
    requires methodName != "GET"
    ensures ch == Channel([Write(ErrorResponse(METHOD_NOT_ALLOWED), false), Write(ErrorResponse(BAD_REQUEST), true)], true)
  {
    var h := new HttpRequestHandler(false);
    h.ChannelActive();
    h.ChannelRead(Request(DefaultHttpRequestClass, methodName));
    ghost var afterRefusal := h.channel;
    assert afterRefusal == Channel([Write(ErrorResponse(METHOD_NOT_ALLOWED), false)], false);
    h.ChannelRead(Content);
    ch := h.channel;
  }

  /**
   * A GET whose request carries a body: the body chunk draws a 400 and closes
   * the connection. Offloaded, the GET's 200 arrives after the close and is
   * lost; inline, the 200 goes out before the 400.
   */
  method GetWithBody(runOnEventLoop: bool) returns (ch: Channel)
    ensures !runOnEventLoop ==> ch == Channel([Write(ErrorResponse(BAD_REQUEST), true)], true)
    ensures runOnEventLoop ==> ch == Channel([Write(SuccessFor("Hello World!"), false), Write(ErrorResponse(BAD_REQUEST), true)], true)
  {
    var h := new HttpRequestHandler(runOnEventLoop);
    h.ChannelActive();
    h.ChannelRead(Request(DefaultHttpRequestClass, "GET"));
    h.ChannelRead(Content);
    if !runOnEventLoop {
      h.RunOffloadedTask();
      h.RunOwnerTask();
    }
    ch := h.channel;
  }

  /**
   * A request the codec could not parse arrives as a DefaultFullHttpRequest:
   * it gets a 400 and the connection closes. A GET already in flight still
   * calls the service, but its response never reaches the peer.
   */
  method MalformedAfterGet() returns (ch: Channel)
    ensures ch == Channel([Write(ErrorResponse(BAD_REQUEST), true)], true)
  {
    var h := new HttpRequestHandler(false);
    h.ChannelActive();
    h.ChannelRead(Request(DefaultHttpRequestClass, "GET"));
    h.ChannelRead(Request(DefaultFullHttpRequestClass, "GET"));
    h.RunOffloadedTask();
    h.RunOwnerTask();
    assert h.serviceCalls == 1;
    ch := h.channel;
  }
}
