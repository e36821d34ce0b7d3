/** Requests and responses between the client and the daemon: `pybox/daemon/client.py`,
`pybox/daemon/main.py`. */
module Rpc {
  import opened Outcomes
  import opened Framing

  datatype Method = RUN | BUILD | PS | INSPECT | STOP | RM | EXEC | LOGS | IMAGES | INFO

  datatype Request = Request(id: nat, call: Method, params: string)

  datatype Response = Response(id: nat, result: string, error: Option<string>)

  /** Payload bytes of messages and what the handlers answer, as functions this model says nothing about. */
  datatype Codec = Codec(
    packRequest: Request -> Bytes, unpackRequest: Bytes -> Option<Request>,
    packResponse: Response -> Bytes, unpackResponse: Bytes -> Option<Response>,
    handle: Request -> Result<string, string>)

  /** Packing followed by unpacking gives the message back. */
  ghost predicate Faithful(c: Codec) {
    && (forall r :: c.unpackRequest(c.packRequest(r)) == Some(r))
    && (forall r :: c.unpackResponse(c.packResponse(r)) == Some(r))
  }

  // ---------------------------------------------------------------------------------------
  // The daemon's side of a connection

  predicate Implemented(m: Method) {
    m == PS || m == INSPECT || m == STOP || m == RM || m == INFO
  }

  function Dispatch(c: Codec, req: Request): Response {
    if !Implemented(req.call) then Response(req.id, "", Some("Method not implemented"))
    else match c.handle(req)
      case Ok(result) => Response(req.id, result, None)
      case Err(e) => Response(req.id, "", Some(e))
  }

  /** The bytes written for a stream of requests: one response each, until the stream ends, a request cannot
  be decoded, or a response cannot be encoded. */
  function Replies(c: Codec, stream: Bytes): Bytes
    decreases |stream|
  {
    var (raw, rest) := ReadFrame(stream);
    if raw.Err? then []
    else match c.unpackRequest(raw.value)
      case None => []
      case Some(req) =>
        match Encode(c.packResponse(Dispatch(c, req)))
        case Err(_) => []
        case Ok(reply) => reply + Replies(c, rest)
  }

  class Connection {
    const reader: StreamReader
    var written: Bytes
    var closed: bool

    constructor (reader: StreamReader)
      ensures this.reader == reader && written == [] && !closed
    {
      this.reader, written, closed := reader, [], false;
    }

    method HandleClient(c: Codec)
      modifies this, reader
      ensures closed
      ensures written == old(written) + Replies(c, old(reader.Stream()))
    {
      while true
        invariant closed == old(closed)
        invariant written + Replies(c, reader.Stream()) == old(written) + Replies(c, old(reader.Stream()))
        decreases |reader.Stream()|
      {
        var raw := reader.ReadMessage();
        if raw.Err? {
          break;
        }
        var req := c.unpackRequest(raw.value);
        if req.None? {
          break;
        }
        var reply := Encode(c.packResponse(Dispatch(c, req.value)));
        if reply.Err? {
          break;
        }
        assert (written + reply.value) + Replies(c, reader.Stream())
               == written + (reply.value + Replies(c, reader.Stream()));
        written := written + reply.value;
      }
      closed := true;
    }
  }

  function PackRequests(c: Codec, reqs: seq<Request>): seq<Bytes> {
    seq(|reqs|, k requires 0 <= k < |reqs| => c.packRequest(reqs[k]))
  }

  function PackReplies(c: Codec, reqs: seq<Request>): seq<Bytes> {
    seq(|reqs|, k requires 0 <= k < |reqs| => c.packResponse(Dispatch(c, reqs[k])))
  }

  /** The connection ends at this part of a stream: no whole message, one that is no request, or a request
  whose response cannot be encoded. */
  predicate EndsHere(c: Codec, stream: Bytes) {
    var raw := ReadFrame(stream).0;
    raw.Err? || match c.unpackRequest(raw.value)
                case None => true
                case Some(req) => |c.packResponse(Dispatch(c, req))| >= LIMIT
  }

  /** Whole requests are answered, in order, with one response to each, until the first place where the
  connection ends; nothing is answered from there on. */
  lemma {:induction false} RepliesUntilEnd(c: Codec, reqs: seq<Request>, tail: Bytes)
    requires Faithful(c) && Encodable(PackRequests(c, reqs)) && Encodable(PackReplies(c, reqs))
    requires EndsHere(c, tail)
    ensures Replies(c, EncodeAll(PackRequests(c, reqs)) + tail) == EncodeAll(PackReplies(c, reqs))
    decreases |reqs|
  {
    if reqs == [] {
      assert EncodeAll(PackRequests(c, reqs)) + tail == tail;
    } else {
      var ps, rs := PackRequests(c, reqs), PackReplies(c, reqs);
      assert ps[1..] == PackRequests(c, reqs[1..]) && rs[1..] == PackReplies(c, reqs[1..]);
      assert forall k :: 0 <= k < |ps| - 1 ==> ps[1..][k] == ps[k + 1];
      assert forall k :: 0 <= k < |rs| - 1 ==> rs[1..][k] == rs[k + 1];
      assert EncodeAll(ps) + tail == Encode(ps[0]).value + (EncodeAll(ps[1..]) + tail);
      ReadEncoded(ps[0], EncodeAll(ps[1..]) + tail);
      RepliesUntilEnd(c, reqs[1..], tail);
    }
  }

  /** The daemon answers any stream of whole requests, in order, with one response to each. */
  lemma RepliesInOrder(c: Codec, reqs: seq<Request>)
    requires Faithful(c) && Encodable(PackRequests(c, reqs)) && Encodable(PackReplies(c, reqs))
    ensures Replies(c, EncodeAll(PackRequests(c, reqs))) == EncodeAll(PackReplies(c, reqs))
  {
    RepliesUntilEnd(c, reqs, []);
    assert EncodeAll(PackRequests(c, reqs)) + [] == EncodeAll(PackRequests(c, reqs));
  }

  // ---------------------------------------------------------------------------------------
  // The client

  datatype CallFailure = NotSent | ConnectionLost | Undecodable | DaemonError(message: string)

  class DaemonClient {
    const reader: StreamReader
    var written: Bytes
    var requestId: nat

    constructor (reader: StreamReader)
      ensures this.reader == reader && written == [] && requestId == 0
    {
      this.reader, written, requestId := reader, [], 0;
    }

    /** The id of the response is not looked at. */
    method Call(c: Codec, call: Method, params: string) returns (r: Result<string, CallFailure>)
      modifies this, reader
      ensures requestId == old(requestId) + 1
      ensures var req := Encode(c.packRequest(Request(requestId, call, params)));
              match req
              case Err(_) => r == Err(NotSent) && written == old(written) && reader.Stream() == old(reader.Stream())
              case Ok(bytes) =>
                var (raw, rest) := ReadFrame(old(reader.Stream()));
                && written == old(written) + bytes && reader.Stream() == rest && r == Received(c, raw)
                && (IsIncomplete(old(reader.Stream())) ==> r == Err(ConnectionLost))
    {
      requestId := requestId + 1;
      var req := Encode(c.packRequest(Request(requestId, call, params)));
      if req.Err? {
        return Err(NotSent);
      }
      written := written + req.value;
      var raw := reader.ReadMessage();
      if raw.Err? {
        return Err(ConnectionLost);
      }
      var resp := c.unpackResponse(raw.value);
      if resp.None? {
        return Err(Undecodable);
      }
      if resp.value.error.Some? {
        return Err(DaemonError(resp.value.error.value));
      }
      return Ok(resp.value.result);
    }
  }

  function Received(c: Codec, raw: Result<Bytes, Failure>): Result<string, CallFailure> {
    if raw.Err? then Err(ConnectionLost)
    else match c.unpackResponse(raw.value)
      case None => Err(Undecodable)
      case Some(resp) => if resp.error.Some? then Err(DaemonError(resp.error.value)) else Ok(resp.result)
  }

  /** What a client reads from the daemon's answer to a stream of requests: first what was answered to the
  first of them, and then the answer to the others. */
  lemma {:induction false} CallsAnswered(c: Codec, reqs: seq<Request>)
    requires Faithful(c) && Encodable(PackRequests(c, reqs)) && Encodable(PackReplies(c, reqs)) && reqs != []
    ensures var (raw, rest) := ReadFrame(Replies(c, EncodeAll(PackRequests(c, reqs))));
            && Received(c, raw) == (match (reqs[0].call in {PS, INSPECT, STOP, RM, INFO}, c.handle(reqs[0]))
                                    case (false, _) => Err(DaemonError("Method not implemented"))
                                    case (true, Ok(result)) => Ok(result)
                                    case (true, Err(e)) => Err(DaemonError(e)))
            && Encodable(PackRequests(c, reqs[1..]))
            && rest == Replies(c, EncodeAll(PackRequests(c, reqs[1..])))
  {
    var ps, rs := PackRequests(c, reqs), PackReplies(c, reqs);
    RepliesInOrder(c, reqs);
    assert ps[1..] == PackRequests(c, reqs[1..]) && rs[1..] == PackReplies(c, reqs[1..]);
    assert forall k :: 0 <= k < |ps| - 1 ==> ps[1..][k] == ps[k + 1];
    assert forall k :: 0 <= k < |rs| - 1 ==> rs[1..][k] == rs[k + 1];
    RepliesInOrder(c, reqs[1..]);
    ReadEncoded(rs[0], EncodeAll(rs[1..]));
    assert c.unpackResponse(rs[0]) == Some(Dispatch(c, reqs[0]));
  }

  // ---------------------------------------------------------------------------------------
  // Every interleaving of one client and the daemon

  /** A client is between calls, or waits for the response to `req`. */
  datatype Client = Ready | Awaiting(req: Request)

  /** A finished call and the response it took. */
  datatype Answered = Answered(req: Request, resp: Response)

  /** The messages on the way in both directions, and what was sent, read and abandoned so far. */
  datatype State = State(
    requestId: nat, client: Client, requests: seq<Request>, serving: Option<Request>, responses: seq<Response>,
    open: bool, sent: seq<Request>, answered: seq<Answered>, abandoned: nat)

  /** `Abandon` is a call cancelled before any of its response was read; `Fail` one that finds the connection
  closed. `Begin(_, _, false)` is a call whose request cannot be encoded. */
  datatype Event =
    | Begin(call: Method, params: string, encodes: bool)
    | Read
    | Abandon
    | Fail
    | Take
    | Respond
    | Close

  const START := State(0, Ready, [], None, [], true, [], [], 0)

  function Step(c: Codec, s: State, e: Event): State {
    match e
    case Begin(call, params, encodes) => (
      var req := Request(s.requestId + 1, call, params);
      if s.client != Ready then s
      else if !encodes then s.(requestId := req.id)
      else s.(requestId := req.id, client := Awaiting(req), requests := s.requests + [req], sent := s.sent + [req]))
    case Read =>
      if s.client.Awaiting? && s.responses != [] then
        s.(client := Ready, responses := s.responses[1..],
           answered := s.answered + [Answered(s.client.req, s.responses[0])])
      else s
    case Abandon =>
      if s.client.Awaiting? then s.(client := Ready, abandoned := s.abandoned + 1) else s
    case Fail =>
      if s.client.Awaiting? && s.responses == [] && !s.open then
        s.(client := Ready, abandoned := s.abandoned + 1)
      else s
    case Take =>
      if s.open && s.serving.None? && s.requests != [] then
        s.(serving := Some(s.requests[0]), requests := s.requests[1..])
      else s
    case Respond =>
      if s.open && s.serving.Some? then
        s.(serving := None, responses := s.responses + [Dispatch(c, s.serving.value)])
      else s
    case Close => s.(open := false)
  }

  function After(c: Codec, events: seq<Event>): State
    decreases |events|
  {
    if events == [] then START else Step(c, After(c, events[..|events| - 1]), events[|events| - 1])
  }

  function Served(s: State): nat {
    |s.answered| + |s.responses|
  }

  /** Responses come in the order of the requests: first those read, then those on the way; the rest of the
  requests is being served or waits. */
  ghost predicate Queued(c: Codec, s: State) {
    var n, m := |s.answered|, Served(s);
    var w := if s.serving.Some? then m + 1 else m;
    && w + |s.requests| == |s.sent|
    && (forall k :: 0 <= k < n ==> s.answered[k].resp == Dispatch(c, s.sent[k]))
    && (forall k :: 0 <= k < |s.responses| ==> s.responses[k] == Dispatch(c, s.sent[n + k]))
    && (s.serving.Some? ==> s.sent[m] == s.serving.value)
    && (forall k :: 0 <= k < |s.requests| ==> s.requests[k] == s.sent[w + k])
  }

  /** Only calls in progress or given up separate sent from read, and the one in progress was sent last. */
  ghost predicate Counted(s: State) {
    && |s.sent| == |s.answered| + s.abandoned + (if s.client.Awaiting? then 1 else 0)
    && (s.client.Awaiting? ==> s.sent[|s.sent| - 1] == s.client.req)
  }

  ghost predicate Growing(s: State) {
    && (forall j, k :: 0 <= j < k < |s.sent| ==> s.sent[j].id < s.sent[k].id)
    && (forall k :: 0 <= k < |s.sent| ==> s.sent[k].id <= s.requestId)
  }

  ghost predicate InOrder(c: Codec, s: State) {
    Queued(c, s) && Counted(s) && Growing(s)
  }

  lemma BeginQueued(c: Codec, s: State, e: Event)
    requires Queued(c, s) && e.Begin?
    ensures Queued(c, Step(c, s, e))
  {
  }

  lemma ReadQueued(c: Codec, s: State)
    requires Queued(c, s)
    ensures Queued(c, Step(c, s, Read))
  {
    var t := Step(c, s, Read);
    if t != s {
      assert s.responses[0] == Dispatch(c, s.sent[|s.answered|]);
      forall k | 0 <= k < |t.responses| ensures t.responses[k] == Dispatch(c, s.sent[|t.answered| + k]) {
        assert t.responses[k] == s.responses[k + 1];
      }
    }
  }

  lemma TakeQueued(c: Codec, s: State)
    requires Queued(c, s)
    ensures Queued(c, Step(c, s, Take))
  {
    var t := Step(c, s, Take);
    if t != s {
      assert s.requests[0] == s.sent[Served(s)];
      forall k | 0 <= k < |t.requests| ensures t.requests[k] == s.sent[Served(s) + 1 + k] {
        assert t.requests[k] == s.requests[k + 1];
      }
    }
  }

  lemma RespondQueued(c: Codec, s: State)
    requires Queued(c, s)
    ensures Queued(c, Step(c, s, Respond))
  {
  }

  lemma StepQueued(c: Codec, s: State, e: Event)
    requires Queued(c, s)
    ensures Queued(c, Step(c, s, e))
  {
    match e
    case Begin(_, _, _) => BeginQueued(c, s, e);
    case Read => ReadQueued(c, s);
    case Take => TakeQueued(c, s);
    case Respond => RespondQueued(c, s);
    case Abandon =>
    case Fail =>
    case Close =>
  }

  lemma StepCounted(c: Codec, s: State, e: Event)
    requires Counted(s) && Growing(s)
    ensures Counted(Step(c, s, e)) && Growing(Step(c, s, e))
  {
  }

  lemma {:induction false} RunInOrder(c: Codec, events: seq<Event>)
    ensures InOrder(c, After(c, events))
    decreases |events|
  {
    if events != [] {
      RunInOrder(c, events[..|events| - 1]);
      StepQueued(c, After(c, events[..|events| - 1]), events[|events| - 1]);
      StepCounted(c, After(c, events[..|events| - 1]), events[|events| - 1]);
    }
  }

  /** In every run, a response that a waiting call is about to read answers the request sent as many requests
  earlier as calls were given up. Ids grow, so it is the call's own exactly when none was. */
  lemma ReadsShifted(c: Codec, events: seq<Event>)
    requires After(c, events).client.Awaiting? && After(c, events).responses != []
    ensures var s := After(c, events);
            && s.abandoned < |s.sent|
            && s.responses[0] == Dispatch(c, s.sent[|s.sent| - 1 - s.abandoned])
            && (s.responses[0].id == s.client.req.id <==> s.abandoned == 0)
  {
    RunInOrder(c, events);
    var s := After(c, events);
    assert s.responses[0] == Dispatch(c, s.sent[|s.answered|]);
  }

  ghost predicate OwnResponses(c: Codec, s: State) {
    forall k :: 0 <= k < |s.answered| ==> s.answered[k].resp == Dispatch(c, s.answered[k].req)
  }

  ghost predicate NoneAbandoned(events: seq<Event>) {
    forall k :: 0 <= k < |events| ==> !events[k].Abandon?
  }

  /** Calls are given up only by being abandoned, or after the daemon closed the connection and every response
  written before was read. */
  ghost predicate Settled(s: State) {
    s.abandoned == 0 || (!s.open && s.responses == [])
  }

  lemma {:induction false} OwnUnlessAbandoned(c: Codec, events: seq<Event>)
    requires NoneAbandoned(events)
    ensures OwnResponses(c, After(c, events)) && Settled(After(c, events))
    decreases |events|
  {
    if events != [] {
      var past := events[..|events| - 1];
      OwnUnlessAbandoned(c, past);
      var s, e := After(c, past), events[|events| - 1];
      if e.Read? && s.client.Awaiting? && s.responses != [] {
        RunInOrder(c, past);
        assert s.responses[0] == Dispatch(c, s.sent[|s.answered|]);
      }
    }
  }

  /** Every call that returns has the response to its own request, in every interleaving. */
  ghost predicate AlwaysPaired(c: Codec, mayAbandon: bool) {
    forall events :: (mayAbandon || NoneAbandoned(events)) ==> OwnResponses(c, After(c, events))
  }

  /** One call is given up after its request was sent; the next one takes its response. */
  function Mixup(): seq<Event> {
    [Begin(PS, "", true), Abandon, Begin(STOP, "", true), Take, Respond, Read]
  }

  /** The state after both calls began, the first having been given up. */
  function BothBegun(): State {
    var first, second := Request(1, PS, ""), Request(2, STOP, "");
    START.(requestId := 2, client := Awaiting(second), requests := [first, second], sent := [first, second],
           abandoned := 1)
  }

  lemma MixupBegins(c: Codec)
    ensures After(c, Mixup()[..3]) == BothBegun()
  {
    var e := Mixup();
    var first := Request(1, PS, "");
    assert e[..3][..2] == e[..2] && e[..2][..1] == e[..1] && e[..1][..0] == [];
    assert After(c, e[..1]) == START.(requestId := 1, client := Awaiting(first), requests := [first], sent := [first]);
    assert After(c, e[..2]) == START.(requestId := 1, requests := [first], sent := [first], abandoned := 1);
  }

  lemma MixupMispairs(c: Codec)
    ensures !OwnResponses(c, After(c, Mixup()))
  {
    var e := Mixup();
    var first, second := Request(1, PS, ""), Request(2, STOP, "");
    MixupBegins(c);
    assert e[..6] == e && e[..6][..5] == e[..5] && e[..5][..4] == e[..4] && e[..4][..3] == e[..3];
    assert After(c, e[..4]) == BothBegun().(serving := Some(first), requests := [second]);
    assert After(c, e[..5]) == BothBegun().(responses := [Dispatch(c, first)], requests := [second]);
    assert After(c, e).answered == [Answered(second, Dispatch(c, first))];
    assert After(c, e).answered[0].resp.id == 1;
  }

  /** Calls get their own responses exactly when no call is cancelled while it waits. */
  lemma PairedExactly(c: Codec, mayAbandon: bool)
    ensures AlwaysPaired(c, mayAbandon) <==> !mayAbandon
  {
    if mayAbandon {
      MixupMispairs(c);
    } else {
      forall events | NoneAbandoned(events) ensures OwnResponses(c, After(c, events)) {
        OwnUnlessAbandoned(c, events);
      }
    }
  }
}
