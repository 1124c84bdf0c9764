/** The broker's shared state and its two connection-facing handlers: the
    preview handler (lookup, slot, envelope, write, wait) and the WebSocket
    handler (validation, registration, read loop). I/O results are parameters:
    the upgrade result, the body read, the write result, and what the tunnel
    client's listener reads while the request waits. */
module Handlers {
  import opened Details
  import opened Headers
  import opened Envelope
  import opened Tables

  const StatusBadRequest := 400
  const StatusNotFound := 404
  const StatusInternalServerError := 500
  const StatusGatewayTimeout := 504

  /** The reply written to the preview caller when the tunnel client answered. */
  datatype Reply = Reply(status: int, headers: Values, body: string)

  /** How one preview request ended. */
  datatype PreviewOutcome =
    | BadRequest(message: string)
    | NotFound
    | BodyReadFailed
    | WriteFailed
    | Delivered(reply: Reply)
    | TimedOut

  /** HTTP status given to the caller; every outcome but Delivered is an http.Error reply. */
  function Status(o: PreviewOutcome): int {
    match o
    case BadRequest(_) => StatusBadRequest
    case NotFound => StatusNotFound
    case BodyReadFailed => StatusInternalServerError
    case WriteFailed => StatusInternalServerError
    case Delivered(reply) => reply.status
    case TimedOut => StatusGatewayTimeout
  }

  /** The text of the http.Error reply. */
  function ErrorMessage(o: PreviewOutcome): string
    requires !o.Delivered?
  {
    match o
    case BadRequest(message) => message
    case NotFound => "component key not found"
    case BodyReadFailed => "failed to read request body"
    case WriteFailed => "failed to forward request to client"
    case TimedOut => "client did not respond in time"
  }

  /** Every status and text the preview handler can answer with through http.Error. */
  function PreviewErrors(): set<(int, string)> {
    {(StatusBadRequest, "user is required"), (StatusBadRequest, "component is required"),
     (StatusNotFound, "component key not found"),
     (StatusInternalServerError, "failed to read request body"),
     (StatusInternalServerError, "failed to forward request to client"),
     (StatusGatewayTimeout, "client did not respond in time")}
  }

  /** The inbound preview request as the handler sees it: the routed user,
      component and sub-path, the method, the raw query, the header and
      parsed query multimaps, and the result of reading the body. */
  datatype Inbound = Inbound(
    user: string,
    component: string,
    subPath: string,
    httpMethod: string,
    rawQuery: string,
    header: Values,
    query: Values,
    body: Option<string>)

  /** Preview handling stopped early, or the envelope is out and the request waits. */
  datatype Stage = Done(outcome: PreviewOutcome) | Awaiting(key: string, ch: Chan, envelope: RequestDetails)

  /** How a WebSocket registration ended. */
  datatype SocketOutcome = Rejected(message: string) | UpgradeFailed | Served(end: ListenEnd)

  /** Both handlers reject an empty user, then an empty component, with 400. */
  function Rejection(user: string, component: string): (r: Option<string>)
    ensures r.None? <==> user != "" && component != ""
  {
    if user == "" then Some("user is required")
    else if component == "" then Some("component is required")
    else None
  }

  /** The envelope the preview handler sends for request `id`. */
  function EnvelopeFor(id: string, req: Inbound, body: string): RequestDetails
    requires NonEmptyLists(req.header) && NonEmptyLists(req.query)
  {
    RequestDetails(id, req.httpMethod, FullPath(req.subPath, req.rawQuery),
      FirstValues(req.header), FirstValues(req.query), body, "", "")
  }

  /** The reply built from a delivered response: its status and body verbatim,
      each of its headers set once on a fresh response writer. */
  function ReplyFor(resp: ResponseDetails): Reply {
    Reply(resp.statusCode, Singletons(resp.headers), resp.body)
  }

  class Broker {
    /** Client registry: client key to its connection. */
    var clients: map<string, ConnId>
    /** Pending-response table: request id to the channel of the waiting request. */
    var pending: Routes
    /** The channels of the requests still being handled. */
    var mailboxes: Mailboxes
    /** The next fresh channel identity. */
    var nextChan: Chan
    /** The request id each live channel was made for. */
    ghost var owners: map<Chan, string>
    /** Slot openings and closings and envelope writes so far. */
    ghost var history: seq<Event>

    /** The table holds exactly the slots that are open in the history; every
        envelope was written while its slot was open; the table names only live
        channels, each under the id it was made for; every live channel is
        older than `nextChan`. */
    ghost predicate Valid()
      reads this
    {
      && WritesWhileOpen(history)
      && (forall id :: id in pending <==> IsOpen(history, id))
      && Linked(pending, mailboxes)
      && mailboxes.Keys == owners.Keys
      && (forall id :: id in pending ==> owners[pending[id]] == id)
      && (forall ch :: ch in mailboxes ==> ch < nextChan)
    }

    constructor ()
      ensures Valid()
      ensures clients == map[] && pending == map[] && mailboxes == map[] && history == []
    {
      clients := map[];
      pending := map[];
      mailboxes := map[];
      owners := map[];
      nextChan := 0;
      history := [];
    }

    /** Registration: the key now maps to `conn`, replacing any earlier entry. */
    method Register(key: string, conn: ConnId)
      requires Valid()
      modifies this
      ensures Valid()
      ensures clients == old(clients)[key := conn]
      ensures pending == old(pending) && mailboxes == old(mailboxes) && nextChan == old(nextChan)
      ensures owners == old(owners) && history == old(history)
    {
      clients := clients[key := conn];
    }

    /** Deregistration on a read error: the key is deleted whichever
        connection it maps to. */
    method Disconnect(key: string)
      requires Valid()
      modifies this
      ensures Valid()
      ensures clients == old(clients) - {key}
      ensures pending == old(pending) && mailboxes == old(mailboxes) && nextChan == old(nextChan)
      ensures owners == old(owners) && history == old(history)
    {
      clients := clients - {key};
    }

    /** Route one response read from a tunnel connection. */
    method Deliver(resp: ResponseDetails) returns (routing: Routing)
      requires Valid()
      modifies this
      ensures Valid()
      ensures (mailboxes, routing) == Route(old(pending), old(mailboxes), resp)
      ensures pending == old(pending) && mailboxes.Keys == old(mailboxes).Keys && owners == old(owners)
      ensures clients == old(clients) && nextChan == old(nextChan) && history == old(history)
    {
      var id := resp.requestId;
      if id !in pending {
        routing := Unroutable;
      } else if mailboxes[pending[id]].None? {
        mailboxes := mailboxes[pending[id] := Some(resp)];
        routing := Routed;
      } else {
        routing := SlotBusy;
      }
    }

    /** The read loop of the listener registered under `key`, over the read
        results given. It deletes `key` on the first failed read, and it stops
        when a send blocks; reads beyond `inbound` are not modelled. */
    method Serve(key: string, inbound: seq<Option<ResponseDetails>>) returns (end: ListenEnd)
      requires Valid()
      modifies this
      ensures Valid()
      ensures (mailboxes, end) == Listen(old(pending), old(mailboxes), inbound)
      ensures clients == if end == ReadFailed then old(clients) - {key} else old(clients)
      ensures pending == old(pending) && owners == old(owners)
      ensures nextChan == old(nextChan) && history == old(history)
    {
      var i := 0;
      while i < |inbound|
        invariant 0 <= i <= |inbound|
        invariant Valid()
        invariant clients == old(clients) && pending == old(pending)
        invariant nextChan == old(nextChan) && history == old(history)
        invariant owners == old(owners)
        invariant Listen(old(pending), old(mailboxes), inbound) == Listen(pending, mailboxes, inbound[i..])
      {
        assert inbound[i..][0] == inbound[i] && inbound[i..][1..] == inbound[i + 1..];
        match inbound[i] {
          case None =>
            Disconnect(key);
            return ReadFailed;
          case Some(resp) =>
            var routing := Deliver(resp);
            if routing == SlotBusy {
              return Stuck(resp.requestId);
            }
        }
        i := i + 1;
      }
      end := StillReading;
    }

    /** The WebSocket handler: validate, upgrade, register, then serve reads. */
    method HandleWebSocket(user: string, component: string, upgrade: Option<ConnId>,
                           inbound: seq<Option<ResponseDetails>>) returns (r: SocketOutcome)
      requires Valid()
      modifies this
      ensures Valid()
      ensures pending == old(pending) && owners == old(owners)
      ensures nextChan == old(nextChan) && history == old(history)
      ensures Rejection(user, component).Some? ==>
        r == Rejected(Rejection(user, component).value) &&
        clients == old(clients) && mailboxes == old(mailboxes)
      ensures Rejection(user, component).None? && upgrade.None? ==>
        r == UpgradeFailed && clients == old(clients) && mailboxes == old(mailboxes)
      ensures Rejection(user, component).None? && upgrade.Some? ==>
        var key := ClientKey(user, component);
        var (m, end) := Listen(old(pending), old(mailboxes), inbound);
        && r == Served(end)
        && mailboxes == m
        && clients == if end == ReadFailed then old(clients) - {key} else old(clients)[key := upgrade.value]
    {
      var reject := Rejection(user, component);
      if reject.Some? {
        return Rejected(reject.value);
      }
      var key := ClientKey(user, component);
      if upgrade.None? {
        return UpgradeFailed;
      }
      Register(key, upgrade.value);
      var end := Serve(key, inbound);
      r := Served(end);
    }

    /** Make a fresh channel and store it under `id` (overwriting the entry of
        another request with the same id). */
    method OpenSlot(id: string) returns (ch: Chan)
      requires Valid()
      modifies this
      ensures Valid()
      ensures ch == old(nextChan) && ch !in old(mailboxes) && nextChan == old(nextChan) + 1
      ensures owners == old(owners)[ch := id]
      ensures pending == old(pending)[id := ch] && mailboxes == old(mailboxes)[ch := None]
      ensures history == old(history) + [SlotOpened(id)]
      ensures clients == old(clients)
    {
      ghost var h := history;
      ch := nextChan;
      nextChan := nextChan + 1;
      mailboxes := mailboxes[ch := None];
      owners := owners[ch := id];
      pending := pending[id := ch];
      history := history + [SlotOpened(id)];
      forall x ensures IsOpen(history, x) <==> IsOpen(h, x) || x == id {
        OpenAfter(h, SlotOpened(id), x);
      }
      WritesWhileOpenAppend(h, SlotOpened(id));
    }

    /** The deferred delete of the entry under `id`, whatever channel it holds;
        the request's own channel `ch` goes away with the handler. */
    method CloseSlot(id: string, ch: Chan)
      requires Valid() && ch in owners && owners[ch] == id
      modifies this
      ensures Valid()
      ensures pending == old(pending) - {id} && mailboxes == old(mailboxes) - {ch}
      ensures owners == old(owners) - {ch}
      ensures history == old(history) + [SlotClosed(id)]
      ensures clients == old(clients) && nextChan == old(nextChan)
    {
      ghost var h := history;
      pending := pending - {id};
      mailboxes := mailboxes - {ch};
      owners := owners - {ch};
      history := history + [SlotClosed(id)];
      forall x ensures IsOpen(history, x) <==> IsOpen(h, x) && x != id {
        OpenAfter(h, SlotClosed(id), x);
      }
      WritesWhileOpenAppend(h, SlotClosed(id));
    }

    /** Write an envelope to a connection; `ok` is the write's result. Only an
        envelope whose slot is in the table can be written. */
    method WriteEnvelope(conn: ConnId, env: RequestDetails, ok: bool)
      requires Valid() && env.requestId in pending
      modifies this
      ensures Valid()
      ensures history == old(history) + [Wrote(conn, env, ok)]
      ensures pending == old(pending) && mailboxes == old(mailboxes) && owners == old(owners)
      ensures clients == old(clients) && nextChan == old(nextChan)
    {
      ghost var h := history;
      history := history + [Wrote(conn, env, ok)];
      forall x ensures IsOpen(history, x) <==> IsOpen(h, x) {
        OpenAfter(h, Wrote(conn, env, ok), x);
      }
      WritesWhileOpenAppend(h, Wrote(conn, env, ok));
    }

    /** The preview handler up to the write: reject, look up, then send. */
    method Dispatch(req: Inbound, id: string, writeOk: bool) returns (s: Stage)
      requires Valid()
      requires NonEmptyLists(req.header) && NonEmptyLists(req.query)
      modifies this
      ensures Valid() && clients == old(clients)
      ensures Rejection(req.user, req.component).Some? ==>
        && s == Done(BadRequest(Rejection(req.user, req.component).value))
        && pending == old(pending) && mailboxes == old(mailboxes) && owners == old(owners)
        && nextChan == old(nextChan) && history == old(history)
      ensures Rejection(req.user, req.component).None? && ClientKey(req.user, req.component) !in old(clients) ==>
        && s == Done(NotFound) && pending == old(pending) && mailboxes == old(mailboxes)
        && owners == old(owners) && nextChan == old(nextChan) && history == old(history)
      ensures s.Done? ==> !s.outcome.Delivered? && (Status(s.outcome), ErrorMessage(s.outcome)) in PreviewErrors()
      ensures Rejection(req.user, req.component).None? && ClientKey(req.user, req.component) in old(clients) ==>
        Sent(req, id, writeOk, ClientKey(req.user, req.component), old(clients)[ClientKey(req.user, req.component)],
             old(nextChan), old(pending), old(mailboxes), old(owners), old(history), s)
    {
      var reject := Rejection(req.user, req.component);
      if reject.Some? {
        return Done(BadRequest(reject.value));
      }
      var key := ClientKey(req.user, req.component);
      if key !in clients {
        return Done(NotFound);
      }
      s := Send(req, id, writeOk, key, clients[key]);
    }

    /** What `Send` leaves behind, given the state `p0`, `m0`, `o0`, `h0` it
        started from and the fresh channel `ch`: a body read failure and a
        failed write close the slot again; a successful write leaves it open
        and awaited. */
    ghost predicate Sent(req: Inbound, id: string, writeOk: bool, key: string, conn: ConnId,
                         ch: Chan, p0: Routes, m0: Mailboxes, o0: map<Chan, string>,
                         h0: seq<Event>, s: Stage)
      requires NonEmptyLists(req.header) && NonEmptyLists(req.query)
      reads this
    {
      && nextChan == ch + 1
      && (if req.body.None? then
            && s == Done(BodyReadFailed)
            && pending == p0 - {id} && mailboxes == m0 && owners == o0
            && history == h0 + [SlotOpened(id), SlotClosed(id)]
          else
            var env := EnvelopeFor(id, req, req.body.value);
            if writeOk then
              && s == Awaiting(key, ch, env)
              && pending == p0[id := ch] && mailboxes == m0[ch := None] && owners == o0[ch := id]
              && history == h0 + [SlotOpened(id), Wrote(conn, env, true)]
            else
              && s == Done(WriteFailed)
              && pending == p0 - {id} && mailboxes == m0 && owners == o0
              && history == h0 + [SlotOpened(id), Wrote(conn, env, false), SlotClosed(id)])
    }

    /** Make the channel and store it, read the body, build the envelope and
        write it to `conn`. Every early exit closes the slot again. */
    method Send(req: Inbound, id: string, writeOk: bool, key: string, conn: ConnId) returns (s: Stage)
      requires Valid()
      requires NonEmptyLists(req.header) && NonEmptyLists(req.query)
      modifies this
      ensures Valid() && clients == old(clients)
      ensures Sent(req, id, writeOk, key, conn, old(nextChan), old(pending), old(mailboxes),
                   old(owners), old(history), s)
    {
      ghost var p0, m0, o0, h0 := pending, mailboxes, owners, history;
      var ch := OpenSlot(id);
      assert ch !in o0;
      assert pending - {id} == p0 - {id};
      if req.body.None? {
        CloseSlot(id, ch);
        assert mailboxes == m0 && owners == o0;
        assert history == h0 + [SlotOpened(id), SlotClosed(id)];
        return Done(BodyReadFailed);
      }
      s := Post(req, id, writeOk, key, conn, ch, req.body.value);
      if !writeOk {
        assert mailboxes == m0 && owners == o0;
      }
    }

    /** With the slot open on `ch`: build the envelope and write it to `conn`;
        a failed write closes the slot again. */
    method Post(req: Inbound, id: string, writeOk: bool, key: string, conn: ConnId,
                ch: Chan, body: string) returns (s: Stage)
      requires Valid() && id in pending && ch in owners && owners[ch] == id
      requires NonEmptyLists(req.header) && NonEmptyLists(req.query)
      modifies this
      ensures Valid() && clients == old(clients) && nextChan == old(nextChan)
      ensures var env := EnvelopeFor(id, req, body);
        if writeOk then
          && s == Awaiting(key, ch, env)
          && pending == old(pending) && mailboxes == old(mailboxes) && owners == old(owners)
          && history == old(history) + [Wrote(conn, env, true)]
        else
          && s == Done(WriteFailed)
          && pending == old(pending) - {id} && mailboxes == old(mailboxes) - {ch}
          && owners == old(owners) - {ch}
          && history == old(history) + [Wrote(conn, env, false), SlotClosed(id)]
    {
      ghost var h0 := history;
      var headers := FlattenFirst(req.header);
      var query := FlattenFirst(req.query);
      var env := RequestDetails(id, req.httpMethod, FullPath(req.subPath, req.rawQuery),
                                headers, query, body, "", "");
      assert env == EnvelopeFor(id, req, body);
      WriteEnvelope(conn, env, writeOk);
      if !writeOk {
        CloseSlot(id, ch);
        assert history == h0 + [Wrote(conn, env, false), SlotClosed(id)];
        return Done(WriteFailed);
      }
      s := Awaiting(key, ch, env);
    }

    /** The wait on the request's own channel `ch`, then the deferred delete of
        the entry under `id`: the response handed to that channel, or the
        timeout when none was. */
    method Await(id: string, ch: Chan) returns (o: PreviewOutcome)
      requires Valid() && ch in owners && owners[ch] == id
      modifies this
      ensures Valid()
      ensures o == if old(mailboxes)[ch].Some? then Delivered(ReplyFor(old(mailboxes)[ch].value)) else TimedOut
      ensures pending == old(pending) - {id} && mailboxes == old(mailboxes) - {ch}
      ensures owners == old(owners) - {ch}
      ensures history == old(history) + [SlotClosed(id)]
      ensures clients == old(clients) && nextChan == old(nextChan)
    {
      match mailboxes[ch] {
        case Some(resp) =>
          var headers := SetEach(map[], resp.headers);
          assert headers == Singletons(resp.headers);
          o := Delivered(Reply(resp.statusCode, headers, resp.body));
        case None =>
          o := TimedOut;
      }
      CloseSlot(id, ch);
    }

    /** One preview request end to end: dispatch, then the tunnel client's
        listener serves `tunnel` (the reads it makes before the 30-second
        deadline), then the wait ends and the slot is deleted. */
    method Preview(req: Inbound, id: string, writeOk: bool,
                   tunnel: seq<Option<ResponseDetails>>) returns (o: PreviewOutcome)
      requires Valid()
      requires NonEmptyLists(req.header) && NonEmptyLists(req.query)
      modifies this
      ensures Valid()
      ensures Rejection(req.user, req.component).Some? ==>
        && o == BadRequest(Rejection(req.user, req.component).value)
        && clients == old(clients) && pending == old(pending) && mailboxes == old(mailboxes)
        && history == old(history)
      ensures Rejection(req.user, req.component).None? && ClientKey(req.user, req.component) !in old(clients) ==>
        && o == NotFound && clients == old(clients) && pending == old(pending)
        && mailboxes == old(mailboxes) && history == old(history)
      ensures Rejection(req.user, req.component).None? && ClientKey(req.user, req.component) in old(clients) ==>
        var key := ClientKey(req.user, req.component);
        var conn := old(clients)[key];
        var ch := old(nextChan);
        && id !in pending
        && pending == old(pending) - {id}
        && (req.body.None? ==>
              && o == BodyReadFailed && clients == old(clients) && mailboxes == old(mailboxes)
              && history == old(history) + [SlotOpened(id), SlotClosed(id)])
        && (req.body.Some? ==>
              var env := EnvelopeFor(id, req, req.body.value);
              if !writeOk then
                && o == WriteFailed && clients == old(clients) && mailboxes == old(mailboxes)
                && history == old(history) + [SlotOpened(id), Wrote(conn, env, false), SlotClosed(id)]
              else
                && Linked(old(pending)[id := ch], old(mailboxes)[ch := None])
                && var (m, end) := Listen(old(pending)[id := ch], old(mailboxes)[ch := None], tunnel);
                && ch in m
                && o == (if m[ch].Some? then Delivered(ReplyFor(m[ch].value)) else TimedOut)
                && mailboxes == m - {ch}
                && mailboxes.Keys == old(mailboxes).Keys
                && clients == (if end == ReadFailed then old(clients) - {key} else old(clients))
                && history == old(history) + [SlotOpened(id), Wrote(conn, env, true), SlotClosed(id)])
      ensures o.Delivered? ==>
        exists k :: 0 <= k < |tunnel| && tunnel[k].Some? && tunnel[k].value.requestId == id &&
                    o.reply == ReplyFor(tunnel[k].value)
    {
      var s := Dispatch(req, id, writeOk);
      match s
      case Done(outcome) =>
        o := outcome;
      case Awaiting(key, ch, env) =>
        ghost var p1, m1, h1 := pending, mailboxes, history;
        assert ch !in old(mailboxes) && m1.Keys == old(mailboxes).Keys + {ch};
        assert p1 - {id} == old(pending) - {id};
        o := Respond(key, id, ch, tunnel);
        assert mailboxes.Keys == (old(mailboxes).Keys + {ch}) - {ch} == old(mailboxes).Keys;
        assert history == h1 + [SlotClosed(id)]
          == old(history) + [SlotOpened(id), Wrote(old(clients)[key], env, true), SlotClosed(id)];
    }

    /** After a successful write: the listener under `key` serves `tunnel`,
        then the wait on `ch` ends and the entry under `id` is deleted. Only a
        response carrying `id` can have reached `ch`. */
    method Respond(key: string, id: string, ch: Chan,
                   tunnel: seq<Option<ResponseDetails>>) returns (o: PreviewOutcome)
      requires Valid() && ch in owners && owners[ch] == id && mailboxes[ch] == None
      modifies this
      ensures Valid()
      ensures var (m, end) := Listen(old(pending), old(mailboxes), tunnel);
        && ch in m
        && o == (if m[ch].Some? then Delivered(ReplyFor(m[ch].value)) else TimedOut)
        && mailboxes == m - {ch}
        && clients == (if end == ReadFailed then old(clients) - {key} else old(clients))
      ensures mailboxes.Keys == old(mailboxes).Keys - {ch}
      ensures pending == old(pending) - {id} && nextChan == old(nextChan)
      ensures history == old(history) + [SlotClosed(id)]
      ensures o.Delivered? ==>
        exists k :: 0 <= k < |tunnel| && tunnel[k].Some? && tunnel[k].value.requestId == id &&
                    o.reply == ReplyFor(tunnel[k].value)
      ensures !o.Delivered? ==> Status(o) == StatusGatewayTimeout && ErrorMessage(o) == "client did not respond in time"
    {
      ghost var m0 := mailboxes;
      assert forall x :: x in pending && pending[x] == ch ==> x == id;
      var end := Serve(key, tunnel);
      ListenKeepsMailboxes(pending, m0, tunnel);
      ListenOwnResponseOnly(pending, m0, tunnel, ch);
      o := Await(id, ch);
    }
  }

  /** A listener that was superseded by a newer registration under the same
      key still deletes that key when its read fails, evicting the newer
      connection. */
  method StaleListenerEvictsNewer(b: Broker, key: string, older: ConnId, newer: ConnId)
    requires b.Valid()
    modifies b
    ensures b.Valid()
    ensures key !in b.clients
  {
    b.Register(key, older);
    b.Register(key, newer);
    assert b.clients[key] == newer;
    var end := b.Serve(key, [None]);
  }

  /** A request whose tunnel client answers before the deadline gets that
      answer: the first response read with its id, while the listener is still
      reading up to it, is the reply. */
  method AnswerInTimeIsDelivered(b: Broker, req: Inbound, id: string,
                                 tunnel: seq<Option<ResponseDetails>>, j: nat)
      returns (o: PreviewOutcome)
    requires b.Valid() && NonEmptyLists(req.header) && NonEmptyLists(req.query)
    requires Rejection(req.user, req.component).None? && ClientKey(req.user, req.component) in b.clients
    requires req.body.Some?
    requires j < |tunnel| && tunnel[j].Some? && tunnel[j].value.requestId == id
    requires forall i :: 0 <= i < j ==> tunnel[i].Some? ==> tunnel[i].value.requestId != id
    requires Listen(b.pending[id := b.nextChan], b.mailboxes[b.nextChan := None], tunnel[..j]).1 == StillReading
    modifies b
    ensures o == Delivered(ReplyFor(tunnel[j].value))
  {
    var p, m, ch := b.pending[id := b.nextChan], b.mailboxes[b.nextChan := None], b.nextChan;
    assert ch !in b.mailboxes;
    assert Injective(p) by {
      forall x, y | x in p && y in p && x != y ensures p[x] != p[y] {
        if x != id && y != id {
          assert b.owners[p[x]] == x && b.owners[p[y]] == y;
        }
      }
    }
    ListenFillsFirstAnswer(p, m, tunnel, id, j);
    o := b.Preview(req, id, true, tunnel);
  }

  /** Two requests with the same id: a response routed while only the first is
      registered reaches the first, which keeps it although the second then
      overwrites the table entry. */
  method CollidingIdFirstKeepsItsResponse(b: Broker, req: Inbound, id: string, r: ResponseDetails)
      returns (first: PreviewOutcome)
    requires b.Valid() && NonEmptyLists(req.header) && NonEmptyLists(req.query)
    requires Rejection(req.user, req.component).None? && req.body.Some? && r.requestId == id
    modifies b
    ensures first == Delivered(ReplyFor(r))
  {
    b.Register(ClientKey(req.user, req.component), 0);
    var a := b.Send(req, id, true, ClientKey(req.user, req.component), 0);
    assert a.Awaiting? && b.pending[id] == a.ch && b.mailboxes[a.ch] == None;
    var routing := b.Deliver(r);
    assert b.owners[a.ch] == id && b.mailboxes[a.ch] == Some(r);
    var c := b.Send(req, id, true, ClientKey(req.user, req.component), 0);
    assert b.owners[a.ch] == id && b.mailboxes[a.ch] == Some(r);
    first := b.Await(id, a.ch);
  }

  /** Two requests with the same id: a response routed after the second has
      overwritten the table entry reaches the second only; the first times out,
      and its deferred delete leaves the second's channel holding the response. */
  method CollidingIdSecondTakesResponse(b: Broker, req: Inbound, id: string, r: ResponseDetails)
      returns (first: PreviewOutcome, second: PreviewOutcome)
    requires b.Valid() && NonEmptyLists(req.header) && NonEmptyLists(req.query)
    requires Rejection(req.user, req.component).None? && req.body.Some? && r.requestId == id
    modifies b
    ensures first == TimedOut && second == Delivered(ReplyFor(r))
  {
    var chA, chB := OverwriteThenRoute(b, req, id, r);
    first := b.Await(id, chA);
    assert b.owners[chB] == id && b.mailboxes[chB] == Some(r);
    second := b.Await(id, chB);
  }

  /** The first half of the scenario above: both requests are sent, the second
      overwriting the first's entry, and then the response is routed. */
  method OverwriteThenRoute(b: Broker, req: Inbound, id: string, r: ResponseDetails)
      returns (chA: Chan, chB: Chan)
    requires b.Valid() && NonEmptyLists(req.header) && NonEmptyLists(req.query)
    requires Rejection(req.user, req.component).None? && req.body.Some? && r.requestId == id
    modifies b
    ensures b.Valid() && chA != chB
    ensures chA in b.owners && b.owners[chA] == id && b.mailboxes[chA] == None
    ensures chB in b.owners && b.owners[chB] == id && b.mailboxes[chB] == Some(r)
  {
    b.Register(ClientKey(req.user, req.component), 0);
    var a := b.Send(req, id, true, ClientKey(req.user, req.component), 0);
    assert a.Awaiting? && b.owners[a.ch] == id && b.mailboxes[a.ch] == None;
    var c := b.Send(req, id, true, ClientKey(req.user, req.component), 0);
    assert c.Awaiting? && c.ch != a.ch && b.pending[id] == c.ch;
    assert b.owners[a.ch] == id && b.mailboxes[a.ch] == None && b.mailboxes[c.ch] == None;
    var routing := b.Deliver(r);
    chA, chB := a.ch, c.ch;
  }
}
