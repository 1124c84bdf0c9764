/** The pending-response table and what the transport listener does to it,
    as functions on values; and the history of slot and write events that the
    broker keeps, with the ordering property it must satisfy. */
module Tables {
  import opened Details

  /** Identity of the response channel one waiting request made for itself. */
  type Chan = nat

  /** Pending-response table: request id to the channel the listener sends to. */
  type Routes = map<string, Chan>

  /** The live channels, each a single-slot mailbox: it holds the response
      once the listener has handed one to the request that owns the channel. */
  type Mailboxes = map<Chan, Option<ResponseDetails>>

  /** Every channel the table names is live. */
  ghost predicate Linked(p: Routes, mail: Mailboxes) {
    forall id :: id in p ==> p[id] in mail
  }

  /** No two ids share a channel. */
  ghost predicate Injective(p: Routes) {
    forall a, b :: a in p && b in p && a != b ==> p[a] != p[b]
  }

  /** What routing one inbound response did. `SlotBusy`: the channel already
      handed over a response, so its owner no longer receives and the send on
      the unbuffered channel never completes. */
  datatype Routing = Routed | Unroutable | SlotBusy

  /** Route one response to the channel the table holds under its request id. */
  function Route(p: Routes, mail: Mailboxes, resp: ResponseDetails): (r: (Mailboxes, Routing))
    requires Linked(p, mail)
    ensures r.0.Keys == mail.Keys
    ensures r.1 == Unroutable <==> resp.requestId !in p
    ensures r.1 == Routed <==> resp.requestId in p && mail[p[resp.requestId]] == None
    ensures r.1 == Routed ==> r.0 == mail[p[resp.requestId] := Some(resp)]
    ensures r.1 != Routed ==> r.0 == mail
  {
    var id := resp.requestId;
    if id !in p then (mail, Unroutable)
    else if mail[p[id]].None? then (mail[p[id] := Some(resp)], Routed)
    else (mail, SlotBusy)
  }

  /** How the listener's read loop stopped: it read everything given and is
      still reading, a read failed, or a send for request `id` blocked. */
  datatype ListenEnd = StillReading | ReadFailed | Stuck(id: string)

  /** The read loop over a sequence of read results (None: the read failed).
      It only looks the table up, so the table is an argument, not a result. */
  function Listen(p: Routes, mail: Mailboxes, inbound: seq<Option<ResponseDetails>>): (Mailboxes, ListenEnd)
    requires Linked(p, mail)
    decreases |inbound|
  {
    if inbound == [] then (mail, StillReading)
    else match inbound[0]
      case None => (mail, ReadFailed)
      case Some(resp) =>
        var (q, routing) := Route(p, mail, resp);
        if routing == SlotBusy then (q, Stuck(resp.requestId)) else Listen(p, q, inbound[1..])
  }

  /** The read loop neither creates nor removes a channel. */
  lemma {:induction false} ListenKeepsMailboxes(p: Routes, mail: Mailboxes, inbound: seq<Option<ResponseDetails>>)
    requires Linked(p, mail)
    ensures Listen(p, mail, inbound).0.Keys == mail.Keys
  {
    if inbound != [] && inbound[0].Some? {
      var (q, routing) := Route(p, mail, inbound[0].value);
      if routing != SlotBusy {
        ListenKeepsMailboxes(p, q, inbound[1..]);
      }
    }
  }

  /** A mailbox changes at most once, from empty to a response that was read
      and whose id the table maps to this very channel: no cross-delivery, no
      overwrite. */
  lemma {:induction false} ListenOwnResponseOnly(p: Routes, mail: Mailboxes, inbound: seq<Option<ResponseDetails>>, ch: Chan)
    requires Linked(p, mail) && ch in mail
    ensures ch in Listen(p, mail, inbound).0
    ensures var s := Listen(p, mail, inbound).0[ch];
      s == mail[ch] ||
      (mail[ch] == None && s.Some? && s.value.requestId in p && p[s.value.requestId] == ch &&
       Some(s.value) in inbound)
  {
    ListenKeepsMailboxes(p, mail, inbound);
    if inbound != [] && inbound[0].Some? {
      var (q, routing) := Route(p, mail, inbound[0].value);
      if routing != SlotBusy {
        ListenOwnResponseOnly(p, q, inbound[1..], ch);
        var s := Listen(p, q, inbound[1..]).0[ch];
        if s != q[ch] {
          assert Some(s.value) in inbound[1..];
          assert q[ch] == mail[ch];
        }
      }
    }
  }

  /** The empty mailbox of the channel registered under `id` receives the first
      response read with that id, when the loop is still reading up to it and
      no earlier response was routed to the same channel. */
  lemma {:induction false} ListenFillsFirstAnswer(p: Routes, mail: Mailboxes, inbound: seq<Option<ResponseDetails>>,
                                                  id: string, j: nat)
    requires Linked(p, mail) && Injective(p)
    requires id in p && mail[p[id]] == None
    requires j < |inbound| && inbound[j].Some? && inbound[j].value.requestId == id
    requires forall i :: 0 <= i < j ==> inbound[i].Some? ==> inbound[i].value.requestId != id
    requires Listen(p, mail, inbound[..j]).1 == StillReading
    ensures p[id] in Listen(p, mail, inbound).0 && Listen(p, mail, inbound).0[p[id]] == Some(inbound[j].value)
  {
    var resp := inbound[0].value;
    var (q, routing) := Route(p, mail, resp);
    if j == 0 {
      assert q[p[id]] == Some(resp);
      ListenOwnResponseOnly(p, q, inbound[1..], p[id]);
    } else {
      assert inbound[..j][0] == inbound[0];
      assert inbound[..j][1..] == inbound[1..][..j - 1];
      assert q[p[id]] == None;
      ListenFillsFirstAnswer(p, q, inbound[1..], id, j - 1);
    }
  }

  // ---- Event history ----

  /** Observable steps of request handling, in the order they happen. */
  datatype Event =
    | SlotOpened(id: string)
    | SlotClosed(id: string)
    | Wrote(conn: ConnId, envelope: RequestDetails, ok: bool)

  /** The slot of `id` was opened at some point of `h` and not closed since. */
  ghost predicate IsOpen(h: seq<Event>, id: string) {
    exists i :: 0 <= i < |h| && h[i] == SlotOpened(id) && NotClosedAfter(h, id, i)
  }

  ghost predicate NotClosedAfter(h: seq<Event>, id: string, i: nat) {
    forall k :: i < k < |h| ==> h[k] != SlotClosed(id)
  }

  /** Every envelope was written while the slot for its id was open. */
  ghost predicate WritesWhileOpen(h: seq<Event>) {
    forall j :: 0 <= j < |h| && h[j].Wrote? ==> IsOpen(h[..j], h[j].envelope.requestId)
  }

  /** One more event opens `x`, closes it, or leaves it as it was. */
  lemma OpenAfter(h: seq<Event>, e: Event, x: string)
    ensures IsOpen(h + [e], x) <==> e == SlotOpened(x) || (IsOpen(h, x) && e != SlotClosed(x))
  {
    var h' := h + [e];
    if e == SlotOpened(x) {
      assert h'[|h|] == SlotOpened(x) && NotClosedAfter(h', x, |h|);
    } else if IsOpen(h, x) && e != SlotClosed(x) {
      var i :| 0 <= i < |h| && h[i] == SlotOpened(x) && NotClosedAfter(h, x, i);
      assert h'[i] == SlotOpened(x) && NotClosedAfter(h', x, i);
    }
    if IsOpen(h', x) && e != SlotOpened(x) {
      var i :| 0 <= i < |h'| && h'[i] == SlotOpened(x) && NotClosedAfter(h', x, i);
      assert i < |h|;
      forall k | i < k < |h| ensures h[k] != SlotClosed(x) {
        assert h'[k] == h[k];
      }
      assert e != SlotClosed(x) by { assert h'[|h|] == e; }
    }
  }

  /** Appending an event keeps the ordering property, provided a write is only
      appended while its slot is open. */
  lemma WritesWhileOpenAppend(h: seq<Event>, e: Event)
    requires WritesWhileOpen(h)
    requires e.Wrote? ==> IsOpen(h, e.envelope.requestId)
    ensures WritesWhileOpen(h + [e])
  {
    var h' := h + [e];
    forall j | 0 <= j < |h'| && h'[j].Wrote?
      ensures IsOpen(h'[..j], h'[j].envelope.requestId)
    {
      if j < |h| {
        assert h'[..j] == h[..j];
      } else {
        assert h'[..j] == h;
      }
    }
  }
}
