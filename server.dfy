/**
 * The server's shared state (`AppState`): the transport record, the registry
 * of connected WebSocket clients, the `POST /api/state` update with its
 * broadcast, the WebSocket connection handler, and `build_app`'s set-up.
 *
 * Sends are not performed: each `send_str` becomes a `Delivery` or a
 * `Message` in an out-parameter, and whether it raises is decided by an
 * oracle passed in by the caller.
 */
module Server {
  import opened Text
  import opened Transport
  import opened Project

  /** A connected WebSocket client, by identity. */
  type ClientId = nat

  /** What the server writes on a socket: a serialised state payload, or the reply "pong". */
  datatype Message = StateMessage(state: Transport) | Pong

  /** One `send_str` attempt of a broadcast. */
  datatype Delivery = Delivery(to: ClientId, msg: Message)

  /** The body of `POST /api/state`: a JSON object, or anything `request.json()` fails on. */
  datatype Body = Object(entries: map<string, FieldValue>) | Unparseable

  /** The payload the handler works with: an unparseable body counts as `{}`. */
  function Entries(body: Body): map<string, FieldValue>
  {
    match body
    case Object(entries) => entries
    case Unparseable => map[]
  }

  /** The clients a sequence of send attempts went to. */
  function Recipients(sent: seq<Delivery>): set<ClientId>
  {
    if sent == [] then {} else Recipients(sent[..|sent| - 1]) + {sent[|sent| - 1].to}
  }

  /**
   * What holds after the broadcast has tried the clients in `visited`: each of
   * them once, with `msg`, and `dead` holds those whose send raised.
   */
  ghost predicate Broadcasting(msg: Message, failing: set<ClientId>, sent: seq<Delivery>, dead: set<ClientId>, visited: set<ClientId>)
  {
    && Recipients(sent) == visited
    && |sent| == |visited|
    && (forall i :: 0 <= i < |sent| ==> sent[i].to in visited)
    && (forall i, j :: 0 <= i < j < |sent| ==> sent[i].to != sent[j].to)
    && (forall i :: 0 <= i < |sent| ==> sent[i].msg == msg)
    && dead == visited * failing
  }

  /** One more send attempt, to a client not tried yet, keeps the broadcast's record straight. */
  lemma BroadcastStep(msg: Message, failing: set<ClientId>, sent: seq<Delivery>, dead: set<ClientId>, visited: set<ClientId>, ws: ClientId)
    requires Broadcasting(msg, failing, sent, dead, visited)
    requires ws !in visited
    ensures Broadcasting(msg, failing, sent + [Delivery(ws, msg)], dead + (if ws in failing then {ws} else {}), visited + {ws})
  {
  }

  /**
   * The first loop of the broadcast: one send attempt per client with the same
   * message; the clients whose send raises are collected in `dead`.
   */
  method AttemptSends(clients: set<ClientId>, msg: Message, failing: set<ClientId>)
    returns (sent: seq<Delivery>, dead: set<ClientId>)
    ensures Recipients(sent) == clients
    ensures |sent| == |clients|
    ensures forall i, j :: 0 <= i < j < |sent| ==> sent[i].to != sent[j].to
    ensures forall i :: 0 <= i < |sent| ==> sent[i].msg == msg
    ensures dead == clients * failing
  {
    sent, dead := [], {};
    var pending := clients;
    ghost var visited := {};
    while pending != {}
      invariant forall c :: c in clients <==> c in visited || c in pending
      invariant visited !! pending
      invariant Broadcasting(msg, failing, sent, dead, visited)
      decreases |pending|
    {
      var ws :| ws in pending;
      BroadcastStep(msg, failing, sent, dead, visited, ws);
      sent := sent + [Delivery(ws, msg)];
      if ws in failing {
        dead := dead + {ws};
      }
      pending := pending - {ws};
      visited := visited + {ws};
    }
    assert visited == clients;
  }

  /** A message arriving on a WebSocket, as `async for msg in ws` yields it. */
  datatype WsMessage = WsText(data: string) | WsOther | WsError

  /** `data.strip().lower() == "ping"`. */
  predicate IsPing(data: string)
  {
    Lower(Strip(data)) == "ping"
  }

  /** "ping" in any letter case, with any whitespace around it, is a ping. */
  lemma PingWithPadding(a: string, word: string, b: string)
    requires AllSpace(a) && AllSpace(b)
    requires Lower(word) == "ping"
    ensures IsPing(a + word + b)
  {
    LowerChars(word);
    assert LowerChar(word[0]) == 'p' && LowerChar(word[3]) == 'g';
    assert !IsSpace(word[0]) && !IsSpace(word[|word| - 1]);
    StripPadded(a, word, b);
  }

  /** Every ping is "ping" in some letter case with whitespace, and only whitespace, around it. */
  lemma PingShape(data: string)
    requires IsPing(data)
    ensures exists i :: 0 <= i <= |data| - 4 && Lower(data[i..i + 4]) == "ping"
                       && AllSpace(data[..i]) && AllSpace(data[i + 4..])
  {
    StripIsInfix(data);
    assert |Strip(data)| == 4;
  }

  predicate IsPingMessage(m: WsMessage)
  {
    m.WsText? && IsPing(m.data)
  }

  /** The position of the first `ERROR` message, where the handler leaves its loop; `|msgs|` if none. */
  function FirstError(msgs: seq<WsMessage>): (k: nat)
    ensures k <= |msgs|
    ensures forall i :: 0 <= i < k ==> !msgs[i].WsError?
    ensures k < |msgs| ==> msgs[k].WsError?
  {
    if msgs == [] || msgs[0].WsError? then 0 else 1 + FirstError(msgs[1..])
  }

  /** The replies the handler writes for `msgs`, none of which is an `ERROR`: one "pong" per ping. */
  function Pongs(msgs: seq<WsMessage>): seq<Message>
  {
    if msgs == [] then []
    else Pongs(msgs[..|msgs| - 1]) + (if IsPingMessage(msgs[|msgs| - 1]) then [Pong] else [])
  }

  /** The positions of the pings among `msgs`. */
  function PingIndices(msgs: seq<WsMessage>): set<nat>
  {
    set i: nat | i < |msgs| && IsPingMessage(msgs[i])
  }

  /** The pings of a sequence are those of all but its last message, and the last one if it is a ping. */
  lemma PingIndicesOfInit(msgs: seq<WsMessage>)
    requires msgs != []
    ensures var n := |msgs| - 1;
            PingIndices(msgs) == PingIndices(msgs[..n]) + (if IsPingMessage(msgs[n]) then {n} else {})
  {
  }

  /** There are as many replies as pings, and every reply is "pong". */
  lemma {:induction false} PongCount(msgs: seq<WsMessage>)
    ensures |Pongs(msgs)| == |PingIndices(msgs)|
    ensures forall k :: 0 <= k < |Pongs(msgs)| ==> Pongs(msgs)[k] == Pong
  {
    if msgs != [] {
      var n := |msgs| - 1;
      PongCount(msgs[..n]);
      PingIndicesOfInit(msgs);
      assert n !in PingIndices(msgs[..n]);
    }
  }

  /** The replies to a prefix of the messages come first among the replies to a longer prefix. */
  lemma {:induction false} PongsPrefix(msgs: seq<WsMessage>, i: nat, j: nat)
    requires i <= j <= |msgs|
    ensures |Pongs(msgs[..i])| <= |Pongs(msgs[..j])|
    ensures Pongs(msgs[..j])[..|Pongs(msgs[..i])|] == Pongs(msgs[..i])
    decreases j - i
  {
    if i < j {
      PongsPrefix(msgs, i, j - 1);
      assert msgs[..j][..j - 1] == msgs[..j - 1];
    }
  }

  /** The position of the first send that raises among `n` sends; `n` if none does. */
  function FirstFailure(failing: set<nat>, n: nat): (k: nat)
    ensures k <= n
    ensures forall j :: 0 <= j < k ==> j !in failing
    ensures k < n ==> k in failing
  {
    if n == 0 then 0
    else
      var k := FirstFailure(failing, n - 1);
      if k < n - 1 then k else if n - 1 in failing then n - 1 else n
  }

  /** The first failure is the one position that is failing and has no failing position before it. */
  lemma FirstFailureIs(failing: set<nat>, n: nat, k: nat)
    requires k <= n
    requires forall j :: 0 <= j < k ==> j !in failing
    requires k < n ==> k in failing
    ensures FirstFailure(failing, n) == k
  {
  }

  /** One more message adds its reply, if it is a ping, to the replies so far. */
  lemma PongsStep(msgs: seq<WsMessage>, i: nat)
    requires i < |msgs|
    ensures Pongs(msgs[..i + 1]) == Pongs(msgs[..i]) + (if IsPingMessage(msgs[i]) then [Pong] else [])
  {
    assert msgs[..i + 1][..i] == msgs[..i];
  }

  /** Everything the handler tries to write, in order: the welcome payload, then the replies. */
  function Outgoing(welcome: Transport, msgs: seq<WsMessage>): seq<Message>
  {
    [StateMessage(welcome)] + Pongs(msgs[..FirstError(msgs)])
  }

  /** A ping before the first `ERROR` means a "pong" right after what was written for the messages before it. */
  lemma ReplyIsNext(welcome: Transport, msgs: seq<WsMessage>, i: nat)
    requires i < FirstError(msgs) && IsPingMessage(msgs[i])
    ensures var sofar := [StateMessage(welcome)] + Pongs(msgs[..i]);
            |sofar| < |Outgoing(welcome, msgs)| && Outgoing(welcome, msgs)[..|sofar| + 1] == sofar + [Pong]
  {
    PongsStep(msgs, i);
    PongsPrefix(msgs, i + 1, FirstError(msgs));
    var longer := Pongs(msgs[..FirstError(msgs)]);
    var sofar := [StateMessage(welcome)] + Pongs(msgs[..i]);
    assert Outgoing(welcome, msgs)[..|sofar| + 1] == [StateMessage(welcome)] + longer[..|sofar|];
  }

  /** The reply to the ping at `i` is the first send that raises: what was written before it is all that is delivered. */
  lemma FailsOnReply(welcome: Transport, msgs: seq<WsMessage>, failing: set<nat>, i: nat)
    requires i < FirstError(msgs) && IsPingMessage(msgs[i])
    requires var sofar := [StateMessage(welcome)] + Pongs(msgs[..i]);
             (forall j :: 0 <= j < |sofar| ==> j !in failing) && |sofar| in failing
    ensures var sofar := [StateMessage(welcome)] + Pongs(msgs[..i]);
            var out := Outgoing(welcome, msgs);
            var k := FirstFailure(failing, |out|);
            sofar == out[..k] && k < |out|
  {
    var sofar := [StateMessage(welcome)] + Pongs(msgs[..i]);
    var out := Outgoing(welcome, msgs);
    ReplyIsNext(welcome, msgs, i);
    assert out[..|sofar|] == out[..|sofar| + 1][..|sofar|];
    FirstFailureIs(failing, |out|, |sofar|);
  }

  /** When no send raises, everything the handler tries to write is delivered. */
  lemma NoFailure(welcome: Transport, msgs: seq<WsMessage>, failing: set<nat>)
    requires var out := [StateMessage(welcome)] + Pongs(msgs[..FirstError(msgs)]);
             forall j :: 0 <= j < |out| ==> j !in failing
    ensures var out := Outgoing(welcome, msgs);
            FirstFailure(failing, |out|) == |out| && out[..|out|] == out
  {
  }

  /** The positions of the pings that come before the first `ERROR`. */
  function PingsBeforeError(msgs: seq<WsMessage>): set<nat>
  {
    set i: nat | i < FirstError(msgs) && IsPingMessage(msgs[i])
  }

  /**
   * What the handler writes when no send raises: the welcome payload first,
   * then one "pong" for each ping before the first `ERROR`, and nothing else.
   */
  lemma OutgoingShape(welcome: Transport, msgs: seq<WsMessage>)
    ensures var out := Outgoing(welcome, msgs);
            && |out| == 1 + |PingsBeforeError(msgs)|
            && out[0] == StateMessage(welcome)
            && forall k :: 1 <= k < |out| ==> out[k] == Pong
  {
    var prefix := msgs[..FirstError(msgs)];
    PongCount(prefix);
    forall i: nat | i < FirstError(msgs) ensures prefix[i] == msgs[i] {
    }
    assert PingIndices(prefix) == PingsBeforeError(msgs);
  }

  /** An unparseable body is the empty update: the record keeps every field. */
  lemma UnparseableBodyChangesNothing(t: Transport)
    ensures Conforms(Entries(Unparseable))
    ensures Overlay(t, Entries(Unparseable)) == t
  {
  }

  /** The shared state of the application. */
  class AppState {
    const project: ProjectDoc
    const state: TransportState
    var wsClients: set<ClientId>

    constructor (project: ProjectDoc, state: TransportState)
      ensures this.project == project && this.state == state && wsClients == {}
    {
      this.project := project;
      this.state := state;
      wsClients := {};
    }

    /** `state_payload`: stamps the record with `now`, clamps it, and returns a copy. */
    method StatePayload(now: real) returns (p: Transport)
      modifies state
      ensures p == state.Value() == Payload(old(state.Value()), now)
    {
      state.tHost := now;
      state.Clamp();
      p := state.Value();
    }

    /** `ws_clients.add(ws)`. */
    method Register(ws: ClientId)
      modifies this
      ensures wsClients == old(wsClients) + {ws}
    {
      wsClients := wsClients + {ws};
    }

    /** `ws_clients.discard(ws)`: removing a client that is not registered changes nothing. */
    method Discard(ws: ClientId)
      modifies this
      ensures wsClients == old(wsClients) - {ws}
      ensures ws !in old(wsClients) ==> wsClients == old(wsClients)
    {
      wsClients := wsClients - {ws};
    }

    /**
     * The update loop of `POST /api/state`: each recognised key of the payload,
     * in turn, is copied into the record.
     */
    method ApplyUpdate(payload: map<string, FieldValue>)
      requires Conforms(payload)
      modifies state
      ensures state.Value() == Overlay(old(state.Value()), payload)
    {
      ghost var before := state.Value();
      for i := 0 to |Keys|
        invariant ApplyKeys(state.Value(), Keys[i..], payload) == ApplyKeys(before, Keys, payload)
      {
        assert Keys[i..][1..] == Keys[i + 1..];
        var k := Keys[i];
        if Name(k) in payload {
          state.SetAttr(k, payload[Name(k)]);
        }
      }
      UpdateLoopIsOverlay(before, payload);
    }

    /** The second loop of the broadcast: `ws_clients.discard(ws)` for every client whose send raised. */
    method DiscardAll(dead: set<ClientId>)
      modifies this
      ensures wsClients == old(wsClients) - dead
    {
      var remaining := dead;
      while remaining != {}
        invariant remaining <= dead
        invariant wsClients == old(wsClients) - (dead - remaining)
        decreases |remaining|
      {
        var ws :| ws in remaining;
        Discard(ws);
        remaining := remaining - {ws};
      }
    }

    /**
     * The body of `POST /api/state`: copy the recognised keys of the body into
     * the record, produce one payload message, try to send it to every client,
     * and drop the clients whose send raised. `failing` says which sends raise.
     */
    method SetState(body: Body, now: real, failing: set<ClientId>) returns (msg: Message, sent: seq<Delivery>)
      requires Conforms(Entries(body))
      modifies this, state
      ensures state.Value() == Payload(Overlay(old(state.Value()), Entries(body)), now)
      ensures msg == StateMessage(state.Value())
      ensures Recipients(sent) == old(wsClients) && |sent| == |old(wsClients)|
      ensures forall i, j :: 0 <= i < j < |sent| ==> sent[i].to != sent[j].to
      ensures forall i :: 0 <= i < |sent| ==> sent[i].msg == msg
      ensures wsClients == old(wsClients) - failing
    {
      ApplyUpdate(Entries(body));
      var p := StatePayload(now);
      msg := StateMessage(p);
      var dead;
      sent, dead := AttemptSends(wsClients, msg, failing);
      DiscardAll(dead);
    }

    /**
     * `ws_state` for one connection: register the client, send it one payload,
     * answer each ping with "pong" until the first `ERROR`, and deregister it.
     * `failing` holds the positions, among this handler's sends, of those that
     * raise. A raising send ends the handler at once: there is no `finally`, so
     * the client then stays registered (`raised`).
     */
    method HandleConnection(ws: ClientId, msgs: seq<WsMessage>, now: real, failing: set<nat>)
      returns (delivered: seq<Message>, raised: bool)
      modifies this, state
      ensures state.Value() == Payload(old(state.Value()), now)
      ensures var out := Outgoing(state.Value(), msgs);
              var k := FirstFailure(failing, |out|);
              delivered == out[..k] && raised == (k < |out|)
      ensures raised ==> wsClients == old(wsClients) + {ws}
      ensures !raised ==> wsClients == old(wsClients) - {ws}
    {
      Register(ws);
      var p := StatePayload(now);
      delivered, raised := Converse(p, msgs, failing);
      if !raised {
        Discard(ws);
      }
    }
  }

  /**
   * The sends of one connection: the welcome payload, then one "pong" per ping
   * until the first `ERROR`. `failing` holds the positions of the sends that
   * raise; the first of them ends the conversation.
   */
  method Converse(welcome: Transport, msgs: seq<WsMessage>, failing: set<nat>)
    returns (delivered: seq<Message>, raised: bool)
    ensures var out := Outgoing(welcome, msgs);
            var k := FirstFailure(failing, |out|);
            delivered == out[..k] && raised == (k < |out|)
  {
    if 0 in failing {
      FirstFailureIs(failing, |Outgoing(welcome, msgs)|, 0);
      return [], true;
    }
    delivered, raised := [StateMessage(welcome)], false;
    var i := 0;
    while i < |msgs| && !msgs[i].WsError?
      invariant 0 <= i <= FirstError(msgs)
      invariant delivered == [StateMessage(welcome)] + Pongs(msgs[..i])
      invariant forall j :: 0 <= j < |delivered| ==> j !in failing
    {
      PongsStep(msgs, i);
      if IsPingMessage(msgs[i]) {
        if |delivered| in failing {
          FailsOnReply(welcome, msgs, failing, i);
          return delivered, true;
        }
        delivered := delivered + [Pong];
      }
      i := i + 1;
    }
    NoFailure(welcome, msgs, failing);
  }


  /** `build_app` without the web plumbing: the derived record and an empty registry. */
  method BuildApp(doc: ProjectDoc) returns (app: AppState)
    ensures fresh(app) && fresh(app.state)
    ensures app.project == doc && app.wsClients == {}
    ensures app.state.Value() == InitialTransport(doc)
  {
    var t := InitialTransport(doc);
    var state := new TransportState(t.bpm, t.tsNum, t.tsDen);
    app := new AppState(doc, state);
  }
}
