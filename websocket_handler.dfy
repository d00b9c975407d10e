/**
 * `WebSocketHandler`: receives frames from the real-time bus, normalises each into a message
 * payload carrying suggested actions, and hands it to the bot handler; it also sends the
 * user's messages back over the socket. The socket is an oracle: what `connect`, the receive
 * stream and `send` do is given to the model as data.
 */
module Relay {
  import opened Json
  import opened Schema
  import Formatting
  import Handling

  /** The handler's own copy of `DEFAULT_ACTIONS`. */
  const DefaultActions: Json := JArray([
    JObject([("title", JString("What activities can I do in Singapore?")), ("value", JString("What activities can I do in Singapore?"))]),
    JObject([("title", JString("Tell me more about Singapore's culture")), ("value", JString("Tell me more about Singapore's culture"))]),
    JObject([("title", JString("What's the best time to visit Singapore?")), ("value", JString("What's the best time to visit Singapore?"))]),
    JObject([("title", JString("Recommend some local food in Singapore")), ("value", JString("Recommend some local food in Singapore"))])
  ])

  /** The two copies of the default actions agree. */
  lemma SameDefaultActions()
    ensures DefaultActions == Formatting.DefaultActions
  {
  }

  const SuggestedActionsKey: string := "suggested_actions"

  /** The agent named in the wrapper of a frame that is not JSON. */
  const WrapperAgent: string := "AutoGen Agent"

  /** `{"message": raw, "agent": "AutoGen Agent", "suggested_actions": DEFAULT_ACTIONS}`. */
  function Wrapped(raw: string): Json
  {
    JObject([("message", JString(raw)), ("agent", JString(WrapperAgent)), (SuggestedActionsKey, DefaultActions)])
  }

  /**
   * `'suggested_actions' in v` where it is defined: a key of a dict, a substring of a string,
   * an element of a list.
   */
  predicate Carries(v: Json)
  {
    match v
    case JObject(fs) => HasKey(fs, SuggestedActionsKey)
    case JString(s) => Contains(s, SuggestedActionsKey)
    case JArray(xs) => JString(SuggestedActionsKey) in xs
    case _ => false
  }

  /**
   * `format_message_with_actions` on the frame `raw`, whose parse is `parsed`; the result is
   * the value `json.dumps` serialises. A dict without suggested actions gets the defaults
   * appended; a value that already carries them passes through; a frame that is not JSON is
   * wrapped. Any other value raises TypeError: `in` on a number, bool or null, or item
   * assignment on a string or list. A JSONDecodeError never escapes; any other exception
   * `json.loads` raises does.
   */
  function Normalize(raw: string, parsed: ParseResult): (r: Outcome<Json>)
    ensures parsed.DecodeError? ==> r == Ok(Wrapped(raw))
    ensures parsed.Failed? ==> r == Raised(parsed.error)
    ensures r.Raised? <==> parsed.Failed? || (parsed.Parsed? && !parsed.value.JObject? && !Carries(parsed.value))
    ensures parsed.Parsed? && r.Raised? ==> r.error == TypeError
    ensures r.Raised? ==> r.error != JsonDecodeError
    ensures parsed.Parsed? && Carries(parsed.value) ==> r == Ok(parsed.value)
  {
    match parsed
    case DecodeError => Ok(Wrapped(raw))
    case Failed(e) => Raised(e)
    case Parsed(v) =>
      match v
      case JObject(fs) =>
        if HasKey(fs, SuggestedActionsKey) then Ok(v) else Ok(JObject(fs + [(SuggestedActionsKey, DefaultActions)]))
      case JString(s) => if Contains(s, SuggestedActionsKey) then Ok(v) else Raised(TypeError)
      case JArray(xs) => if JString(SuggestedActionsKey) in xs then Ok(v) else Raised(TypeError)
      case _ => Raised(TypeError)
  }

  /**
   * A dict without suggested actions comes out as the same dict with the defaults added last:
   * every other key keeps its value and its place.
   */
  lemma {:induction false} InjectsDefaults(raw: string, fs: Fields)
    requires !HasKey(fs, SuggestedActionsKey)
    ensures Normalize(raw, Parsed(JObject(fs))) == Ok(JObject(fs + [(SuggestedActionsKey, DefaultActions)]))
    ensures Keys(fs + [(SuggestedActionsKey, DefaultActions)]) == Keys(fs) + [SuggestedActionsKey]
    ensures Lookup(fs + [(SuggestedActionsKey, DefaultActions)], SuggestedActionsKey) == Some(DefaultActions)
    ensures forall q :: q != SuggestedActionsKey ==> Lookup(fs + [(SuggestedActionsKey, DefaultActions)], q) == Lookup(fs, q)
  {
    var out := fs + [(SuggestedActionsKey, DefaultActions)];
    forall q
      ensures Lookup(out, q) == if q == SuggestedActionsKey then Some(DefaultActions) else Lookup(fs, q)
    {
      LookupAppend(fs, SuggestedActionsKey, DefaultActions, q);
    }
    assert Lookup(out, SuggestedActionsKey) == Some(DefaultActions);
  }

  /** The wrapper's keys and what each holds. */
  lemma WrappedLookup(raw: string, q: string)
    ensures Lookup(Wrapped(raw).fields, q) ==
      if q == "message" then Some(JString(raw))
      else if q == "agent" then Some(JString(WrapperAgent))
      else if q == SuggestedActionsKey then Some(DefaultActions)
      else None
  {
    var fs := Wrapped(raw).fields;
    if q != "message" {
      assert Lookup(fs, q) == Lookup(fs[1..], q);
      if q != "agent" {
        assert Lookup(fs[1..], q) == Lookup(fs[2..], q) by {
          assert fs[1..][1..] == fs[2..];
        }
        if q != SuggestedActionsKey {
          assert Lookup(fs[2..], q) == Lookup(fs[3..], q) by {
            assert fs[2..][1..] == fs[3..];
          }
          assert fs[3..] == [];
        }
      }
    }
  }

  /** A frame that is not JSON is wrapped with its raw text as the message. */
  lemma WrapsNonJson(raw: string)
    ensures Normalize(raw, DecodeError).Ok?
    ensures var fs := Normalize(raw, DecodeError).value.fields;
      Lookup(fs, "message") == Some(JString(raw)) &&
      Lookup(fs, "agent") == Some(JString(WrapperAgent)) &&
      Lookup(fs, SuggestedActionsKey) == Some(DefaultActions) &&
      Keys(fs) == ["message", "agent", SuggestedActionsKey]
  {
    var fs := Normalize(raw, DecodeError).value.fields;
    WrappedLookup(raw, "message");
    WrappedLookup(raw, "agent");
    WrappedLookup(raw, SuggestedActionsKey);
    assert Keys(fs) == [fs[0].0, fs[1].0, fs[2].0];
  }

  /** Whatever normalisation returns carries suggested actions. */
  lemma {:induction false} NormalizedCarries(raw: string, parsed: ParseResult)
    requires Normalize(raw, parsed).Ok?
    ensures Carries(Normalize(raw, parsed).value)
  {
    match parsed
    case DecodeError =>
      WrapsNonJson(raw);
    case Failed(_) =>
    case Parsed(v) =>
      if v.JObject? && !HasKey(v.fields, SuggestedActionsKey) {
        InjectsDefaults(raw, v.fields);
      }
  }

  /** Normalising the serialised result again changes nothing. */
  lemma Idempotent(raw: string, parsed: ParseResult, raw2: string)
    requires Normalize(raw, parsed).Ok?
    ensures Normalize(raw2, Parsed(Normalize(raw, parsed).value)) == Normalize(raw, parsed)
  {
    NormalizedCarries(raw, parsed);
  }

  /** `default_conversation_reference`, the emulator conversation the relay writes into. */
  const DefaultConversationReference: ConversationReference := ConversationReference(
    "emulator",
    "http://localhost:50428",
    ConversationAccount("websocket-conversation", "WebSocket Conversation", "personal"),
    ChannelAccount("websocket-user", "WebSocket User", Some("user")),
    ChannelAccount("websocket-bot", "WebSocket Bot", Some("bot")),
    "websocket-activity",
    "en-US")

  /** Seconds slept before the next attempt, after every failure. */
  const ReconnectDelay: nat := 5

  /** A connection the oracle handed out. */
  type ConnId = nat

  /** How an `async for` over the connection ended when no frame failed. */
  datatype StreamEnd = EndOfStream | ConnectionClosed | ReceiveFailed

  /**
   * One frame received: its text, what `json.loads` makes of it, and what
   * `continue_conversation` raises when the frame's reply is delivered.
   */
  datatype Frame = Frame(raw: string, parsed: ParseResult, adapterError: Option<PyError>)

  /**
   * One pass of the receive loop as the oracle plays it: the connection `connect` yields (None
   * when it fails; only consulted when there is no connection), the frames received, how the
   * stream ends, and whether `cleanup` runs while the pass is under way.
   */
  datatype Attempt = Attempt(connect: Option<ConnId>, frames: seq<Frame>, end: StreamEnd, cleanupDuring: bool)

  /** What `connection.send` does with one message. */
  datatype SendOutcome = SendOk | SendClosed | SendFailed

  /** The part of the handler's state the receive loop changes. */
  datatype RelayState = RelayState(
    connection: Option<ConnId>,
    shouldReconnect: bool,
    pauses: seq<nat>,
    outbox: seq<Handling.Delivery>)

  /** One frame through `format_message_with_actions` and `process_websocket_message`. */
  function FrameOutcome(reference: Option<ConversationReference>, f: Frame): (h: Handling.Handled)
    ensures Normalize(f.raw, f.parsed).Raised? ==> h == Handling.Handled([], Some(Normalize(f.raw, f.parsed).error))
    ensures Normalize(f.raw, f.parsed).Ok? ==> h == Handling.HandleMessage(reference, Normalize(f.raw, f.parsed).value, f.adapterError)
  {
    match Normalize(f.raw, f.parsed)
    case Raised(e) => Handling.Handled([], Some(e))
    case Ok(v) => Handling.HandleMessage(reference, v, f.adapterError)
  }

  /**
   * The frames of one connection, handled in order until the first one raises; the error is
   * that frame's exception.
   */
  function ConsumeFrames(reference: Option<ConversationReference>, frames: seq<Frame>): (h: Handling.Handled)
    decreases |frames|
  {
    if frames == [] then Handling.Handled([], None)
    else
      var prev := ConsumeFrames(reference, frames[..|frames| - 1]);
      if prev.error.Some? then prev
      else
        var last := FrameOutcome(reference, frames[|frames| - 1]);
        Handling.Handled(prev.delivered + last.delivered, last.error)
  }

  /** Handling one more frame after a prefix that raised nothing. */
  lemma ConsumeStep(reference: Option<ConversationReference>, frames: seq<Frame>, k: nat)
    requires k < |frames| && ConsumeFrames(reference, frames[..k]).error.None?
    ensures ConsumeFrames(reference, frames[..k + 1]) == Handling.Handled(
      ConsumeFrames(reference, frames[..k]).delivered + FrameOutcome(reference, frames[k]).delivered,
      FrameOutcome(reference, frames[k]).error)
  {
    assert frames[..k + 1][..k] == frames[..k];
  }

  /** The loop of the receiving method, one frame further: the outbox and the flag stay in step with the specification. */
  lemma ReceiveStep(reference: Option<ConversationReference>, frames: seq<Frame>, k: nat,
                 before: seq<Handling.Delivery>, mid: seq<Handling.Delivery>, after: seq<Handling.Delivery>, failed: bool)
    requires k < |frames| && ConsumeFrames(reference, frames[..k]).error.None?
    requires mid == before + ConsumeFrames(reference, frames[..k]).delivered
    requires after == mid + FrameOutcome(reference, frames[k]).delivered
    requires failed <==> FrameOutcome(reference, frames[k]).error.Some?
    ensures after == before + ConsumeFrames(reference, frames[..k + 1]).delivered
    ensures failed <==> ConsumeFrames(reference, frames[..k + 1]).error.Some?
  {
    ConsumeStep(reference, frames, k);
    var x := ConsumeFrames(reference, frames[..k]).delivered;
    var y := FrameOutcome(reference, frames[k]).delivered;
    assert (before + x) + y == before + (x + y);
  }

  /** Once a frame has raised, later frames are never looked at. */
  lemma {:induction false} ConsumeStopsAtFailure(reference: Option<ConversationReference>, frames: seq<Frame>, k: nat)
    requires k <= |frames|
    requires ConsumeFrames(reference, frames[..k]).error.Some?
    ensures ConsumeFrames(reference, frames) == ConsumeFrames(reference, frames[..k])
    decreases |frames| - k
  {
    if k < |frames| {
      assert frames[..k + 1][..k] == frames[..k];
      ConsumeStopsAtFailure(reference, frames, k + 1);
    } else {
      assert frames[..k] == frames;
    }
  }

  /** Every delivery goes to the stored reference, and without one nothing is delivered. */
  lemma {:induction false} ConsumeDeliversToReference(reference: Option<ConversationReference>, frames: seq<Frame>)
    ensures reference.None? ==> ConsumeFrames(reference, frames).delivered == []
    ensures forall d :: d in ConsumeFrames(reference, frames).delivered ==> Some(d.reference) == reference
    decreases |frames|
  {
    if frames != [] {
      ConsumeDeliversToReference(reference, frames[..|frames| - 1]);
    }
  }

  /**
   * One pass of `receive_messages` with `should_reconnect` true. A failed connect sleeps and
   * tries again later. Any exception while receiving or handling a frame, and a closed
   * connection, drop the connection and sleep; a stream that simply ends keeps it.
   */
  function Iteration(reference: Option<ConversationReference>, s: RelayState, a: Attempt): (t: RelayState)
    ensures t.shouldReconnect == (s.shouldReconnect && !a.cleanupDuring)
    ensures s.connection.None? && a.connect.None? ==> t.connection.None? && t.outbox == s.outbox
    ensures t.pauses == s.pauses + [ReconnectDelay] || t.pauses == s.pauses
    ensures t.pauses == s.pauses + [ReconnectDelay] <==> t.connection.None?
    ensures a.end != EndOfStream ==> t.connection.None?
    ensures ConsumeFrames(reference, a.frames).error.Some? ==> t.connection.None?
    ensures t.connection.Some? ==> t.connection == (if s.connection.Some? then s.connection else a.connect)
    ensures s.outbox <= t.outbox
    ensures (s.connection.Some? || a.connect.Some?) ==> t.outbox == s.outbox + ConsumeFrames(reference, a.frames).delivered
    ensures (s.connection.Some? || a.connect.Some?) && ConsumeFrames(reference, a.frames).error.None? && a.end == EndOfStream ==>
      t.connection == (if s.connection.Some? then s.connection else a.connect) && t.pauses == s.pauses
  {
    var keepGoing := s.shouldReconnect && !a.cleanupDuring;
    if s.connection.None? && a.connect.None? then
      RelayState(None, keepGoing, s.pauses + [ReconnectDelay], s.outbox)
    else
      var conn := if s.connection.Some? then s.connection else a.connect;
      var h := ConsumeFrames(reference, a.frames);
      if h.error.Some? || a.end != EndOfStream then
        RelayState(None, keepGoing, s.pauses + [ReconnectDelay], s.outbox + h.delivered)
      else
        RelayState(conn, keepGoing, s.pauses, s.outbox + h.delivered)
  }

  /** `while self.should_reconnect:` over the passes the oracle plays. */
  function RunLoop(reference: Option<ConversationReference>, s: RelayState, script: seq<Attempt>): RelayState
    decreases |script|
  {
    if !s.shouldReconnect || script == [] then s
    else RunLoop(reference, Iteration(reference, s, script[0]), script[1..])
  }

  /**
   * The loop only adds to what was delivered and slept; every sleep is the fixed delay and
   * every delivery is made on the stored reference.
   */
  lemma {:induction false} RunLoopAppends(reference: Option<ConversationReference>, s: RelayState, script: seq<Attempt>)
    ensures s.outbox <= RunLoop(reference, s, script).outbox
    ensures s.pauses <= RunLoop(reference, s, script).pauses
    ensures forall i :: |s.pauses| <= i < |RunLoop(reference, s, script).pauses| ==>
      RunLoop(reference, s, script).pauses[i] == ReconnectDelay
    ensures forall i :: |s.outbox| <= i < |RunLoop(reference, s, script).outbox| ==>
      Some(RunLoop(reference, s, script).outbox[i].reference) == reference
    decreases |script|
  {
    if s.shouldReconnect && script != [] {
      var t := Iteration(reference, s, script[0]);
      ConsumeDeliversToReference(reference, script[0].frames);
      RunLoopAppends(reference, t, script[1..]);
      var r := RunLoop(reference, s, script);
      assert r == RunLoop(reference, t, script[1..]);
      forall i | |s.outbox| <= i < |r.outbox|
        ensures Some(r.outbox[i].reference) == reference
      {
        if i < |t.outbox| {
          assert t.outbox[i] in ConsumeFrames(reference, script[0].frames).delivered;
        }
      }
    }
  }

  /** The loop keeps going exactly as long as no pass saw `cleanup`. */
  lemma {:induction false} KeepsReconnectingUntilCleanup(reference: Option<ConversationReference>, s: RelayState, script: seq<Attempt>)
    ensures RunLoop(reference, s, script).shouldReconnect <==>
      s.shouldReconnect && forall i :: 0 <= i < |script| ==> !script[i].cleanupDuring
    decreases |script|
  {
    if s.shouldReconnect && script != [] {
      KeepsReconnectingUntilCleanup(reference, Iteration(reference, s, script[0]), script[1..]);
      if !script[0].cleanupDuring {
        assert forall i :: 1 <= i < |script| ==> script[i] == script[1..][i - 1];
      }
    }
  }

  /** After the pass during which `cleanup` ran, no further pass starts. */
  lemma {:induction false} NoPassAfterCleanup(reference: Option<ConversationReference>, s: RelayState, script: seq<Attempt>, i: nat)
    requires i < |script| && script[i].cleanupDuring
    ensures RunLoop(reference, s, script) == RunLoop(reference, s, script[..i + 1])
    ensures !RunLoop(reference, s, script).shouldReconnect
    decreases i
  {
    if s.shouldReconnect {
      var t := Iteration(reference, s, script[0]);
      assert script[..i + 1][0] == script[0];
      if i == 0 {
        assert !t.shouldReconnect;
      } else {
        assert script[..i + 1][1..] == script[1..][..i];
        NoPassAfterCleanup(reference, t, script[1..], i - 1);
      }
    }
  }

  /** The state of `connection.send(message)`: the connection kept and the sent log. */
  function SendEffect(connection: Option<ConnId>, sent: seq<(ConnId, Json)>, message: Json, outcome: SendOutcome): (r: (Option<ConnId>, seq<(ConnId, Json)>))
    ensures connection.None? ==> r == (None, sent)
    ensures connection.Some? && outcome == SendOk ==> r == (connection, sent + [(connection.value, message)])
    ensures connection.Some? && outcome != SendOk ==> r == (None, sent)
    ensures r.0.Some? ==> r.0 == connection
  {
    match connection
    case None => (None, sent)
    case Some(c) => if outcome == SendOk then (connection, sent + [(c, message)]) else (None, sent)
  }

  class WebSocketHandler {
    const botHandler: Handling.BotHandler
    const defaultConversationReference: ConversationReference
    var connection: Option<ConnId>
    var shouldReconnect: bool
    /** The sleeps taken, in seconds. */
    var pauses: seq<nat>
    /** The messages sent, with the connection each went out on. */
    var sent: seq<(ConnId, Json)>
    /** The connections `cleanup` closed. */
    var closed: seq<ConnId>

    /** The constructor also stores the default reference on the bot handler. */
    constructor(botHandler: Handling.BotHandler)
      modifies botHandler
      ensures this.botHandler == botHandler
      ensures defaultConversationReference == DefaultConversationReference
      ensures connection.None? && shouldReconnect && pauses == [] && sent == [] && closed == []
      ensures botHandler.lastConversationReference == Some(DefaultConversationReference)
      ensures botHandler.outbox == old(botHandler.outbox)
    {
      this.botHandler := botHandler;
      defaultConversationReference := DefaultConversationReference;
      connection := None;
      shouldReconnect := true;
      pauses := [];
      sent := [];
      closed := [];
      new;
      botHandler.lastConversationReference := Some(defaultConversationReference);
    }

    function State(): RelayState
      reads this, botHandler
    {
      RelayState(connection, shouldReconnect, pauses, botHandler.outbox)
    }

    /** `connect`: `outcome` is the connection the service hands out, None when it fails. */
    method Connect(outcome: Option<ConnId>) returns (ok: bool)
      modifies this`connection
      ensures ok <==> outcome.Some?
      ensures connection == if ok then outcome else old(connection)
    {
      if outcome.None? {
        return false;
      }
      connection := outcome;
      return true;
    }

    /** `send_message`: without a connection nothing happens; a failed send drops the connection. */
    method SendMessage(message: Json, outcome: SendOutcome)
      modifies this`connection, this`sent
      ensures (connection, sent) == SendEffect(old(connection), old(sent), message, outcome)
    {
      if connection.None? {
        return;
      }
      match outcome {
        case SendOk => sent := sent + [(connection.value, message)];
        case SendClosed => connection := None;
        case SendFailed => connection := None;
      }
    }

    /** `cleanup`: stop reconnecting and close the connection, which stays recorded. */
    method Cleanup()
      modifies this`shouldReconnect, this`closed
      ensures !shouldReconnect
      ensures closed == old(closed) + if connection.Some? then [connection.value] else []
    {
      shouldReconnect := false;
      if connection.Some? {
        closed := closed + [connection.value];
      }
    }

    /** The `async for` over one connection's frames; returns whether a frame raised. */
    method ReceiveFrames(frames: seq<Frame>) returns (failed: bool)
      modifies botHandler`outbox
      ensures botHandler.outbox == old(botHandler.outbox) + ConsumeFrames(botHandler.lastConversationReference, frames).delivered
      ensures failed <==> ConsumeFrames(botHandler.lastConversationReference, frames).error.Some?
    {
      ghost var reference := botHandler.lastConversationReference;
      ghost var before := botHandler.outbox;
      failed := false;
      var k := 0;
      while k < |frames| && !failed
        invariant 0 <= k <= |frames|
        invariant botHandler.lastConversationReference == reference
        invariant botHandler.outbox == before + ConsumeFrames(reference, frames[..k]).delivered
        invariant failed <==> ConsumeFrames(reference, frames[..k]).error.Some?
      {
        ghost var mid := botHandler.outbox;
        failed := HandleFrame(frames[k]);
        ReceiveStep(reference, frames, k, before, mid, botHandler.outbox, failed);
        k := k + 1;
      }
      if failed {
        ConsumeStopsAtFailure(reference, frames, k);
      } else {
        assert frames[..k] == frames;
      }
    }

    /** One frame: normalised, then handed to the bot handler; returns whether it raised. */
    method HandleFrame(frame: Frame) returns (failed: bool)
      modifies botHandler`outbox
      ensures botHandler.outbox == old(botHandler.outbox) + FrameOutcome(botHandler.lastConversationReference, frame).delivered
      ensures failed <==> FrameOutcome(botHandler.lastConversationReference, frame).error.Some?
    {
      var normalized := Normalize(frame.raw, frame.parsed);
      if normalized.Raised? {
        failed := true;
      } else {
        var error := botHandler.ProcessWebsocketMessage(normalized.value, frame.adapterError);
        failed := error.Some?;
      }
    }

    /** One pass of the receive loop. */
    method Pass(attempt: Attempt)
      modifies this`connection, this`shouldReconnect, this`pauses, botHandler`outbox
      ensures State() == Iteration(botHandler.lastConversationReference, old(State()), attempt)
    {
      if connection.None? {
        var ok := Connect(attempt.connect);
        if !ok {
          pauses := pauses + [ReconnectDelay];
          shouldReconnect := shouldReconnect && !attempt.cleanupDuring;
          return;
        }
      }
      var failed := ReceiveFrames(attempt.frames);
      if failed || attempt.end != EndOfStream {
        connection := None;
        pauses := pauses + [ReconnectDelay];
      }
      shouldReconnect := shouldReconnect && !attempt.cleanupDuring;
    }

    /** `receive_messages`, run against the passes in `script`. */
    method ReceiveMessages(script: seq<Attempt>)
      modifies this`connection, this`shouldReconnect, this`pauses, botHandler`outbox
      ensures State() == RunLoop(botHandler.lastConversationReference, old(State()), script)
      ensures botHandler.lastConversationReference == old(botHandler.lastConversationReference)
    {
      var n := 0;
      while shouldReconnect && n < |script|
        invariant 0 <= n <= |script|
        invariant botHandler.lastConversationReference == old(botHandler.lastConversationReference)
        invariant RunLoop(botHandler.lastConversationReference, State(), script[n..]) ==
          RunLoop(botHandler.lastConversationReference, old(State()), script)
      {
        assert script[n..][1..] == script[n + 1..];
        Pass(script[n]);
        n := n + 1;
      }
    }
  }

  /**
   * A plain-text frame reaching a stored conversation becomes one reply: a card whose text is
   * the frame, titled and valued with the four default prompts, sent by `agent-autogen-agent`.
   */
  lemma PlainTextFrame(raw: string, reference: ConversationReference)
    ensures FrameOutcome(Some(reference), Frame(raw, DecodeError, None)) == Handling.Handled(
      [Handling.Delivery(reference, Handling.Reply(JString(raw), DefaultActions, JString(WrapperAgent)))], None)
    ensures Handling.Reply(JString(raw), DefaultActions, JString(WrapperAgent)).Ok?
    ensures var reply := Handling.Reply(JString(raw), DefaultActions, JString(WrapperAgent)).value;
      reply.attachments == [Attachment(Handling.CardContentType,
        AdaptiveCard("1.4", [TextBlock(JString(raw), true, "Medium")], Handling.CardActions(DefaultActions).value))] &&
      reply.sender == Some(ChannelAccount("agent-autogen-agent", WrapperAgent, None))
  {
    var data := Wrapped(raw);
    WrapsNonJson(raw);
    WrappedLookup(raw, "agent_type");
    SameDefaultActions();
    Formatting.SelectWithoutAgentType(data.fields);
    assert Formatting.FormattedText(data) == Ok(JString(raw));
    assert Formatting.FormatMessage(data) == (JString(raw), DefaultActions);
    Handling.DefaultActionsCard();
    Handling.DefaultSenderId(WrapperAgent);
  }
}
