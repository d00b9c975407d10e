/**
 * `MyBot`: forwards what the user types (or submits on a card) to the bus, and greets each
 * member added to the conversation with a welcome and the suggested actions.
 */
module Bot {
  import opened Json
  import opened Schema
  import Suggestions
  import Relay

  const WelcomeText: string := "Hello! \U{1F44B} I'm your travel assistant. Here are some things I can help you with:"

  /** The welcome activity: a message with the fixed greeting. */
  const Welcome: Activity := Activity(MessageActivity, Some(WelcomeText), [], None, None)

  /** `text if text else value`: the text when it is a non-empty string, else the card value. */
  function SelectMessage(text: Option<string>, value: Json): (m: Json)
    ensures text.Some? && text.value != "" ==> m == JString(text.value)
    ensures text.None? || text.value == "" ==> m == value
  {
    if text.Some? && text.value != "" then JString(text.value) else value
  }

  /** The members greeted, in order: those whose id is not the bot's own. */
  function Greeted(members: seq<ChannelAccount>, recipientId: string): (g: seq<ChannelAccount>)
    ensures forall m :: m in g <==> m in members && m.id != recipientId
    ensures |g| <= |members|
    decreases |members|
  {
    if members == [] then []
    else
      var rest := Greeted(members[..|members| - 1], recipientId);
      var last := members[|members| - 1];
      assert members == members[..|members| - 1] + [last];
      if last.id != recipientId then rest + [last] else rest
  }

  /**
   * Each member other than the bot is greeted as often as it was added, and the bot never:
   * so the number greeted is the number of added members whose id is not the recipient's.
   */
  lemma {:induction false} GreetedMultiplicity(members: seq<ChannelAccount>, recipientId: string)
    ensures forall m :: (multiset(Greeted(members, recipientId))[m] ==
                         if m.id != recipientId then multiset(members)[m] else 0)
    decreases |members|
  {
    if members != [] {
      var p := members[..|members| - 1];
      var last := members[|members| - 1];
      assert members == p + [last];
      GreetedMultiplicity(p, recipientId);
    }
  }

  /** The activities `on_members_added_activity` sends: a welcome and the suggestions, per greeted member. */
  function Greetings(members: seq<ChannelAccount>, recipientId: string): seq<Activity>
    decreases |members|
  {
    if members == [] then []
    else
      var rest := Greetings(members[..|members| - 1], recipientId);
      if members[|members| - 1].id != recipientId then rest + [Welcome, Suggestions.GetSuggestedActions()] else rest
  }

  /**
   * Two activities per greeted member: the welcome at every even position, the suggested
   * actions right after it.
   */
  lemma {:induction false} GreetingsShape(members: seq<ChannelAccount>, recipientId: string)
    ensures |Greetings(members, recipientId)| == 2 * |Greeted(members, recipientId)|
    ensures forall k :: 0 <= k < |Greeted(members, recipientId)| ==>
      Greetings(members, recipientId)[2 * k] == Welcome &&
      Greetings(members, recipientId)[2 * k + 1] == Suggestions.GetSuggestedActions()
    decreases |members|
  {
    if members != [] {
      GreetingsShape(members[..|members| - 1], recipientId);
    }
  }

  /** The activities sent for the first members lead those sent for all of them. */
  lemma {:induction false} GreetingsPrefix(members: seq<ChannelAccount>, i: nat, recipientId: string)
    requires i <= |members|
    ensures Greetings(members[..i], recipientId) <= Greetings(members, recipientId)
    decreases |members|
  {
    if i < |members| {
      var p := members[..|members| - 1];
      assert members[..i] == p[..i];
      GreetingsPrefix(p, i, recipientId);
    } else {
      assert members[..i] == members;
    }
  }

  /** Nobody is greeted when every added member is the bot itself. */
  lemma {:induction false} OnlyBotAdded(members: seq<ChannelAccount>, recipientId: string)
    requires forall i :: 0 <= i < |members| ==> members[i].id == recipientId
    ensures Greetings(members, recipientId) == []
    decreases |members|
  {
    if members != [] {
      OnlyBotAdded(members[..|members| - 1], recipientId);
    }
  }

  class MyBot {
    /** Whether `set_ws_handler` has run, so that `self.ws_handler` exists. */
    var wsHandlerSet: bool
    var wsHandler: Relay.WebSocketHandler?

    constructor()
      ensures !wsHandlerSet && wsHandler == null
    {
      wsHandlerSet := false;
      wsHandler := null;
    }

    method SetWsHandler(handler: Relay.WebSocketHandler?)
      modifies this
      ensures wsHandlerSet && wsHandler == handler
    {
      wsHandlerSet := true;
      wsHandler := handler;
    }

    /**
     * `on_message_activity`: forwards the selected message over the handler's connection.
     * Reading `self.ws_handler` before `set_ws_handler` raises AttributeError.
     */
    method OnMessageActivity(text: Option<string>, value: Json, outcome: Relay.SendOutcome) returns (error: Option<PyError>)
      modifies wsHandler
      ensures !wsHandlerSet ==> error == Some(AttributeError)
      ensures wsHandler != null ==>
        (wsHandler.shouldReconnect == old(wsHandler.shouldReconnect) &&
         wsHandler.pauses == old(wsHandler.pauses) && wsHandler.closed == old(wsHandler.closed))
      ensures wsHandlerSet ==> error.None?
      ensures !wsHandlerSet && wsHandler != null ==> unchanged(wsHandler)
      ensures wsHandlerSet && wsHandler != null ==>
        (wsHandler.connection, wsHandler.sent) ==
          Relay.SendEffect(old(wsHandler.connection), old(wsHandler.sent), SelectMessage(text, value), outcome)
    {
      if !wsHandlerSet {
        return Some(AttributeError);
      }
      var message := SelectMessage(text, value);
      if wsHandler != null {
        wsHandler.SendMessage(message, outcome);
      }
      return None;
    }

    /**
     * `on_members_added_activity`: the activities sent, in order. `sendError` is the position
     * among the `send_activity` calls of the first one that raises, and what it raises; that
     * exception ends the loop and propagates, so the activities sent are the ones before it.
     */
    method OnMembersAddedActivity(membersAdded: seq<ChannelAccount>, recipientId: string, sendError: Option<(nat, PyError)>)
      returns (sent: seq<Activity>, error: Option<PyError>)
      ensures var all := Greetings(membersAdded, recipientId);
        if sendError.Some? && sendError.value.0 < |all|
        then sent == all[..sendError.value.0] && error == Some(sendError.value.1)
        else sent == all && error.None?
    {
      sent := [];
      var i := 0;
      while i < |membersAdded|
        invariant 0 <= i <= |membersAdded|
        invariant sent == Greetings(membersAdded[..i], recipientId)
        invariant sendError.Some? ==> |sent| <= sendError.value.0
      {
        var member := membersAdded[i];
        assert membersAdded[..i + 1][..i] == membersAdded[..i];
        if member.id != recipientId {
          GreetingsPrefix(membersAdded, i + 1, recipientId);
          if sendError.Some? && sendError.value.0 == |sent| {
            return sent, Some(sendError.value.1);
          }
          sent := sent + [Welcome];
          if sendError.Some? && sendError.value.0 == |sent| {
            return sent, Some(sendError.value.1);
          }
          sent := sent + [Suggestions.GetSuggestedActions()];
        }
        i := i + 1;
      }
      assert membersAdded[..i] == membersAdded;
      error := None;
    }
  }
}
