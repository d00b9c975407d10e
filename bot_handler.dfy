/**
 * `BotHandler`: the HTTP entry point that stores the conversation reference of the latest
 * activity, and the relay of a bus message into that conversation as an adaptive card sent
 * by a synthesised agent account.
 */
module Handling {
  import opened Json
  import opened Schema
  import Formatting

  /** `SuggestedActions.actions` built by `create_suggested_actions`. */
  function CreateSuggestedActions(actionsData: seq<Fields>): (r: seq<CardAction>)
    ensures |r| == |actionsData|
    ensures forall i :: 0 <= i < |r| ==> r[i].actionType == ImBack
    ensures forall i :: 0 <= i < |r| ==>
      (if HasKey(actionsData[i], "title") then Some(r[i].title) == Lookup(actionsData[i], "title")
       else r[i].title == JString(""))
    ensures forall i :: 0 <= i < |r| ==>
      (if HasKey(actionsData[i], "value") then Some(r[i].value) == Lookup(actionsData[i], "value")
       else if HasKey(actionsData[i], "title") then Some(r[i].value) == Lookup(actionsData[i], "title")
       else r[i].value == JString(""))
  {
    seq(|actionsData|, i requires 0 <= i < |actionsData| =>
      CardAction(
        GetOr(actionsData[i], "title", JString("")),
        ImBack,
        GetOr(actionsData[i], "value", GetOr(actionsData[i], "title", JString("")))))
  }

  /** `v[k]` with a string key: a dict without `k` raises KeyError, anything else TypeError. */
  function Subscript(v: Json, k: string): (r: Outcome<Json>)
    ensures r.Ok? <==> v.JObject? && HasKey(v.fields, k)
    ensures r.Ok? ==> Some(r.value) == Lookup(v.fields, k)
    ensures r.Raised? ==> r.error == (if v.JObject? then KeyError else TypeError)
  {
    match v
    case JObject(fs) => if HasKey(fs, k) then Ok(Lookup(fs, k).value) else Raised(KeyError)
    case _ => Raised(TypeError)
  }

  /** One `{"type": "Action.Submit", "title": action["title"], "data": action["value"]}`. */
  function SubmitOf(action: Json): Outcome<SubmitAction>
  {
    match Subscript(action, "title")
    case Raised(e) => Raised(e)
    case Ok(title) =>
      match Subscript(action, "value")
      case Raised(e) => Raised(e)
      case Ok(value) => Ok(SubmitAction(title, value))
  }

  /** An action is usable on the card when it is a dict with both `title` and `value`. */
  predicate Submittable(action: Json)
  {
    action.JObject? && HasKey(action.fields, "title") && HasKey(action.fields, "value")
  }

  /**
   * The card's action list, one per suggested action in order, or the first exception the
   * comprehension raises.
   */
  function SubmitActions(items: seq<Json>): (r: Outcome<seq<SubmitAction>>)
    ensures r.Ok? <==> forall i :: 0 <= i < |items| ==> Submittable(items[i])
    ensures r.Ok? ==> |r.value| == |items| && forall i :: 0 <= i < |items| ==>
      Some(r.value[i].title) == Lookup(items[i].fields, "title") &&
      Some(r.value[i].data) == Lookup(items[i].fields, "value")
  {
    if items == [] then Ok([])
    else
      match SubmitOf(items[0])
      case Raised(e) => Raised(e)
      case Ok(a) =>
        match SubmitActions(items[1..])
        case Raised(e) => Raised(e)
        case Ok(rest) => Ok([a] + rest)
  }

  /** `for action in suggested_actions` over the value `format_message` returned. */
  function CardActions(actions: Json): (r: Outcome<seq<SubmitAction>>)
    ensures actions.JArray? ==> r == SubmitActions(actions.items)
    ensures actions.JNull? || actions.JBool? || actions.JNumber? ==> r == Raised(TypeError)
  {
    match Iterate(actions)
    case Raised(e) => Raised(e)
    case Ok(items) => SubmitActions(items)
  }

  /** The agent name assumed when a message names none. */
  const DefaultAgentName: string := "AutoGen Agent"

  /** The sender id `agent-<name lower-cased, spaces turned into hyphens>`. */
  function SenderId(name: string): string
  {
    "agent-" + Replace(Lower(name), ' ', '-')
  }

  /**
   * The id is `agent-` followed by the name character by character, every space a hyphen and
   * every capital letter lower-cased; so it never contains a space.
   */
  lemma SenderIdShape(name: string)
    ensures |SenderId(name)| == 6 + |name|
    ensures SenderId(name)[..6] == "agent-"
    ensures forall i :: 0 <= i < |name| ==>
      SenderId(name)[6 + i] == if name[i] == ' ' then '-' else LowerChar(name[i])
    ensures ' ' !in SenderId(name)
  {
  }

  /** The default agent name gives the id `agent-autogen-agent`. */
  lemma DefaultSenderId(name: string)
    requires name == DefaultAgentName
    ensures SenderId(name) == "agent-autogen-agent"
  {
    LowerAgentName(name);
    HyphenateAgentName(Lower(name));
    PrefixAgent(Replace(Lower(name), ' ', '-'));
  }

  // The three steps of `DefaultSenderId`, one string operation each. They are separate lemmas
  // taking the literal as a parameter so that each proof sees only its own step, which keeps
  // the proof of `DefaultSenderId` cheap.

  lemma PrefixAgent(h: string)
    requires h == "autogen-agent"
    ensures "agent-" + h == "agent-autogen-agent"
  {
  }

  lemma LowerAgentName(n: string)
    requires n == "AutoGen Agent"
    ensures Lower(n) == "autogen agent"
  {
    var l := Lower(n);
    assert l[0] == 'a';
    assert l[1] == 'u';
    assert l[2] == 't';
    assert l[3] == 'o';
    assert l[4] == 'g';
    assert l[5] == 'e';
    assert l[6] == 'n';
    assert l[7] == ' ';
    assert l[8] == 'a';
    assert l[9] == 'g';
    assert l[10] == 'e';
    assert l[11] == 'n';
    assert l[12] == 't';
  }

  lemma HyphenateAgentName(l: string)
    requires l == "autogen agent"
    ensures Replace(l, ' ', '-') == "autogen-agent"
  {
    var h := Replace(l, ' ', '-');
    assert h[0] == 'a';
    assert h[1] == 'u';
    assert h[2] == 't';
    assert h[3] == 'o';
    assert h[4] == 'g';
    assert h[5] == 'e';
    assert h[6] == 'n';
    assert h[7] == '-';
    assert h[8] == 'a';
    assert h[9] == 'g';
    assert h[10] == 'e';
    assert h[11] == 'n';
    assert h[12] == 't';
  }

  const CardContentType: string := "application/vnd.microsoft.card.adaptive"

  /**
   * What the callback passed to `continue_conversation` sends: a message with one adaptive
   * card (version 1.4, one medium wrapped text block, the submit actions) from the agent's
   * account, or the exception it raises first.
   */
  function Reply(text: Json, actions: Json, agentName: Json): (r: Outcome<Activity>)
    ensures r.Ok? <==> CardActions(actions).Ok? && agentName.JString?
    ensures CardActions(actions).Raised? ==> r == Raised(CardActions(actions).error)
    ensures CardActions(actions).Ok? && !agentName.JString? ==> r == Raised(AttributeError)
    ensures r.Ok? ==>
      r.value.activityType == MessageActivity &&
      r.value.attachments == [Attachment(CardContentType,
        AdaptiveCard("1.4", [TextBlock(text, true, "Medium")], CardActions(actions).value))] &&
      r.value.sender == Some(ChannelAccount(SenderId(agentName.s), agentName.s, None)) &&
      r.value.suggestedActions.None? && r.value.text.None?
  {
    match CardActions(actions)
    case Raised(e) => Raised(e)
    case Ok(submits) =>
      if !agentName.JString? then Raised(AttributeError)
      else
        var card := AdaptiveCard("1.4", [TextBlock(text, true, "Medium")], submits);
        Ok(Activity(MessageActivity, None, [Attachment(CardContentType, card)],
          Some(ChannelAccount(SenderId(agentName.s), agentName.s, None)), None))
  }

  /** A callback run by the adapter on a stored conversation, with what it sends or raises. */
  datatype Delivery = Delivery(reference: ConversationReference, reply: Outcome<Activity>)

  /** What handling one bus message produced: the deliveries made and the exception re-raised. */
  datatype Handled = Handled(delivered: seq<Delivery>, error: Option<PyError>)

  /**
   * `process_websocket_message` on the parsed message `data`. Without a stored reference
   * nothing is delivered and nothing is raised. A message that is not a dict makes `.get`
   * raise before the adapter is called. Otherwise one callback runs on the stored reference,
   * and whatever the adapter raises (`adapterError`) is re-raised.
   */
  function HandleMessage(reference: Option<ConversationReference>, data: Json, adapterError: Option<PyError>): (h: Handled)
    ensures reference.None? ==> h == Handled([], None)
    ensures reference.Some? && !data.JObject? ==> h == Handled([], Some(AttributeError))
    ensures reference.Some? && data.JObject? ==>
      h.error == adapterError && |h.delivered| == 1 && h.delivered[0].reference == reference.value &&
      h.delivered[0].reply == Reply(Formatting.FormatMessage(data).0, Formatting.FormatMessage(data).1,
        GetOr(data.fields, "agent", JString(DefaultAgentName)))
  {
    if reference.None? then Handled([], None)
    else
      var formatted := Formatting.FormatMessage(data);
      if !data.JObject? then Handled([], Some(AttributeError))
      else
        var agentName := GetOr(data.fields, "agent", JString(DefaultAgentName));
        Handled([Delivery(reference.value, Reply(formatted.0, formatted.1, agentName))], adapterError)
  }

  /** An HTTP response: its status and, for `json_response`, its body. */
  datatype HttpResponse = HttpResponse(status: int, body: Option<Json>)

  /** What `bot_adapter.process` returns when it returns something. */
  datatype InvokeResponse = InvokeResponse(status: int, body: Json)

  class BotHandler {
    /** `last_conversation_reference`. */
    var lastConversationReference: Option<ConversationReference>
    /** Every callback the adapter has been asked to run, in order. */
    var outbox: seq<Delivery>

    constructor()
      ensures lastConversationReference.None? && outbox == []
    {
      lastConversationReference := None;
      outbox := [];
    }

    /**
     * `messages` (POST /api/messages). `contentType` is the `Content-Type` header, `body` what
     * `req.json()` makes of the body, `reference` the conversation reference of the activity
     * it holds, and `processed` what `bot_adapter.process` returns or raises.
     */
    method Messages(contentType: Option<string>, body: ParseResult, reference: ConversationReference,
                    processed: Outcome<Option<InvokeResponse>>)
      returns (r: Outcome<HttpResponse>)
      modifies this`lastConversationReference
      ensures contentType.None? ==> r == Raised(KeyError)
      ensures contentType.Some? && !Contains(contentType.value, "application/json") ==>
        r == Ok(HttpResponse(415, None))
      ensures contentType.Some? && Contains(contentType.value, "application/json") && body.DecodeError? ==>
        r == Raised(JsonDecodeError)
      ensures contentType.Some? && Contains(contentType.value, "application/json") && body.Failed? ==>
        r == Raised(body.error)
      ensures contentType.None? || !Contains(contentType.value, "application/json") || !body.Parsed? ==>
        lastConversationReference == old(lastConversationReference)
      ensures contentType.Some? && Contains(contentType.value, "application/json") && body.Parsed? ==>
        lastConversationReference == Some(reference) &&
        r == match processed
          case Raised(e) => Raised(e)
          case Ok(Some(resp)) => Ok(HttpResponse(resp.status, Some(resp.body)))
          case Ok(None) => Ok(HttpResponse(201, None))
    {
      if contentType.None? {
        return Raised(KeyError);
      }
      if !Contains(contentType.value, "application/json") {
        return Ok(HttpResponse(415, None));
      }
      if body.DecodeError? {
        return Raised(JsonDecodeError);
      }
      if body.Failed? {
        return Raised(body.error);
      }
      lastConversationReference := Some(reference);
      match processed {
        case Raised(e) => r := Raised(e);
        case Ok(Some(resp)) => r := Ok(HttpResponse(resp.status, Some(resp.body)));
        case Ok(None) => r := Ok(HttpResponse(201, None));
      }
    }

    /**
     * `process_websocket_message` on a message whose parse is `data`; `adapterError` is what
     * `continue_conversation` raises, if anything. The returned error is the one re-raised.
     */
    method ProcessWebsocketMessage(data: Json, adapterError: Option<PyError>) returns (error: Option<PyError>)
      modifies this`outbox
      ensures outbox == old(outbox) + HandleMessage(lastConversationReference, data, adapterError).delivered
      ensures error == HandleMessage(lastConversationReference, data, adapterError).error
    {
      if lastConversationReference.None? {
        return None;
      }
      var formatted := Formatting.FormatMessage(data);
      if !data.JObject? {
        return Some(AttributeError);
      }
      var agentName := GetOr(data.fields, "agent", JString(DefaultAgentName));
      outbox := outbox + [Delivery(lastConversationReference.value, Reply(formatted.0, formatted.1, agentName))];
      error := adapterError;
    }
  }

  /** A default action is a dict whose title and value are both its prompt. */
  lemma SuggestionSubmittable(t: string)
    ensures Submittable(Formatting.Suggestion(t))
    ensures Lookup(Formatting.Suggestion(t).fields, "title") == Some(JString(t))
    ensures Lookup(Formatting.Suggestion(t).fields, "value") == Some(JString(t))
  {
    var fs := Formatting.Suggestion(t).fields;
    assert Lookup(fs, "title") == Some(JString(t));
    assert Lookup(fs, "value") == Lookup(fs[1..], "value");
    assert fs[1..] == [("value", JString(t))];
  }

  /** The card lists one submit action per default action, title and data both the prompt. */
  lemma DefaultActionsCard()
    ensures CardActions(Formatting.DefaultActions).Ok?
    ensures |CardActions(Formatting.DefaultActions).value| == 4
    ensures forall i :: 0 <= i < 4 ==>
      CardActions(Formatting.DefaultActions).value[i].title == CardActions(Formatting.DefaultActions).value[i].data
  {
    var items := Formatting.DefaultActions.items;
    forall i | 0 <= i < |items|
      ensures Submittable(items[i])
      ensures Lookup(items[i].fields, "title") == Lookup(items[i].fields, "value")
    {
      var t := items[i].fields[0].1.s;
      assert items[i] == Formatting.Suggestion(t);
      SuggestionSubmittable(t);
    }
    assert |items| == 4;
    assert CardActions(Formatting.DefaultActions) == SubmitActions(items);
  }
}
