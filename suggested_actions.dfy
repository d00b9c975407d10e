/**
 * The constant activity offering the four Singapore prompts as quick replies.
 */
module Suggestions {
  import opened Json
  import opened Schema
  import Formatting

  /** The four prompts, in the order both the activity and `DEFAULT_ACTIONS` list them. */
  const Prompts: seq<string> := [
    "What activities can I do in Singapore?",
    "Tell me more about Singapore's culture",
    "What's the best time to visit Singapore?",
    "Recommend some local food in Singapore"
  ]

  /** `get_suggested_actions`: a message activity whose suggested actions are the prompts as `im_back`. */
  function GetSuggestedActions(): (a: Activity)
    ensures a.activityType == MessageActivity
    ensures a.text.None? && a.attachments == [] && a.sender.None?
    ensures a.suggestedActions.Some? && |a.suggestedActions.value| == 4
    ensures forall i :: 0 <= i < 4 ==>
      a.suggestedActions.value[i] == CardAction(JString(Prompts[i]), ImBack, JString(Prompts[i]))
  {
    Activity(MessageActivity, None, [], None,
      Some(seq(4, i requires 0 <= i < 4 => CardAction(JString(Prompts[i]), ImBack, JString(Prompts[i])))))
  }

  /** Every suggested action's title is its value, and its type is `im_back`. */
  lemma TitleIsValue()
    ensures forall c :: c in GetSuggestedActions().suggestedActions.value ==>
      c.title == c.value && c.actionType == ImBack
  {
  }

  /**
   * The activity's titles, in order, are the titles (and values) of the default actions the
   * formatter attaches to a message.
   */
  lemma SameTitlesAsDefaultActions()
    ensures |Formatting.DefaultActions.items| == |GetSuggestedActions().suggestedActions.value|
    ensures forall i :: 0 <= i < |Formatting.DefaultActions.items| ==>
      Formatting.DefaultActions.items[i].JObject? &&
      Some(GetSuggestedActions().suggestedActions.value[i].title) == Lookup(Formatting.DefaultActions.items[i].fields, "title") &&
      Some(GetSuggestedActions().suggestedActions.value[i].value) == Lookup(Formatting.DefaultActions.items[i].fields, "value")
  {
  }
}
