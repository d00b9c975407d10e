/**
 * The Bot Framework records the bot builds and reads, as plain values: conversation
 * references, channel accounts, card actions, the adaptive card and the outgoing activity.
 * Only the fields the bot sets or reads are kept.
 */
module Schema {
  import opened Json

  datatype ConversationAccount = ConversationAccount(id: string, name: string, conversationType: string)

  datatype ChannelAccount = ChannelAccount(id: string, name: string, role: Option<string>)

  /** Where a proactive message is delivered: the stored conversation context. */
  datatype ConversationReference = ConversationReference(
    channelId: string,
    serviceUrl: string,
    conversation: ConversationAccount,
    user: ChannelAccount,
    bot: ChannelAccount,
    activityId: string,
    locale: string)

  /** `ActionTypes.im_back` is the only action type the bot uses. */
  datatype ActionType = ImBack

  /** `CardAction(title=..., type=..., value=...)`; title and value are whatever the payload held. */
  datatype CardAction = CardAction(title: Json, actionType: ActionType, value: Json)

  datatype ActivityType = MessageActivity

  /** The card body element `{"type": "TextBlock", "text": ..., "wrap": ..., "size": ...}`. */
  datatype TextBlock = TextBlock(text: Json, wrap: bool, size: string)

  /** The card action `{"type": "Action.Submit", "title": ..., "data": ...}`. */
  datatype SubmitAction = SubmitAction(title: Json, data: Json)

  /** `{"type": "AdaptiveCard", "version": ..., "body": [...], "actions": [...]}`. */
  datatype AdaptiveCard = AdaptiveCard(version: string, body: seq<TextBlock>, actions: seq<SubmitAction>)

  datatype Attachment = Attachment(contentType: string, content: AdaptiveCard)

  /** An outgoing `Activity`; a field the bot leaves unset is None or empty. */
  datatype Activity = Activity(
    activityType: ActivityType,
    text: Option<string>,
    attachments: seq<Attachment>,
    sender: Option<ChannelAccount>,
    suggestedActions: Option<seq<CardAction>>)
}
