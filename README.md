# Travel-assistant bot relay: a Dafny model

This project models the message pipeline of a Bot Framework travel-assistant bot.

- A relay (`WebSocketHandler`) holds one connection to a real-time message bus.
- It normalises every frame it receives into a JSON message that carries suggested actions.
- It hands that message to the bot handler (`BotHandler`).
- The bot handler formats the message (`MessageFormatter`) and builds an adaptive card from it.
- The card goes out, under a synthesised agent account, into the single stored conversation.
- In the other direction, the bot (`MyBot`) forwards what the user types over the same connection.
- It also greets new members with a welcome and the four suggested prompts.

Modules, one per source file, plus two shared ones:

| module | file | models |
|---|---|---|
| `Json` | `json.dfy` | JSON values as `json.loads` yields them, Python exceptions, and the Python semantics the code relies on: `dict.get`, `in`, iteration, `str()`, `sep.join`, ASCII `lower()`, `replace` |
| `Schema` | `schema.dfy` | the Bot Framework records the code builds: conversation reference, accounts, card actions, adaptive card, activity |
| `Formatting` | `message_formatter.dfy` | `DEFAULT_ACTIONS`, the dispatch table, the seven renderers, `format_message` with its fallback; `format_activities` as the loops it is written as |
| `Suggestions` | `suggested_actions.dfy` | `get_suggested_actions` |
| `Handling` | `bot_handler.dfy` | `create_suggested_actions`, the card and sender construction, `process_websocket_message`, `messages`, as a `BotHandler` class |
| `Relay` | `websocket_handler.dfy` | `format_message_with_actions`, and the `connection` / `should_reconnect` state machine of `connect`, `send_message`, `receive_messages` and `cleanup`, as a `WebSocketHandler` class |
| `Bot` | `bot.dfy` | `MyBot`: message selection, the forwarding guard, the welcome loop |

Things outside the program are given to the model as inputs:

- What `json.loads` makes of a frame (`ParseResult`).
- What the socket does: the connection `connect` yields, the frames received, how the stream ends, and what each `send` does.
- Whether `cleanup` runs during a pass of the receive loop.
- What the Bot Framework adapter raises or returns.
- The conversation reference of an incoming activity.

The sleeps the receive loop takes are recorded, in seconds, in the handler's `pauses`.

Two points about the relay's behaviour:

- Every failed attempt sleeps a fixed 5 seconds. There is no backoff, circuit breaker, heartbeat or typing indicator.
- Normalisation raises TypeError on a frame that parses to a number, a bool or null, and on a string or list that does not mention `suggested_actions`. That error escapes, and the receive loop then drops the connection.

## Model

| member | source | states |
|---|---|---|
| `Formatting.FormatterTable` | message_formatter.py:30-38 | the table has seven keys and every renderer is the value of one of them, so each renderer is reached by exactly one `agent_type` |
| `Formatting.SelectFormatter` | message_formatter.py:136-137 | choosing the formatter raises exactly when `agent_type` is present and is a dict or list (unhashable); otherwise a string naming a table entry selects that entry, and every other `agent_type` (an unknown string, null, a bool, a number) or none selects `format_default` |
| `Formatting.SelectWithoutAgentType` | message_formatter.py:136-137 | a message without `agent_type` is rendered by `format_default` |
| `Formatting.SelectByAgentType` | message_formatter.py:30-38 | a string `agent_type` selects its table entry, and `format_default` when the table has none |
| `Formatting.Dispatch` | message_formatter.py:136-138 | a message naming a known `agent_type` gets that formatter's text |
| `Formatting.DataOf` | message_formatter.py:81 | `data.get('data', {})`: empty when absent, the dict when it is one, AttributeError (from the following `.get`) otherwise |
| `Formatting.FormatPrice` | message_formatter.py:91 | `.2f` formatting succeeds exactly for bools and for numbers within float range; an integer beyond it raises OverflowError, a string ValueError |
| `Formatting.Price` | message_formatter.py:104 | a booking without `total_price` formats `''` with `.2f` and raises ValueError |
| `Formatting.DestinationLines` | message_formatter.py:66-78 | eleven entries; the tenth is the "Similar Destinations" label and the last is the joined list |
| `Formatting.FormatDestinationInfo` | message_formatter.py:64-78 | a `data` that is not a dict raises AttributeError, and the renderer raises nothing but AttributeError or TypeError; without `similar_destinations` the last entry is the empty string |
| `Formatting.FlightLines` | message_formatter.py:80-93 | ten entries: the flight heading first, then `From:` with the departure city and `To:` with the destination city, the price ninth, the booking reference last |
| `Formatting.HotelLines` | message_formatter.py:95-106 | eight entries: the hotel heading first, then `City:` and `Hotel:` with their fields, the price seventh, the booking reference last |
| `Formatting.CarLines` | message_formatter.py:108-119 | eight entries: the car-rental heading first, `City:` with the rental city second, `Rental Company:` sixth, the price seventh, the booking reference last |
| `Formatting.BookingLines` | message_formatter.py:80-119 | every booking layout ends with the price entry and then the booking reference; ten entries for a flight, eight for a hotel or a car |
| `Formatting.BookingShowsOnlyItsKeys` | message_formatter.py:80-119 | two bookings that agree on the keys a layout shows render the same entries: every other key is ignored |
| `Formatting.FormatBooking` | message_formatter.py:80-119 | a booking renderer raises exactly when `data` is not a dict or the price does not format, only AttributeError, ValueError, OverflowError or TypeError; otherwise its text is the layout joined by newlines |
| `Formatting.FormatGroupChat` | message_formatter.py:121-123 | raises exactly when `data` is not a dict, and then AttributeError |
| `Formatting.FormatDefault` | message_formatter.py:125-128 | never raises; the `message` value itself when present; the empty string when neither `message` nor `data` is present |
| `Formatting.ActivitiesText` | message_formatter.py:40-62 | `format_activities` raises only AttributeError or TypeError and otherwise returns a string |
| `Formatting.ApplyFormatter` | message_formatter.py:138 | `format_default` never raises; every other renderer returns a string when it succeeds; the only exceptions are AttributeError, TypeError, ValueError and OverflowError |
| `Formatting.FormattedText` | message_formatter.py:135-138 | a payload that is not a dict raises AttributeError; only those four exceptions arise; a successful text is a string unless `format_default` was selected |
| `Formatting.Records` | message_formatter.py:48-52 | the grouping loop succeeds exactly when every activity is a dict with a hashable type, and then keeps them all, in order |
| `Formatting.RecordsRaisedPrefix` | message_formatter.py:48-52 | once an activity raises, the later ones do not change the outcome |
| `Formatting.DistinctTypesMembers` | message_formatter.py:47-53 | each group type occurs once, and a type has a group exactly when some activity has that type |
| `Formatting.DistinctTypesInFirstSeenOrder` | message_formatter.py:47-54 | groups appear in the order in which their types first appear among the activities |
| `Formatting.GroupHasItsType` | message_formatter.py:49-52 | every activity in a group has that group's type (`'Other'` when it has none) |
| `Formatting.GroupOfAbsentType` | message_formatter.py:50-52 | a type no activity has gets no activities |
| `Formatting.GroupsPartitionActivities` | message_formatter.py:47-56 | the groups, concatenated, are a permutation of the activities: each activity appears exactly once |
| `Formatting.ActivityLinesCount` | message_formatter.py:44-60 | the entries joined number 1 + the number of groups + 2 × the number of activities |
| `Formatting.GroupingStep` | message_formatter.py:48-52 | one iteration of the grouping loop keeps the dict's keys and buckets equal to the distinct types and their groups |
| `Formatting.FormatActivities` | message_formatter.py:40-62 | the loops compute exactly the grouped text `ActivitiesText`, or raise what it raises |
| `Formatting.GroupByType` | message_formatter.py:47-52 | the dict's key order is the distinct types in first-seen order, and each bucket is its type's activities in input order; or the error of the first bad activity |
| `Formatting.RenderGroups` | message_formatter.py:54-60 | a heading per type, then the type's activities, in the dict's order |
| `Formatting.RenderItems` | message_formatter.py:56-60 | a bullet line and an indented description line per activity, in order |
| `Formatting.BucketLinesAreGroupLines` | message_formatter.py:54-60 | reading the filled dict renders the specified groups |
| `Formatting.FormatMessage` | message_formatter.py:130-147 | never raises; on a formatter exception the result is `(str(message_data), DEFAULT_ACTIONS)`; otherwise the text is the formatter's, and the actions are the message's own `suggested_actions` unchanged, or `DEFAULT_ACTIONS` when it has none |
| `Formatting.BookingWithoutPriceFallsBack` | message_formatter.py:91-117 | a flight, hotel or car message whose booking has no `total_price` falls back to `(str(message_data), DEFAULT_ACTIONS)` |
| `Formatting.BookingWithPrice` | message_formatter.py:80-119 | a flight, hotel or car booking with a numeric price renders its own layout (ten, eight and eight entries), with the `.2f` rendering in the price entry; a price beyond float range makes the message fall back |
| `Formatting.DefaultAgentText` | message_formatter.py:125-128 | `format_default` gives `data['message']` when present, else `str(data.get('data', ''))`; the actions follow the general rule |
| `Formatting.GroupChatText` | message_formatter.py:121-123 | `"<sender>: <content>"`, with `Unknown` for a missing sender and the empty string for missing content |
| `Formatting.DestinationSimilarLast` | message_formatter.py:64-78 | a list of strings in `similar_destinations` becomes the last entry, joined with `", "`; a non-string in it makes the message fall back |
| `Formatting.ActivitiesMessage` | message_formatter.py:40-62 | an activities message renders the grouped entries; a non-dict activity or an unhashable type makes it fall back |
| `Formatting.NonObjectFallsBack` | message_formatter.py:135-147 | a payload that is not a dict has no `.get`, so the message falls back |
| `Suggestions.GetSuggestedActions` | suggested_actions.py:4-32 | a message activity with exactly four suggested actions, in the fixed order, each `im_back` with title and value the prompt |
| `Suggestions.TitleIsValue` | suggested_actions.py:10-29 | every suggested action's title is its value and its type is `im_back` |
| `Suggestions.SameTitlesAsDefaultActions` | suggested_actions.py:11-28 | the four titles and values, in order, are those of `DEFAULT_ACTIONS` |
| `Handling.CreateSuggestedActions` | bot_handler.py:56-67 | one `im_back` action per entry, in order; the title is the entry's title or `""`; the value is its value, else its title, else `""` |
| `Handling.Subscript` | bot_handler.py:107-108 | `action["title"]` succeeds exactly on a dict with the key; otherwise KeyError on a dict, TypeError on anything else |
| `Handling.SubmitActions` | bot_handler.py:104-111 | the card's submit actions are built exactly when every suggested action has a title and a value; then one per action, in order, carrying both |
| `Handling.CardActions` | bot_handler.py:104-111 | a list of suggested actions gives its submit actions; a number, bool or null is not iterable and raises TypeError |
| `Handling.SenderIdShape` | bot_handler.py:124-125 | the sender id is `agent-` followed by the name with capitals lower-cased and spaces turned into hyphens, so it has no space |
| `Handling.DefaultSenderId` | bot_handler.py:89-125 | the default agent name `AutoGen Agent` gives the id `agent-autogen-agent` |
| `Handling.Reply` | bot_handler.py:91-128 | the reply exists exactly when the actions can be put on the card and the agent name is a string; it is a message with one version 1.4 adaptive card holding a wrapped medium text block with the formatted text, plus the submit actions, sent from `(SenderId(name), name)`; otherwise it is the first exception raised |
| `Handling.HandleMessage` | bot_handler.py:80-137 | without a stored reference nothing is delivered and nothing is raised; a non-dict message raises AttributeError before the adapter is called; otherwise the adapter is asked to run exactly one callback on the stored reference, sending the reply, and the adapter's exception is re-raised |
| `Handling.BotHandler.constructor` | bot_handler.py:18-23 | no conversation reference is stored yet |
| `Handling.BotHandler.Messages` | bot_handler.py:31-54 | a missing `Content-Type` raises KeyError; a non-JSON content type gives 415; a body that does not parse raises JSONDecodeError or whatever else parsing raised; in all these cases the stored reference is untouched; otherwise the reference is overwritten, and the response is the adapter's, or 201 when the adapter returns none |
| `Handling.BotHandler.ProcessWebsocketMessage` | bot_handler.py:80-137 | appends exactly the deliveries of `HandleMessage` on the stored reference and returns its error |
| `Handling.SuggestionSubmittable` | message_formatter.py:7-24 | each `DEFAULT_ACTIONS` entry is a dict whose title and value are both its prompt |
| `Handling.DefaultActionsCard` | bot_handler.py:104-111 | the default actions put four submit actions on the card, each with the same title and data |
| `Relay.SameDefaultActions` | websocket_handler.py:22-39 | the relay's copy of `DEFAULT_ACTIONS` equals the formatter's |
| `Relay.Normalize` | websocket_handler.py:78-93 | an undecodable frame is wrapped; any other exception of `json.loads` escapes; a value that already carries `suggested_actions` passes through unchanged; a parsed value raises, with TypeError, exactly when it is not a dict and does not carry it |
| `Relay.InjectsDefaults` | websocket_handler.py:82-86 | a dict without `suggested_actions` comes out with `DEFAULT_ACTIONS` added as the last key; every other key keeps its value and position |
| `Relay.WrappedLookup` | websocket_handler.py:89-93 | the wrapper maps `message` to the raw frame, `agent` to `AutoGen Agent`, `suggested_actions` to `DEFAULT_ACTIONS`, and has no other key |
| `Relay.WrapsNonJson` | websocket_handler.py:87-93 | an undecodable frame becomes exactly the three-key wrapper, whose `message` is the raw text |
| `Relay.NormalizedCarries` | websocket_handler.py:82-93 | whatever normalisation returns carries `suggested_actions` |
| `Relay.Idempotent` | websocket_handler.py:78-93 | normalising the serialised result again gives the same message |
| `Relay.ConsumeStep` | websocket_handler.py:137-141 | after a prefix of frames that raised nothing, the next frame's deliveries and error are appended |
| `Relay.ConsumeStopsAtFailure` | websocket_handler.py:137-141 | once a frame raises, the later frames of that connection are never handled |
| `Relay.ConsumeDeliversToReference` | websocket_handler.py:137-141 | every delivery goes to the stored reference, and none is made without one |
| `Relay.Iteration` | websocket_handler.py:130-150 | one pass: a failed connect sleeps, keeps no connection and delivers nothing; a connected pass delivers exactly what its frames deliver; a receive error, a closed connection or a frame that raises drops the connection and sleeps; a stream that just ends keeps the connection without sleeping; the loop flag clears exactly when cleanup ran |
| `Relay.RunLoopAppends` | websocket_handler.py:130-150 | the loop only adds deliveries and sleeps; every sleep is 5 seconds; every delivery goes to the stored reference |
| `Relay.KeepsReconnectingUntilCleanup` | websocket_handler.py:128-160 | the loop is still willing to reconnect exactly when no pass saw `cleanup` |
| `Relay.NoPassAfterCleanup` | websocket_handler.py:128-160 | after the pass during which `cleanup` ran, no further pass starts, and `should_reconnect` is false |
| `Relay.SendEffect` | websocket_handler.py:112-126 | with no connection nothing is sent and the connection stays None; a successful send is recorded on the connection; any send exception drops the connection and is not re-raised |
| `Relay.WebSocketHandler.constructor` | websocket_handler.py:42-76 | no connection, reconnecting enabled, and the default emulator reference stored on the bot handler |
| `Relay.WebSocketHandler.Connect` | websocket_handler.py:95-110 | returns whether the service handed out a connection, and stores it only then |
| `Relay.WebSocketHandler.SendMessage` | websocket_handler.py:112-126 | the connection and the sent log change exactly as `SendEffect` says |
| `Relay.WebSocketHandler.Cleanup` | websocket_handler.py:156-160 | `should_reconnect` becomes false, and an open connection is closed |
| `Relay.WebSocketHandler.ReceiveFrames` | websocket_handler.py:137-141 | the `async for` over a connection's frames delivers exactly what `ConsumeFrames` specifies, and reports whether a frame raised |
| `Relay.WebSocketHandler.HandleFrame` | websocket_handler.py:140-141 | one frame is normalised and processed, and its deliveries and error are those of `FrameOutcome` |
| `Relay.WebSocketHandler.Pass` | websocket_handler.py:131-150 | one pass of the loop moves the handler's state exactly as `Iteration` says |
| `Relay.WebSocketHandler.ReceiveMessages` | websocket_handler.py:128-150 | the loop moves the state exactly as `RunLoop` says, and leaves the stored reference alone |
| `Relay.PlainTextFrame` | websocket_handler.py:87-93 | a plain-text frame reaching a stored conversation yields one reply: a card whose text is the frame and whose actions are the four default prompts, sent by `agent-autogen-agent` |
| `Bot.SelectMessage` | bot.py:26 | the text when it is a non-empty string, else the card's value |
| `Bot.Greeted` | bot.py:38-39 | the greeted members are among the added ones, and a member is one of them exactly when its id is not the recipient's |
| `Bot.GreetedMultiplicity` | bot.py:38-39 | each added member whose id is not the recipient's is greeted as often as it was added, and the bot never, so the number greeted is the number of such members |
| `Bot.GreetingsShape` | bot.py:38-48 | two activities per greeted member, in member order: the welcome, then the suggested actions (with `Bot.GreetedMultiplicity`, 2 × the members whose id is not the recipient's) |
| `Bot.OnlyBotAdded` | bot.py:38-39 | when only the bot itself is added, nothing is sent |
| `Bot.MyBot.constructor` | bot.py:11-14 | `ws_handler` does not exist until `set_ws_handler` runs |
| `Bot.MyBot.SetWsHandler` | bot.py:13-14 | the handler is stored |
| `Bot.MyBot.OnMessageActivity` | bot.py:21-28 | before `set_ws_handler` the attribute read raises AttributeError and nothing is sent; otherwise the selected message is sent through the handler, when there is one; nothing else of the handler changes |
| `Bot.MyBot.OnMembersAddedActivity` | bot.py:33-48 | the activities sent are exactly `Greetings`, a welcome and the suggested actions per member other than the bot; when a `send_activity` raises, the loop stops there, the activities before it are the ones sent, and its exception propagates |
| `Bot.GreetingsPrefix` | bot.py:38-48 | the activities for the first members lead those for all of them |

## Left out

- Network and async I/O are not modelled: `websockets.connect`, the access-token fetch, `connection.send`/`close`, the `async for` stream and `asyncio.sleep`. The socket is an oracle (`Attempt`, `SendOutcome`), and a sleep is recorded in `pauses` without time passing.
- Bot Framework SDK calls are foreign code and are not modelled: `CloudAdapter.process`, `continue_conversation`, `TurnContext.send_activity`, `Activity().deserialize`, `create_conversation` and `show_typing`. What `process`, `continue_conversation` and `send_activity` return or raise is an input (`processed`, a frame's `adapterError`, `sendError`); `show_typing` and `create_conversation` are called by nothing modelled. Each callback the adapter has been asked to run is recorded as a `Delivery`, whether or not the adapter then raises. What the adapter's error handler does with a failing callback is not modelled.
- `BotHandler.Messages` takes the new conversation reference as an input. Deserialising the activity, and any exception that raises, are not modelled.
- `Relay.Normalize` treats every frame as text. For a binary frame, `json.loads` of undecodable bytes raises a non-JSONDecodeError exception. That case is covered by a `Failed` parse. A binary frame that is not JSON would make `json.dumps` of the wrapper raise TypeError, and the model does not cover that; it would wrap the frame and deliver it.
- `Relay.Iteration` over-approximates the pass that follows a clean end of stream. The connection is kept, and the next pass may receive fresh frames on it from the oracle. In the source, `self.connection` stays set after a clean close, so the next pass iterates over the closed connection (websocket_handler.py:132-141). That iteration ends at once, so the loop never reconnects and spins without sleeping. The model does not capture that spin.
- `Handling.CreateSuggestedActions` takes a list of dicts, as its type hint says (bot_handler.py:56). The AttributeError that `action.get` would raise on a non-dict entry is ruled out by the type. Nothing modelled calls the function.
- `json.loads` and `json.dumps` are library code. A parse is an input, and a serialised value is represented by the value itself, so the model takes `loads(dumps(v)) == v` for granted.
- `Relay.Idempotent` relies on that same round-trip: it is about the value handed to `json.dumps`, not about its text.
- Float formatting is not modelled. `str(n)` and `format(n, '.2f')` of a number are kept as opaque strings inside `JNumber`; which numbers exceed float range (so that `.2f` raises OverflowError) is part of the value, not computed.
- `Json.PyRepr` (what `str(dict)` gives in the fallback) does not model Python's choice of quote character or its escaping inside strings.
- `Json.Lower` lower-cases ASCII letters only. Python's Unicode case mapping is not modelled.
- Python's equality of `1`, `1.0` and `True` as dict keys is not modelled. `format_activities` groups types by structural equality.
- `Relay.WebSocketHandler.ReceiveMessages` runs a finite script of passes in place of the endless `while` loop. Its contract covers every finite prefix of a run.
- Concurrency is not modelled, except for one case. A `cleanup` that runs during a pass is modelled as a flag on that pass. `should_reconnect` is read only at the top of the loop, so clearing it at the end of the pass is equivalent. A `cleanup` flagged on a pass does not record its close of the connection in `closed`; only `Relay.WebSocketHandler.Cleanup` called directly does.
- A concurrent `messages` request that overwrites the stored reference while frames are being received is not modelled. A run of the loop uses one fixed reference.
- `Handling.DefaultActionsCard` states four submit actions with equal title and data. The prompts themselves follow from `Suggestions.SameTitlesAsDefaultActions` and `SuggestionSubmittable`.
- `get_task`, the debug prints, the unused `auth_header` and all logging are not modelled. They do not affect state.
- `app.py` (adapter setup, the error handler, route registration) and `config.py` (environment reads) are not part of this model.
- Exponential backoff, the circuit breaker, the heartbeat loop, the typing-indicator flag and retry-on-send do not exist in the code, so the model has none of them.
