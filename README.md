# WhatsApp clinic bot with human handoff — Dafny model

The bot answers a clinic's WhatsApp messages with an AI model. When the AI's reply
says it is passing the user to an agent, the bot hands that sender off to a human
agent in the Chatwoot helpdesk. From then on it relays the sender's messages into
the helpdesk conversation instead of answering them. It keeps doing so until the
helpdesk reports the conversation resolved; the bot then sends a closing notice and
the AI takes over again.

The model has six modules:

- `Json` (json.dfy) covers the JSON values the bot reads:
  - Python truthiness and `x or y`;
  - `d.get(k, default)`, including the exception it raises when `d` is not a dict;
  - the early-return search loop `FirstMatch`, with its characterisation `FirstMatchSpec`.
- `Text` (text.dfy) covers the two ways the source strips the `whatsapp:` scheme: `split(...)[-1]` and `replace(..., "")`.
- `Effects` (effects.dfy) lists everything the bot does to the outside world, in order:
  - completion requests;
  - gateway sends;
  - helpdesk requests.
- `Helpdesk` (helpdesk.dfy) is the Chatwoot client of utils.py.
  - Each HTTP reply is an input. It is either a status and a parsed body, or no answer, which means `requests` raised.
  - Each operation is a function. It returns its Python result, which is a value or an exception, together with the requests it sent.
- `Payload` (payload.dfy) covers the helpdesk webhook payload readers of main.py:
  - the helper functions at main.py:118-163, which nothing calls;
  - the inline extraction the webhook actually performs, as `Classify`.
- `Bot` (bot.dfy) is the class holding the bot's state:
  - the `user_states` table as a map from sender to `in_handoff`;
  - the `conversations` table as a sequence of rows in id order;
  - the effect log;
  - the configured inbox id.

  Its methods are the two webhook handlers and the flag operations of utils.py.

## Model

| member | source | states |
|---|---|---|
| Json.Or | main.py:131 | `x or y` is `x` when `x` is truthy and `y` otherwise, so it is truthy iff one of its operands is |
| Json.FirstTruthy | utils.py:39-43 | an `or` chain yields one of its operands, and a truthy one iff any operand is truthy |
| Json.FirstTruthyIsFirst | utils.py:39-43 | an `or` chain yields its first truthy operand, or its last operand when none is truthy |
| Json.FirstMatchSpec | utils.py:129-132 | the early-return loop returns the first stopping entry's result (an id, or the exception it raised), and None iff every entry passes without stopping |
| Text.ContainsIsInfix | main.py:110 | Python's `p in s` holds iff `s` splits as `pre + p + post` |
| Text.SplitLastSpec | main.py:52 | `split("whatsapp:")[-1]` leaves no prefix, is the whole string when the prefix is absent, and is what follows an occurrence of the prefix otherwise |
| Text.RemoveAllWithout | main.py:175 | `replace("whatsapp:", "")` leaves a string without the prefix unchanged |
| Text.NormalisationsAgree | main.py:175 | on the gateway address `whatsapp:<number>` the webhook's `replace` and the message handler's `split` both give `<number>` |
| Text.NormalisationsDiffer | main.py:175 | on `"x whatsapp:1"` the `replace` keeps the leading text that the `split` drops |
| Helpdesk.ExtractContactId | utils.py:36-43 | None for a non-dict; otherwise the first truthy of `payload.contact.id`, `payload.id`, `id`; raises only where the `payload.contact` lookup does |
| Helpdesk.ExtractConversationId | utils.py:87-94 | None for a non-dict; otherwise the top-level id when truthy, else `payload.id` when truthy, else `payload.conversation.id`; it raises exactly when a lookup it reaches is made on a non-dict |
| Helpdesk.ExtractorsDisagree | utils.py:87-94 | the two extractors have opposite priorities: on a body with both `id` and `payload.id` they choose differently |
| Helpdesk.FindContactIdSpec | utils.py:62-77 | the search gives None on a non-200 status or no hits, the first hit's id otherwise, and raises only on no answer or a malformed body |
| Helpdesk.CreateContactResult | utils.py:46-59 | no answer raises; a non-200/201 status gives None; on 200/201 the extracted contact id when it is truthy, None when it is falsy, and the exception when extraction raises |
| Helpdesk.GetOrCreateContact | utils.py:80-84 | the search comes first; a usable found id is returned with no create request; when the search gives a falsy id the result is that of `create_contact` after exactly one create request; a search exception propagates with no further request |
| Helpdesk.OpenConversationSpec | utils.py:118-132 | the lookup gives None on a non-200 status or a non-list payload, the id of the first conversation whose status is "open", and None when none is open |
| Helpdesk.CreateConversationResult | utils.py:97-115 | no answer raises; a non-200/201 status gives None; on 200/201 the extracted conversation id when it is truthy, None when it is falsy, and the exception when extraction raises |
| Helpdesk.GetOrCreateOpenConversation | utils.py:135-142 | an open conversation is reused with no create request; when the lookup gives nothing the result is None with no create request if no inbox id is configured, and otherwise that of `create_conversation` after exactly one create request |
| Helpdesk.ObtainConversation | utils.py:145-153 | the contact is obtained first; without a usable contact no conversation request is made and the result is None, or the exception; with one, the result and requests are those of `get_or_create_open_conversation` for that contact |
| Helpdesk.SendUserMessageToChatwoot | utils.py:145-162 | true iff contact and conversation were obtained and the post answered 200/201; the text is posted exactly once, as the last request, only when both were obtained |
| Helpdesk.ReachAgent | utils.py:192-214 | true iff contact and conversation were obtained, whatever the status patch answers; the patch is the last request; nothing is posted |
| Payload.ExtractConversation | main.py:118-121 | the nested conversation when it is a dict, and the payload itself otherwise |
| Payload.SourceIdPhoneSpec | main.py:138-140 | the source-id branch yields None or a string that contains no "whatsapp:" and follows an occurrence of it in the source id |
| Payload.ExtractPhoneNumberSpec | main.py:124-142 | sources are tried in order: a truthy meta phone; else the first message with a truthy phone; else the source-id branch |
| Payload.ResolvedAttrProbe | main.py:153-157 | a changed-attributes entry stops the loop iff it is a dict whose status moved to "resolved" |
| Payload.IsResolutionEventSpec | main.py:145-163 | resolved iff status is "resolved", or an entry moved status to "resolved", or the event is "conversation_resolved"; it raises only on a malformed entry |
| Payload.Classify | main.py:171-209 | ignored iff no truthy phone is read; failed iff reading the phone, the status or (for "open") the actor raises, or the phone is not a string; otherwise the event names the phone read, and is "resolved" iff the status is "resolved", agent-opened iff the status is "open" and the actor is "agent" |
| Payload.BareSourceIdIgnored | main.py:174-183 | a source id of exactly "whatsapp:" makes the webhook ignore the event even when `sender.phone_number` is set |
| Payload.SenderFromMeta | main.py:127-129 | a meta sender resolves to its phone number |
| Payload.SenderFromMessages | main.py:131-136 | a payload with only a message sender resolves to that sender's number |
| Payload.SenderFromSourceId | main.py:138-140 | a prefixed source id alone resolves to the bare number |
| Payload.ResolvedExample | main.py:192-197 | a conversation-level "resolved" status with a prefixed top-level source id is a resolution for the bare number |
| Bot.NormaliseSender | main.py:51-57 | the sender key has no prefix, is `From` itself when `From` has none, and otherwise follows an occurrence of the prefix |
| Bot.WebhookKeysMessageSender | main.py:174-175 | the helpdesk webhook writes the flag under the same key the message handler reads for the gateway address `whatsapp:<number>` |
| Bot.MarkerSubsumes | main.py:110 | the handoff test holds iff the reply contains the short phrase; the longer phrase adds nothing |
| Bot.LatestRow | main.py:89-94 | the found row is the sender's, no later row is theirs, and none is found iff the sender has no row |
| Bot.LatestRowAfterWrite | main.py:95-100 | overwriting the sender's latest row keeps it the latest; an appended row becomes the latest |
| Bot.TurnRecordedSpec | main.py:88-101 | after a turn the sender's latest row holds it, at most one row was added, and other senders' rows are unchanged |
| Bot.InHandoff | utils.py:183-189 | a sender without a row is not in handoff |
| Bot.ApplyEvent | main.py:192-209 | "resolved" clears a set flag and sends exactly one closing notice; on an unset flag it does nothing; agent-opened sets the flag; anything else changes nothing |
| Bot.ApplyEventFrame | main.py:185-209 | an event touches only its own sender's flag, and a notice is sent iff the flag went from set to clear |
| Bot.HandoffEndsOnlyByResolution | main.py:194-196 | a handed-off sender leaves handoff through exactly one event: the resolution of their conversation |
| Bot.HandoffStartsOnlyByAgent | main.py:202-206 | a sender enters handoff through a webhook exactly when an agent acts on their open conversation |
| Bot.ResolvedIdempotent | main.py:194-201 | a repeated "resolved" event sends no second notice and changes nothing |
| Bot.AgentOpenedIdempotent | main.py:202-207 | applying an agent-open event twice equals applying it once |
| Bot.Escalate | main.py:110-113 | the user's message is relayed iff the handoff succeeded; every request is a helpdesk request; an exception in either step means the handler did not complete |
| Bot.Bot.constructor | models.py:27-31 | the bot starts with no user states, no log rows and no effects |
| Bot.Bot.IsUserInHandoff | utils.py:183-189 | the stored flag, false for a sender without a row |
| Bot.Bot.SetHandoffFlag | utils.py:165-180 | an upsert: the sender's flag becomes the value; every other sender's flag is unchanged |
| Bot.Bot.ResumeAiMode | utils.py:217-234 | an upsert to "not in handoff"; returns true |
| Bot.Bot.HandoffToAgent | utils.py:192-214 | the flag is set iff contact and conversation were obtained; otherwise it is unchanged; the helpdesk requests are logged |
| Bot.Bot.RecordTurn | main.py:88-101 | the sender's highest-id row is overwritten with the turn, or one row is appended when they have none |
| Bot.Bot.RelayMessage | main.py:62-64 | the relay's result is that of `send_user_message_to_chatwoot`, its requests are logged, and no flag or log row changes |
| Bot.Bot.HandoffAndRelay | main.py:109-113 | the handoff, then the relay only when it succeeded; the flag changes only by a successful handoff |
| Bot.Bot.AnswerWithAi | main.py:66-113 | one completion request, the log row, exactly one reply to the sender, and then the handoff and relay only when the reply asks for an agent |
| Bot.Bot.HandleMessage | main.py:48-115 | no sender: nothing happens. Handed off: one relay and no AI call, reply or log row. Otherwise the completion and the reply come first; without the handoff phrase nothing follows; with it the flag is set iff the handoff succeeded, the message is relayed only then, and the handler completes iff no exception escaped |
| Bot.Bot.HandleWebhook | main.py:166-215 | answers "ignored" iff no phone is read and "ok" otherwise; the flags and sends are those of `ApplyEvent` on the classified payload |

## Left out

- The AI completion (main.py:66-86) is an input to the model: a reply text, or `None` for a provider failure.
  - The system prompt, the model parameters, `.strip()` and the weekday and clock computation (main.py:18-24) are not modelled.
- The gateway client `send_message` (utils.py:22-33) is not modelled.
  - Each call is logged as a `Send` effect.
  - Its success flag is not modelled, because no caller reads it.
- The helpdesk's HTTP requests are not modelled in detail: no URLs, headers, timeouts or request bodies.
  - An answer is a status code and an already parsed JSON body, or no answer.
  - A body that is not JSON is not modelled.
  - Floating-point JSON numbers are not modelled.
- Database behaviour is not modelled: sessions, commit, rollback and their failures.
  - A failing commit in the message handler (main.py:102-104) is assumed not to happen, and neither is one in `set_handoff_flag` or `resume_ai_mode`.
  - A failure of `is_user_in_handoff` is not modelled either.
- Bot.Bot.ResumeAiMode: always returns true, because database failures are outside the model.
- Payload.Classify: a truthy phone number that is not a string (an int from `sender.phone_number`) is treated as a failed event that changes nothing. This is because the user-state query keyed by it is taken to fail.
- The form fallbacks `From`/`from` and `Body`/`body` and the FastAPI routing (main.py:48-53) are not modelled.
  - The message handler receives `From`, with "" when it is missing, and the body.
  - The health route (main.py:43-45) is left out.
- Logging is left out, and so is environment configuration apart from the inbox id.
- Concurrent deliveries for one sender are left out: each handler runs to completion before the next starts.
- The helper functions at main.py:118-163 are modelled, but nothing in the source calls them.
  - The webhook reads the phone number from the top-level `contact_inbox.source_id`, not from the conversation's.
  - `Classify` follows the code that runs.
- models.py is not part of this model apart from the two tables, which appear as the `Bot` fields.
