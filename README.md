# MessageHandler — the conversation router of the Doctor Muelita WhatsApp bot

The bot answers patients of a dental clinic over WhatsApp. `MessageHandler`
(`src/services/messageHandler.js`) receives each inbound message. It
normalises the text (`toLowerCase().trim()`) and dispatches it by a fixed
priority:

1. a greeting gets the welcome text and the three-option menu;
2. the word `media` gets the sample document;
3. a sender in the middle of a booking goes to the appointment flow;
4. a sender with a pending question goes to the assistant (AI) flow;
5. anything else goes to the menu dispatch.

Interactive button replies always go to the menu dispatch. Every text or
interactive message ends with a read receipt; other message types are
ignored.

The handler keeps two per-sender dictionaries:

- `appointmentState`: `{step, name?, reason?}`;
- `assistandState`: `{step}`.

The model has five modules:

- `Wrappers` (`wrappers.dfy`): `Option`. `None` stands for JavaScript's
  `undefined`.
- `JsStrings` (`js_strings.dfy`): the string built-ins the handler uses, as
  pure functions:
  - `toLowerCase`;
  - `trim`, with the ECMAScript whitespace set;
  - `split(' ')[0]`;
  - `replace(/[^a-zA-Z\s]/g, '')`.
- `HandlerSpec` (`handler_spec.dfy`): the data model and one pure
  specification function per handler, over the state before the call.
  - The data model: messages, sender info, the conversation state, and the
    outbound calls as a trace of `Action`s.
  - Each function returns the new state and the actions emitted, in order.
  - The fixed reply texts, menus and payloads are values of `Reply`, `Text`
    and `Menu`.
  - `Render`, `MenuPrompt` and `MenuButtons` give their exact strings.
- `Handler` (`handler.dfy`): the class `MessageHandler`.
  - Its fields are `appointmentState`, `assistandState` and `trace`; the
    methods update them in place.
  - Each method is proved to produce exactly the state and trace of its
    specification function.
  - `HandleIncomingMessage` is also proved to keep the state invariant.
- `HandlerProperties` (`properties.dfy`): properties that relate several
  calls or hold for every input:
  - dispatch branch by branch;
  - the read receipt and the sender scope;
  - the step invariant;
  - greeting detection;
  - the welcome name;
  - whole conversations.

Inputs from outside the handler are parameters:

- the AI service's answer (`Option<string>`: `None` when the service failed
  and returned `undefined`);
- the timestamp string of the spreadsheet row.

The request to the AI service is recorded as an `AskAssistant` trace entry,
and the spreadsheet export as an `AppendToSheet` entry.

Three behaviours of the code are easy to miss:

- After `option_2` and then `option_1`, a sender has both an appointment
  entry and an assistant entry. `option_1` does not clear the assistant
  entry (`BothFlowsCanBeActive`).
- The appointment flow receives the lower-cased, trimmed text. A name typed
  as "Ana Torres" is therefore stored and exported as "ana torres"
  (`NormalizeExample`, `BookingTakesTwoMessages`).
- The welcome name is not always letters only. The filter keeps `\s`, and
  only U+0020 ends the first token, so a tab or another non-space whitespace
  character survives (`FormatNameCharacters`, `FormatNameKeepsTab`).

## Model

| member | source | states |
|---|---|---|
| Handler.MessageHandler.constructor | src/services/messageHandler.js:7-10 | both dictionaries start empty, nothing has been sent, and the step invariant holds |
| Handler.MessageHandler.HandleIncomingMessage | src/services/messageHandler.js:12-34 | the new dictionaries and the appended trace are exactly those of `HandleIncoming` on the old state; the step invariant is preserved |
| Handler.MessageHandler.SendWelcomeMessage | src/services/messageHandler.js:45-50 | appends one text message to the sender: the welcome for the formatted sender name, quoting the greeting's message id |
| Handler.MessageHandler.SendWelcomeMenu | src/services/messageHandler.js:52-68 | appends the three-button welcome menu and changes nothing else |
| Handler.MessageHandler.HandleMenuOption | src/services/messageHandler.js:70-95 | state and trace become those of `MenuOption` |
| Handler.MessageHandler.SendMedia | src/services/messageHandler.js:97-116 | appends the fixed sample document and changes nothing else |
| Handler.MessageHandler.CompleteAppointment | src/services/messageHandler.js:118-141 | deletes the sender's entry, appends the export row, and returns the summary of the entry as it was |
| Handler.MessageHandler.HandleAppointmentFlow | src/services/messageHandler.js:143-159 | state and trace become those of `AppointmentFlow` |
| Handler.MessageHandler.HandleAssistandFlow | src/services/messageHandler.js:161-179 | state and trace become those of `AssistantFlow` |
| Handler.MessageHandler.SendContact | src/services/messageHandler.js:181-229 | appends the fixed contact card and changes nothing else |
| Handler.MessageHandler.SendLocation | src/services/messageHandler.js:231-238 | appends the fixed location pin and changes nothing else |
| HandlerSpec.Normalize | src/services/messageHandler.js:14 | `toLowerCase().trim()` of the body; its properties are stated by `NormalizeShape` |
| HandlerSpec.IsGreeting | src/services/messageHandler.js:36-39 | whole-string membership in the list "hola", "hello", "hi", "buenas tardes" |
| HandlerSpec.FormatName | src/services/messageHandler.js:46-48 | the filter applied to the text before the first space; its properties are stated by `FormatNameCharacters` |
| HandlerSpec.MenuReply | src/services/messageHandler.js:72-91 | the reply chosen by the switch on the option, the fallback for every other value |
| HandlerSpec.ReplyText | src/services/messageHandler.js:75-90 | the exact strings of the menu replies and of the reason prompt (line 151) |
| HandlerSpec.Show | src/services/messageHandler.js:137-138 | a template literal shows a missing field as "undefined" |
| HandlerSpec.Render | src/services/messageHandler.js:49 | the string each text message carries: fixed reply, welcome (line 49), summary (lines 134-140), or the AI answer; `WelcomeLayout` and `SummaryLayout` state the layouts |
| HandlerSpec.MenuPrompt | src/services/messageHandler.js:54 | the prompts of the welcome menu and of the follow-up menu (line 165) |
| HandlerSpec.MenuButtons | src/services/messageHandler.js:55-65 | the button ids and titles of the welcome menu and of the follow-up menu (lines 166-170) |
| HandlerSpec.Transport | src/services/messageHandler.js:111-115 | each trace entry as the transport call it stands for; message entries keep their recipient, other entries have none. The document's kind, URL and caption (lines 111-115) and the location's name and address (lines 234-237) are the arguments passed |
| HandlerSpec.ValidAppointment | src/services/messageHandler.js:74 | an entry is at step "name" with nothing stored, or at step "reason" with a name stored (lines 149-150) |
| HandlerSpec.Valid | src/services/messageHandler.js:74-78 | the step invariant: every appointment entry is valid and every assistant entry is at step "question" |
| JsStrings.IsWhitespace | src/services/messageHandler.js:14 | the ECMAScript whitespace and line-terminator code points stripped by `trim` and matched by `\s` (line 48) |
| JsStrings.TrimStart | src/services/messageHandler.js:14 | drops leading whitespace; `TrimStartShape` states the result |
| JsStrings.TrimEnd | src/services/messageHandler.js:14 | drops trailing whitespace; `TrimEndShape` states the result |
| JsStrings.Trim | src/services/messageHandler.js:14 | `trim` as both steps; `TrimShape` and `TrimPadded` state the result |
| JsStrings.FirstToken | src/services/messageHandler.js:47 | `split(' ')[0]`; `FirstTokenShape` states the result |
| HandlerSpec.GetSenderName | src/services/messageHandler.js:41-43 | the display name when it is present and non-empty (JavaScript truthiness), otherwise `wa_id` |
| HandlerSpec.NormalizeShape | src/services/messageHandler.js:14 | the normalised text is lower-cased, no longer than the body, and has no whitespace at either end |
| HandlerSpec.FormatNameCharacters | src/services/messageHandler.js:46-48 | the formatted name is no longer than the name and holds only ASCII letters and whitespace other than U+0020; when the name's only whitespace is spaces, it holds ASCII letters only |
| HandlerSpec.WelcomeLayout | src/services/messageHandler.js:49 | the welcome text is "Hola ", then the formatted name, then the fixed invitation |
| HandlerSpec.SummaryLayout | src/services/messageHandler.js:134-140 | the summary carries the stored name and then the stored reason in their fixed lines, `undefined` for a missing one |
| HandlerSpec.MenuOption | src/services/messageHandler.js:70-95 | `option_1` sets the sender's appointment to step "name"; `option_2` sets its assistant entry to "question"; no other option changes state; no other sender's entry changes; the exact action sequence for each case: the location then the branch reply for `option_3`, the contact then the emergency reply for `option_6`, and the option's reply alone otherwise |
| HandlerSpec.CompleteAppointment | src/services/messageHandler.js:118-141 | the sender's entry is removed and nothing else changes; the row is `[to, name, reason, now]`; the summary is built from that entry's name and reason |
| HandlerSpec.AppointmentFlow | src/services/messageHandler.js:143-159 | in step "name": stores the text as name, moves to "reason", asks for the reason. In step "reason": exports `[to, name, text, now]`, deletes the entry, and sends the summary with that name and reason. Any other step: only `undefined` is sent. One text message every time; the assistant map and other senders are untouched |
| HandlerSpec.AssistantFlow | src/services/messageHandler.js:161-179 | the sender's entry is always deleted, whatever the AI result. In step "question" the text is asked and the answer (or `undefined`) is sent. The follow-up menu always comes last. Nothing else changes |
| HandlerSpec.RouteOf | src/services/messageHandler.js:13-33 | the dispatch priority as if-and-only-ifs: greeting, then "media", then an active appointment, then an active question, then the menu. Interactive replies go to the menu; other messages go nowhere |
| HandlerSpec.Respond | src/services/messageHandler.js:16-27 | the greeting and "media" branches leave both dictionaries unchanged, even when the sender is in the middle of a flow |
| HandlerSpec.HandleIncoming | src/services/messageHandler.js:12-34 | a text or interactive message ends with `MarkAsRead` of its id; any other message emits nothing and changes nothing; greeting and "media" keep the state |
| HandlerSpec.WelcomeActions | src/services/messageHandler.js:16-18 | the greeting's reply: only messages to the sender, no read receipt |
| HandlerSpec.MediaActions | src/services/messageHandler.js:19-20 | the "media" reply: only messages to the sender, no read receipt |
| HandlerProperties.ReceiptFollowsReply | src/services/messageHandler.js:28-32 | the read receipt comes right after the branch's reply, for text and interactive messages alike |
| HandlerProperties.StaysWithSender | src/services/messageHandler.js:12-33 | the read receipt is sent exactly once, as the last action; every outbound message goes to the sender; no other sender's entry changes |
| HandlerProperties.GreetingBranch | src/services/messageHandler.js:16-18 | a greeting gets the welcome and the menu, then the receipt; state unchanged |
| HandlerProperties.MediaBranch | src/services/messageHandler.js:19-20 | "media" gets the document, then the receipt; state unchanged |
| HandlerProperties.AppointmentBranch | src/services/messageHandler.js:21-22 | a sender with an appointment entry gets the appointment flow on the normalised text |
| HandlerProperties.AssistantBranch | src/services/messageHandler.js:23-24 | a sender with a pending question, and no appointment entry, gets the assistant flow |
| HandlerProperties.MenuBranch | src/services/messageHandler.js:25-31 | interactive replies go to the menu with their button id; unrouted text goes there as the normalised text |
| HandlerProperties.MenuOptionPreservesValid | src/services/messageHandler.js:70-95 | the menu keeps every appointment step in {name, reason} and every assistant step at "question" |
| HandlerProperties.AppointmentFlowPreservesValid | src/services/messageHandler.js:143-159 | the appointment flow keeps the step invariant |
| HandlerProperties.AssistantFlowPreservesValid | src/services/messageHandler.js:161-179 | the assistant flow keeps the step invariant |
| HandlerProperties.HandleIncomingPreservesValid | src/services/messageHandler.js:12-34 | every message keeps the step invariant, so it holds in every reachable state |
| HandlerProperties.ValidAppointmentRepliesDefined | src/services/messageHandler.js:147-158 | in a valid state the appointment flow never sends `undefined` |
| HandlerProperties.GreetingRepliesDefined | src/services/messageHandler.js:16-18 | the greeting's text messages all have a body |
| HandlerProperties.MediaRepliesDefined | src/services/messageHandler.js:19-20 | the "media" branch sends no text message without a body |
| HandlerProperties.AppointmentRepliesDefined | src/services/messageHandler.js:21-22 | in a valid state the appointment branch's text messages all have a body |
| HandlerProperties.AssistantRepliesDefined | src/services/messageHandler.js:23-24 | in a valid state, when the AI answered, the assistant branch's text messages all have a body |
| HandlerProperties.MenuRepliesDefined | src/services/messageHandler.js:25-27 | the menu's text messages all have a body |
| HandlerProperties.ValidRepliesAreDefined | src/services/messageHandler.js:12-34 | in a valid state the silent defaults are never reached: every text message has a body, except the AI answer when the service failed |
| HandlerProperties.ValidQuestionIsAsked | src/services/messageHandler.js:172-178 | in a valid state a pending question is always sent to the AI service; then the answer, the follow-up menu and the receipt follow, in that order |
| HandlerProperties.PaddedGreetingInAnyCase | src/services/messageHandler.js:14-16 | a listed greeting in any letter case, padded with any whitespace, is recognised |
| HandlerProperties.GreetingIsWholeText | src/services/messageHandler.js:36-39 | a greeting followed by a space and more text is not a greeting |
| HandlerProperties.PaddedUpperHolaIsGreeting | src/services/messageHandler.js:14-16 | "  HOLA  " is a greeting |
| HandlerProperties.HolaQueTalIsNotGreeting | src/services/messageHandler.js:36-39 | "hola que tal" is not a greeting |
| HandlerProperties.WelcomeFallsBackToWaId | src/services/messageHandler.js:41-49 | without a non-empty display name the welcome is built from `wa_id` |
| HandlerProperties.FormatNameKeepsPlainFirstName | src/services/messageHandler.js:46-48 | a first word made only of ASCII letters is kept whole |
| HandlerProperties.FirstTokenOfPrefix | src/services/messageHandler.js:47 | the first token of "first rest", where first has no space, is `first` |
| HandlerProperties.FormatNameExample | src/services/messageHandler.js:46-48 | "Jo3hn_ Pérez!!" is formatted as "John" |
| HandlerProperties.FormatNameDropsAccents | src/services/messageHandler.js:48 | "José" is formatted as "Jos": the filter is ASCII-only |
| HandlerProperties.FormatNameKeepsTab | src/services/messageHandler.js:47-48 | a tab inside the first word is kept in the formatted name |
| HandlerProperties.MenuIgnoresState | src/services/messageHandler.js:70-95 | the menu's outbound calls depend on the option alone, not on the state |
| HandlerProperties.FollowUpOptionsFallBack | src/services/messageHandler.js:89-91 | the follow-up buttons `option_4` and `option_5` have no case: they get the fallback reply and change nothing |
| HandlerProperties.BookingTakesTwoMessages | src/services/messageHandler.js:118-158 | `option_1`, then a name, then a reason. The name is stored lower-cased and the reason prompt sent. The reason exports `[to, name, reason, now]` once and sends the summary. The entry is then gone, and no other state differs |
| HandlerProperties.BothFlowsCanBeActive | src/services/messageHandler.js:74-78 | `option_2` then `option_1` leaves the sender with both an appointment entry and an assistant entry |
| HandlerProperties.NormalizeExample | src/services/messageHandler.js:14 | "Ana Torres" is normalised to "ana torres" |
| JsStrings.LowerChar | src/services/messageHandler.js:14 | one character's `toLowerCase` leaves no A-Z letter, keeps ASCII letters letters, and leaves whitespace alone |
| JsStrings.ToLower | src/services/messageHandler.js:14 | `toLowerCase` maps each character and keeps the length |
| JsStrings.ToLowerIsLowerCased | src/services/messageHandler.js:14 | the result of `toLowerCase` is a fixpoint of it |
| JsStrings.ToLowerConcat | src/services/messageHandler.js:14 | `toLowerCase` distributes over concatenation |
| JsStrings.TrimStartShape | src/services/messageHandler.js:14 | stripping leading whitespace keeps the longest suffix that does not start with whitespace; everything dropped is whitespace |
| JsStrings.TrimEndShape | src/services/messageHandler.js:14 | stripping trailing whitespace keeps the longest prefix that does not end with whitespace; everything dropped is whitespace |
| JsStrings.TrimShape | src/services/messageHandler.js:14 | `trim` leaves a slice of its input, with no whitespace at either end |
| JsStrings.TrimPadded | src/services/messageHandler.js:14 | `trim` removes exactly the whitespace padding around a core without edge whitespace |
| JsStrings.FirstTokenShape | src/services/messageHandler.js:47 | `split(' ')[0]` is a prefix without spaces, cut at the first space |
| JsStrings.StripNonLetters | src/services/messageHandler.js:48 | the filter never lengthens |
| JsStrings.StripNonLettersShape | src/services/messageHandler.js:48 | every character left is an ASCII letter or whitespace and comes from the input |
| JsStrings.StripNonLettersFixpoint | src/services/messageHandler.js:48 | the filter leaves a string unchanged if and only if it holds only ASCII letters and whitespace |
| JsStrings.StripNonLettersIdempotent | src/services/messageHandler.js:48 | filtering twice is filtering once |
| JsStrings.StripNonLettersConcat | src/services/messageHandler.js:48 | the filter distributes over concatenation |

## Left out

- The WhatsApp transport (`whatsappService`): HTTP calls are recorded only as trace entries (`SendMessage`, `SendButtons`, `SendMedia`, `SendLocation`, `SendContact`, `MarkAsRead`); that file is not part of this model.
- The spreadsheet export (`googleSheetsService`): recorded only as an `AppendToSheet` entry. In the code the call is not awaited; the model records it before the summary message that follows it.
- The AI service (`src/services/openAiService.js`): its answer is the parameter `ai`. `None` is the `undefined` it returns when the request fails.
- The timestamp `DateTime.now().setZone('America/Lima').toISO()`: a string parameter `now`.
- Fixed payloads. A trace entry names the call. `HandlerSpec.Transport` maps it to the call's arguments:
  - the rendered text and the reply id;
  - the menu prompt and buttons;
  - the document's kind, URL and caption;
  - the location's name and address.

  Left out of those arguments:
  - the contact card's fields;
  - the location pin's floating-point coordinates.
- async/await: every handler is modelled as a sequential method. An exception thrown by a transport call, which would stop the handler midway, is not modelled.
- Malformed input. The model's messages always carry `from`, `id` and a text body, and the sender info is always present. In the code:
  - A text message without `text.body` throws at line 14.
  - A missing `senderInfo` throws only on the greeting branch, in `getSenderName` at line 42.
  - A missing `from` does not throw. The dictionaries are then read and written under the key "undefined" (lines 21, 23, 74, 78), and the transport receives an undefined recipient. The model covers the dictionary side only as a sender whose id is the string "undefined"; it does not model an undefined recipient.
- Object-key oddities of JavaScript dictionaries, such as a sender id equal to an `Object.prototype` property name or the `length` of the array that `assistandState` starts as: sender ids are assumed to be plain phone-number strings.
- JsStrings.LowerChar: maps only A-Z and U+00C0..U+00DE except U+00D7. Other scripts' case mappings, and mappings that change the length, are not modelled; those characters stay unchanged. Characters are code points, not UTF-16 units.
- HandlerSpec.GetSenderName: a `profile.name` that is not a string is not modelled.
