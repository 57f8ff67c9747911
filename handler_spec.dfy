/**
 * The conversation router of the dental-clinic WhatsApp bot, as values: the
 * per-sender conversation state, the outbound calls it makes (a trace of
 * actions), and one specification function per handler of the
 * `MessageHandler` class. The class in module Handler is proved to follow
 * these functions.
 */
module HandlerSpec {
  import opened Wrappers
  import opened JsStrings

  // ---------------------------------------------------------------------
  // Outbound calls: the WhatsApp transport, the spreadsheet export and the
  // AI completion service, each recorded as one trace entry.
  // ---------------------------------------------------------------------

  /** The fixed replies of the JavaScript handler; `Render` spells each one out. */
  datatype Reply =
    | NamePrompt | QuestionPrompt | BranchReply | EmergencyReply | FallbackReply | ReasonPrompt

  /** The body of a text message: a fixed reply, the personalised welcome,
      the appointment summary, or the AI service's answer. */
  datatype Text =
    | Fixed(reply: Reply)
    | Welcome(firstName: string)
    | Summary(name: Option<string>, reason: Option<string>)  // None field: `undefined`
    | Answer(answer: string)

  /** The two button menus. */
  datatype Menu = WelcomeMenu | FollowUpMenu

  datatype Button = Button(id: string, title: string)

  datatype Action =
    | SendMessage(to: string, body: Option<Text>, replyTo: Option<string>)  // None body: `undefined`
    | SendButtons(to: string, menu: Menu)
    | SendMedia(to: string)     // the fixed sample document
    | SendLocation(to: string)  // the clinic's fixed location pin
    | SendContact(to: string)   // the clinic's fixed contact card
    | MarkAsRead(messageId: string)
    | AppendToSheet(row: seq<Option<string>>)  // None cell: `undefined`
    | AskAssistant(question: string)

  /** The outbound messages of `acts` all go to `to`. */
  predicate AllTo(acts: seq<Action>, to: string) {
    forall i :: 0 <= i < |acts| ==>
      (acts[i].SendMessage? || acts[i].SendButtons? || acts[i].SendMedia? ||
       acts[i].SendLocation? || acts[i].SendContact?) ==> acts[i].to == to
  }

  predicate NoReceipt(acts: seq<Action>) {
    forall i :: 0 <= i < |acts| ==> !acts[i].MarkAsRead?
  }

  /** How many plain text messages `acts` sends. */
  function TextCount(acts: seq<Action>): nat {
    if acts == [] then 0
    else (if acts[0].SendMessage? then 1 else 0) + TextCount(acts[1..])
  }

  lemma TextCountPair(a: Action, b: Action)
    ensures TextCount([a, b]) == (if a.SendMessage? then 1 else 0) + (if b.SendMessage? then 1 else 0)
  {
    assert [a, b][1..] == [b];
    assert [b][1..] == [];
    assert TextCount([b]) == (if b.SendMessage? then 1 else 0) + TextCount([]);
  }

  lemma TextCountTriple(a: Action, b: Action, c: Action)
    ensures TextCount([a, b, c]) ==
      (if a.SendMessage? then 1 else 0) + (if b.SendMessage? then 1 else 0) + (if c.SendMessage? then 1 else 0)
  {
    assert [a, b, c][1..] == [b, c];
    TextCountPair(b, c);
  }

  // ---------------------------------------------------------------------
  // Inbound events and sender information
  // ---------------------------------------------------------------------

  datatype Profile = Profile(name: Option<string>)
  datatype SenderInfo = SenderInfo(profile: Option<Profile>, waId: string)

  datatype Message =
    | TextMessage(from: string, id: string, body: string)
    | InteractiveMessage(from: string, id: string, buttonId: Option<string>)
    | OtherMessage  // any other message type, or no message at all

  // ---------------------------------------------------------------------
  // Conversation state, kept per sender
  // ---------------------------------------------------------------------

  /** `{step, name?, reason?}`; the step is the string the JavaScript handler stores. */
  datatype Appointment = Appointment(step: string, name: Option<string>, reason: Option<string>)

  /** `{step}` of the assistant flow. */
  datatype AssistantEntry = AssistantEntry(step: string)

  datatype Conversations = Conversations(
    appointments: map<string, Appointment>,
    assistant: map<string, AssistantEntry>)

  /** The new state after one call and the actions it emitted, in order. */
  datatype Effect = Effect(state: Conversations, actions: seq<Action>)

  const NoConversations := Conversations(map[], map[])

  /** Every appointment entry is either waiting for the name (nothing stored
      yet) or waiting for the reason (the name stored); every assistant
      entry waits for the question. */
  predicate ValidAppointment(a: Appointment) {
    || (a.step == "name" && a.name.None? && a.reason.None?)
    || (a.step == "reason" && a.name.Some? && a.reason.None?)
  }

  predicate Valid(st: Conversations) {
    && (forall k :: k in st.appointments ==> ValidAppointment(st.appointments[k]))
    && (forall k :: k in st.assistant ==> st.assistant[k].step == "question")
  }

  /** Nothing but the entries of `to` differs between `st` and `st'`. */
  predicate OthersUntouched(st: Conversations, st': Conversations, to: string) {
    && st'.appointments - {to} == st.appointments - {to}
    && st'.assistant - {to} == st.assistant - {to}
  }

  lemma UpdateLeavesOthers<V>(m: map<string, V>, k: string, v: V)
    ensures m[k := v] - {k} == m - {k}
  {
  }

  lemma RemoveLeavesOthers<V>(m: map<string, V>, k: string)
    ensures (m - {k}) - {k} == m - {k}
  {
  }

  // ---------------------------------------------------------------------
  // Fixed texts, menus and payloads
  // ---------------------------------------------------------------------

  const Greetings: seq<string> := ["hola", "hello", "hi", "buenas tardes"]

  const WelcomeHead := "Hola "
  const WelcomeTail := ", Bienvenido a nuestro Servicio Odontológico Muelita online.¿En que puedo ayudarte hoy?"

  const SummaryHead := "Gracias por agendar tu cita. \n    Resumen de tu cita:\n    \n    Nombre: "
  const SummaryMiddle := "\n    Motivo: "
  const SummaryTail := "\n    \n    Nos pondremos en contacto contigo pronto para confirmar la fecha y hora de tu cita."

  function ReplyText(r: Reply): string {
    match r
    case NamePrompt => "Por favor ingresa tu nombre y apellido:"
    case QuestionPrompt => "Realiza tu consulta"
    case BranchReply => "Te esperamos en nuestra sucursal."
    case EmergencyReply => "Si esto es una emergencia, te invitamos a llamar a nuestra linea de atención"
    case FallbackReply => "Lo siento, no entendí tu selección. Por favor, elige una de las opciones del menú."
    case ReasonPrompt => "¿Cuál es el motivo de la Consulta?"
  }

  /** A JavaScript template literal shows `undefined` for a missing field. */
  function Show(field: Option<string>): string {
    field.GetOr("undefined")
  }

  /** The string a text message carries. */
  function Render(t: Text): string {
    match t
    case Fixed(r) => ReplyText(r)
    case Welcome(n) => WelcomeHead + n + WelcomeTail
    case Summary(n, r) => SummaryHead + Show(n) + SummaryMiddle + Show(r) + SummaryTail
    case Answer(a) => a
  }

  lemma PartsOfThree(a: string, b: string, c: string)
    ensures var t := a + b + c;
      && |t| == |a| + |b| + |c|
      && t[..|a|] == a && t[|a|..|a| + |b|] == b && t[|a| + |b|..] == c
  {
    var t := a + b + c;
    assert t[..|a|] == a;
    assert t[|a|..|a| + |b|] == b;
  }

  lemma SliceWithinPrefix(t: string, p: string, i: nat, k: nat)
    requires |p| <= |t| && t[..|p|] == p && i <= k <= |p|
    ensures t[i..k] == p[i..k]
  {
    forall n | 0 <= n < k - i ensures t[i..k][n] == p[i..k][n] {
      assert t[i..k][n] == t[..|p|][i + n];
    }
  }

  lemma PartsOfFive(a: string, b: string, c: string, d: string, e: string)
    ensures var t := a + b + c + d + e;
      var i, j := |a| + |b|, |a| + |b| + |c|;
      && |t| == j + |d| + |e|
      && t[..|a|] == a && t[|a|..i] == b && t[i..j] == c && t[j..j + |d|] == d && t[j + |d|..] == e
  {
    var p3 := a + b + c;
    var p4 := p3 + d;
    var t := p4 + e;
    var i, j := |a| + |b|, |a| + |b| + |c|;
    PartsOfThree(a, b, c);
    assert t[..|p4|] == p4 && p4[..|p3|] == p3 && p4[|p3|..] == d;
    SliceWithinPrefix(t, p4, 0, |p3|);
    SliceWithinPrefix(t, p4, |p3|, |p4|);
    SliceWithinPrefix(t, p3, 0, |a|);
    SliceWithinPrefix(t, p3, |a|, i);
    SliceWithinPrefix(t, p3, i, j);
  }

  /** The welcome opens with "Hola ", then the first name, then the fixed
      invitation. */
  lemma WelcomeLayout(firstName: string)
    ensures var t := Render(Welcome(firstName));
      && |t| == |WelcomeHead| + |firstName| + |WelcomeTail|
      && t[..|WelcomeHead|] == WelcomeHead
      && t[|WelcomeHead|..|WelcomeHead| + |firstName|] == firstName
      && t[|WelcomeHead| + |firstName|..] == WelcomeTail
  {
    PartsOfThree(WelcomeHead, firstName, WelcomeTail);
  }

  /** The summary shows the stored name and then the stored reason, each in
      its fixed line, `undefined` for a missing one. */
  lemma SummaryLayout(name: Option<string>, reason: Option<string>)
    ensures var t := Render(Summary(name, reason));
      var n, r := Show(name), Show(reason);
      var i, j := |SummaryHead| + |n|, |SummaryHead| + |n| + |SummaryMiddle|;
      && |t| == j + |r| + |SummaryTail|
      && t[..|SummaryHead|] == SummaryHead
      && t[|SummaryHead|..i] == n
      && t[i..j] == SummaryMiddle
      && t[j..j + |r|] == r
      && t[j + |r|..] == SummaryTail
  {
    PartsOfFive(SummaryHead, Show(name), SummaryMiddle, Show(reason), SummaryTail);
  }

  function MenuPrompt(m: Menu): string {
    match m
    case WelcomeMenu => "Elige una Opción"
    case FollowUpMenu => "¿La respuesta fue de tu ayuda?"
  }

  function MenuButtons(m: Menu): seq<Button> {
    match m
    case WelcomeMenu => [Button("option_1", "Agendar"), Button("option_2", "Consultar"), Button("option_3", "Ubicación")]
    case FollowUpMenu => [Button("option_4", "Si, Gracias"), Button("option_5", "Hacer otra pregunta"), Button("option_6", "Emergencia")]
  }

  /** The sample document of `sendMedia`: kind, URL and caption. */
  const MediaKind := "document"
  const MediaUrl := "https://s3.us-east-1.amazonaws.com/muelita.dev/muelita-file.pdf"
  const MediaCaption := "¡Esto es un PDF!"

  /** The name and address of the location pin of `sendLocation`. */
  const ClinicName := "Doctor Muelita"
  const ClinicAddress := "Manuel Aguirre 133a, Yanahuara, Aerquipa."

  /** The outbound call a trace entry stands for, with the arguments the
      JavaScript handler passes. The contact card's fields and the location's
      coordinates are not carried. */
  datatype Call =
    | TextCall(to: string, text: Option<string>, replyTo: Option<string>)  // sendMessage
    | ButtonsCall(to: string, prompt: string, buttons: seq<Button>)      // sendInteractiveButtons
    | MediaCall(to: string, kind: string, url: string, caption: string)  // sendMediaMessage
    | LocationCall(to: string, name: string, address: string)            // sendLocationMessage
    | ContactCall(to: string)                                            // sendContactMessage
    | ReadCall(messageId: string)                                        // markAsRead
    | SheetCall(row: seq<Option<string>>)                                // appendToSheet
    | AiCall(question: string)                                           // openAiService

  /** Each message entry becomes a call of the transport to the same
      recipient; the other entries become calls without one. */
  function Transport(a: Action): (c: Call)
    ensures (a.SendMessage? || a.SendButtons? || a.SendMedia? || a.SendLocation? || a.SendContact?)
            <==> (c.TextCall? || c.ButtonsCall? || c.MediaCall? || c.LocationCall? || c.ContactCall?)
    ensures (c.TextCall? || c.ButtonsCall? || c.MediaCall? || c.LocationCall? || c.ContactCall?) ==> c.to == a.to
  {
    match a
    case SendMessage(to, body, replyTo) => TextCall(to, if body.Some? then Some(Render(body.value)) else None, replyTo)
    case SendButtons(to, menu) => ButtonsCall(to, MenuPrompt(menu), MenuButtons(menu))
    case SendMedia(to) => MediaCall(to, MediaKind, MediaUrl, MediaCaption)
    case SendLocation(to) => LocationCall(to, ClinicName, ClinicAddress)
    case SendContact(to) => ContactCall(to)
    case MarkAsRead(id) => ReadCall(id)
    case AppendToSheet(row) => SheetCall(row)
    case AskAssistant(q) => AiCall(q)
  }

  // ---------------------------------------------------------------------
  // Pure helpers
  // ---------------------------------------------------------------------

  /** `message.text.body.toLowerCase().trim()`. */
  function Normalize(body: string): string {
    Trim(ToLower(body))
  }

  /** The normalised text is lower-cased, no longer than the body, and has
      no whitespace at either end. */
  lemma NormalizeShape(body: string)
    ensures var text := Normalize(body);
      && |text| <= |body|
      && IsLowerCased(text)
      && (text == [] || (!IsWhitespace(text[0]) && !IsWhitespace(text[|text| - 1])))
  {
    ToLowerIsLowerCased(body);
    TrimKeepsLowerCased(ToLower(body));
    TrimShape(ToLower(body));
  }

  /** `isGreeting`: whole-string membership in the fixed greeting list. */
  predicate IsGreeting(text: string) {
    text in Greetings
  }

  /** The display name counts only when present and non-empty (JavaScript
      truthiness of a string). */
  predicate HasDisplayName(sender: SenderInfo) {
    sender.profile.Some? && sender.profile.value.name.Some? && sender.profile.value.name.value != ""
  }

  /** `getSenderName`: `profile?.name || wa_id`. */
  function GetSenderName(sender: SenderInfo): (name: string)
    ensures HasDisplayName(sender) ==> name == sender.profile.value.name.value && name != ""
    ensures !HasDisplayName(sender) ==> name == sender.waId
  {
    if HasDisplayName(sender) then sender.profile.value.name.value else sender.waId
  }

  /** The name formatting of `sendWelcomeMessage`: the text before the first
      space with everything but ASCII letters and whitespace removed. */
  function FormatName(name: string): string {
    StripNonLetters(FirstToken(name))
  }

  /** What the formatting leaves holds ASCII letters and, since the first
      space cut the token, whitespace other than U+0020 only; for a name
      whose only whitespace is spaces, ASCII letters only. */
  lemma FormatNameCharacters(name: string)
    ensures var r := FormatName(name);
      && |r| <= |name|
      && (forall i :: 0 <= i < |r| ==> IsAsciiLetter(r[i]) || (IsWhitespace(r[i]) && r[i] != ' '))
      && ((forall i :: 0 <= i < |name| ==> IsWhitespace(name[i]) ==> name[i] == ' ') ==>
            forall i :: 0 <= i < |r| ==> IsAsciiLetter(r[i]))
  {
    var token := FirstToken(name);
    var r := StripNonLetters(token);
    FirstTokenShape(name);
    StripNonLettersShape(token);
    assert forall i :: 0 <= i < |r| ==> r[i] in token && r[i] != ' ';
    assert forall c :: c in token ==> c in name;
  }

  // ---------------------------------------------------------------------
  // The handlers, as functions of the state before the call
  // ---------------------------------------------------------------------

  /** The reply text of `handleMenuOption` for a button id (or normalised
      text); `None` is an interactive reply without a button id. */
  function MenuReply(option: Option<string>): Reply {
    if option == Some("option_1") then NamePrompt
    else if option == Some("option_2") then QuestionPrompt
    else if option == Some("option_3") then BranchReply
    else if option == Some("option_6") then EmergencyReply
    else FallbackReply
  }

  /** `handleMenuOption`: a lookup on the option alone. Only option_1 and
      option_2 change state, each in one map at the sender's key; one text
      reply is always sent last, after a location pin for option_3 or the
      contact card for option_6. */
  function MenuOption(st: Conversations, to: string, option: Option<string>): (e: Effect)
    ensures e.state.appointments ==
      if option == Some("option_1") then st.appointments[to := Appointment("name", None, None)] else st.appointments
    ensures e.state.assistant ==
      if option == Some("option_2") then st.assistant[to := AssistantEntry("question")] else st.assistant
    ensures 1 <= |e.actions| && e.actions[|e.actions| - 1] == SendMessage(to, Some(Fixed(MenuReply(option))), None)
    ensures TextCount(e.actions) == 1
    ensures |e.actions| == 2 <==> (option == Some("option_3") || option == Some("option_6"))
    ensures option == Some("option_3") ==>
      e.actions == [SendLocation(to), SendMessage(to, Some(Fixed(BranchReply)), None)]
    ensures option == Some("option_6") ==>
      e.actions == [SendContact(to), SendMessage(to, Some(Fixed(EmergencyReply)), None)]
    ensures option != Some("option_3") && option != Some("option_6") ==>
      e.actions == [SendMessage(to, Some(Fixed(MenuReply(option))), None)]
    ensures NoReceipt(e.actions) && AllTo(e.actions, to) && OthersUntouched(st, e.state, to)
  {
    UpdateLeavesOthers(st.appointments, to, Appointment("name", None, None));
    UpdateLeavesOthers(st.assistant, to, AssistantEntry("question"));
    var reply := SendMessage(to, Some(Fixed(MenuReply(option))), None);
    if option == Some("option_1") then
      Effect(st.(appointments := st.appointments[to := Appointment("name", None, None)]), [reply])
    else if option == Some("option_2") then
      Effect(st.(assistant := st.assistant[to := AssistantEntry("question")]), [reply])
    else if option == Some("option_3") then
      TextCountPair(SendLocation(to), reply);
      Effect(st, [SendLocation(to), reply])
    else if option == Some("option_6") then
      TextCountPair(SendContact(to), reply);
      Effect(st, [SendContact(to), reply])
    else
      Effect(st, [reply])
  }

  /** What `completeAppointment` produces: the new state, the exported row
      and the summary it returns. */
  datatype Completion = Completion(state: Conversations, row: seq<Option<string>>, summary: Text)

  /** `completeAppointment`: removes the sender's entry and exports
      `[to, name, reason, timestamp]`. */
  function CompleteAppointment(st: Conversations, to: string, now: string): (c: Completion)
    requires to in st.appointments
    ensures to !in c.state.appointments && c.state.appointments == st.appointments - {to}
    ensures c.state.assistant == st.assistant
    ensures c.row == [Some(to), st.appointments[to].name, st.appointments[to].reason, Some(now)]
    ensures c.summary == Summary(st.appointments[to].name, st.appointments[to].reason)
  {
    var a := st.appointments[to];
    Completion(st.(appointments := st.appointments - {to}), [Some(to), a.name, a.reason, Some(now)],
               Summary(a.name, a.reason))
  }

  /** `handleAppointmentFlow` on the normalised text. In step "name" it
      stores the name and asks for the reason; in step "reason" it stores
      the reason, completes the appointment and replies with the summary;
      any other step sends `undefined`. */
  function AppointmentFlow(st: Conversations, to: string, text: string, now: string): (e: Effect)
    requires to in st.appointments
    ensures e.state.assistant == st.assistant && OthersUntouched(st, e.state, to)
    ensures var a := st.appointments[to];
      a.step == "name" ==>
        && to in e.state.appointments
        && e.state.appointments[to] == a.(step := "reason", name := Some(text))
        && e.actions == [SendMessage(to, Some(Fixed(ReasonPrompt)), None)]
    ensures var a := st.appointments[to];
      a.step == "reason" ==>
        && to !in e.state.appointments
        && e.actions == [AppendToSheet([Some(to), a.name, Some(text), Some(now)]),
                         SendMessage(to, Some(Summary(a.name, Some(text))), None)]
    ensures var a := st.appointments[to];
      a.step != "name" && a.step != "reason" ==> e == Effect(st, [SendMessage(to, None, None)])
    ensures NoReceipt(e.actions) && AllTo(e.actions, to) && TextCount(e.actions) == 1
  {
    var a := st.appointments[to];
    UpdateLeavesOthers(st.appointments, to, a.(step := "reason", name := Some(text)));
    UpdateLeavesOthers(st.appointments, to, a.(reason := Some(text)));
    RemoveLeavesOthers(st.appointments, to);
    if a.step == "name" then
      Effect(st.(appointments := st.appointments[to := a.(step := "reason", name := Some(text))]),
             [SendMessage(to, Some(Fixed(ReasonPrompt)), None)])
    else if a.step == "reason" then
      var c := CompleteAppointment(st.(appointments := st.appointments[to := a.(reason := Some(text))]), to, now);
      TextCountPair(AppendToSheet(c.row), SendMessage(to, Some(c.summary), None));
      Effect(c.state, [AppendToSheet(c.row), SendMessage(to, Some(c.summary), None)])
    else
      Effect(st, [SendMessage(to, None, None)])
  }

  /** `handleAssistandFlow`: in step "question" the text goes to the AI
      service and its answer (`None` when the service failed) is the reply.
      Whatever the step and the answer, the entry is deleted and the reply
      is followed by the fixed three-button menu. */
  function AssistantFlow(st: Conversations, to: string, text: string, ai: Option<string>): (e: Effect)
    requires to in st.assistant
    ensures e.state.appointments == st.appointments
    ensures to !in e.state.assistant && e.state.assistant == st.assistant - {to}
    ensures 2 <= |e.actions| && e.actions[|e.actions| - 2].SendMessage? && e.actions[|e.actions| - 2].to == to
    ensures e.actions[|e.actions| - 1] == SendButtons(to, FollowUpMenu)
    ensures OthersUntouched(st, e.state, to)
    ensures st.assistant[to].step == "question" ==>
      e.actions == [AskAssistant(text), SendMessage(to, if ai.Some? then Some(Answer(ai.value)) else None, None), SendButtons(to, FollowUpMenu)]
    ensures st.assistant[to].step != "question" ==>
      e.actions == [SendMessage(to, None, None), SendButtons(to, FollowUpMenu)]
    ensures NoReceipt(e.actions) && AllTo(e.actions, to) && TextCount(e.actions) == 1
  {
    RemoveLeavesOthers(st.assistant, to);
    var asked := st.assistant[to].step == "question";
    var response := if asked && ai.Some? then Some(Answer(ai.value)) else None;
    var tail := [SendMessage(to, response, None), SendButtons(to, FollowUpMenu)];
    TextCountPair(tail[0], tail[1]);
    TextCountTriple(AskAssistant(text), tail[0], tail[1]);
    assert [AskAssistant(text)] + tail == [AskAssistant(text), tail[0], tail[1]];
    Effect(st.(assistant := st.assistant - {to}), if asked then [AskAssistant(text)] + tail else tail)
  }

  /** The branch `handleIncomingMessage` takes. */
  datatype Route = GreetRoute | MediaRoute | AppointmentRoute | AssistantRoute | MenuRoute | NoRoute

  /** The dispatch priority: greeting, then "media", then an active
      appointment, then an active assistant question, then the menu; an
      interactive reply always goes to the menu and other messages nowhere. */
  function RouteOf(st: Conversations, m: Message): (r: Route)
    ensures m.OtherMessage? <==> r == NoRoute
    ensures m.InteractiveMessage? ==> r == MenuRoute
    ensures m.TextMessage? ==> (r == GreetRoute <==> IsGreeting(Normalize(m.body)))
    ensures m.TextMessage? ==> (r == MediaRoute <==> !IsGreeting(Normalize(m.body)) && Normalize(m.body) == "media")
    ensures m.TextMessage? ==> (r == AppointmentRoute <==>
      !IsGreeting(Normalize(m.body)) && Normalize(m.body) != "media" && m.from in st.appointments)
    ensures m.TextMessage? ==> (r == AssistantRoute <==>
      !IsGreeting(Normalize(m.body)) && Normalize(m.body) != "media" && m.from !in st.appointments && m.from in st.assistant)
  {
    match m
    case OtherMessage => NoRoute
    case InteractiveMessage(_, _, _) => MenuRoute
    case TextMessage(from, _, body) =>
      var text := Normalize(body);
      if IsGreeting(text) then GreetRoute
      else if text == "media" then MediaRoute
      else if from in st.appointments then AppointmentRoute
      else if from in st.assistant then AssistantRoute
      else MenuRoute
  }

  /** The welcome reply, answering the greeting, and the three-option menu. */
  function WelcomeActions(to: string, messageId: string, sender: SenderInfo): (acts: seq<Action>)
    ensures NoReceipt(acts) && AllTo(acts, to)
  {
    [SendMessage(to, Some(Welcome(FormatName(GetSenderName(sender)))), Some(messageId)), SendButtons(to, WelcomeMenu)]
  }

  /** `sendMedia`: the fixed sample document. */
  function MediaActions(to: string): (acts: seq<Action>)
    ensures NoReceipt(acts) && AllTo(acts, to)
  {
    [SendMedia(to)]
  }

  /** What `handleIncomingMessage` does before the read receipt, for a text
      or interactive message. */
  function Respond(st: Conversations, m: Message, sender: SenderInfo, ai: Option<string>, now: string): (e: Effect)
    requires !m.OtherMessage?
    ensures (RouteOf(st, m) == GreetRoute || RouteOf(st, m) == MediaRoute) ==> e.state == st
  {
    match m
    case InteractiveMessage(from, _, button) => MenuOption(st, from, button)
    case TextMessage(from, id, body) =>
      var text := Normalize(body);
      match RouteOf(st, m)
      case GreetRoute => Effect(st, WelcomeActions(from, id, sender))
      case MediaRoute => Effect(st, MediaActions(from))
      case AppointmentRoute => AppointmentFlow(st, from, text, now)
      case AssistantRoute => AssistantFlow(st, from, text, ai)
      case _ => MenuOption(st, from, Some(text))
  }

  /** `handleIncomingMessage`. A text or interactive message is answered
      and then marked as read, last; anything else is ignored. */
  function HandleIncoming(st: Conversations, m: Message, sender: SenderInfo, ai: Option<string>, now: string): (e: Effect)
    ensures m.OtherMessage? ==> e == Effect(st, [])
    ensures !m.OtherMessage? ==>
      1 <= |e.actions| && e.actions[|e.actions| - 1] == MarkAsRead(m.id)
    ensures (RouteOf(st, m) == GreetRoute || RouteOf(st, m) == MediaRoute) ==> e.state == st
  {
    if m.OtherMessage? then Effect(st, [])
    else
      var r := Respond(st, m, sender, ai, now);
      Effect(r.state, r.actions + [MarkAsRead(m.id)])
  }
}
