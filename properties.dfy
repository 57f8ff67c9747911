/**
 * Properties of the conversation router that relate several calls or hold
 * for every input: the state invariant, the detection of greetings, the
 * name formatting, and whole conversations.
 */
module HandlerProperties {
  import opened Wrappers
  import opened JsStrings
  import opened HandlerSpec

  // ---------------------------------------------------------------------
  // handleIncomingMessage, branch by branch
  // ---------------------------------------------------------------------

  /** A text or interactive message gets the reply of its branch, then the
      read receipt. */
  lemma ReceiptFollowsReply(st: Conversations, m: Message, sender: SenderInfo, ai: Option<string>, now: string)
    requires !m.OtherMessage?
    ensures var r := Respond(st, m, sender, ai, now);
            HandleIncoming(st, m, sender, ai, now) == Effect(r.state, r.actions + [MarkAsRead(m.id)])
  {
  }

  lemma GreetingBranch(st: Conversations, m: Message, sender: SenderInfo, ai: Option<string>, now: string)
    requires RouteOf(st, m) == GreetRoute
    ensures HandleIncoming(st, m, sender, ai, now) == Effect(st, WelcomeActions(m.from, m.id, sender) + [MarkAsRead(m.id)])
  {
    ReceiptFollowsReply(st, m, sender, ai, now);
  }

  lemma MediaBranch(st: Conversations, m: Message, sender: SenderInfo, ai: Option<string>, now: string)
    requires RouteOf(st, m) == MediaRoute
    ensures HandleIncoming(st, m, sender, ai, now) == Effect(st, MediaActions(m.from) + [MarkAsRead(m.id)])
  {
    ReceiptFollowsReply(st, m, sender, ai, now);
  }

  lemma AppointmentBranch(st: Conversations, m: Message, sender: SenderInfo, ai: Option<string>, now: string)
    requires RouteOf(st, m) == AppointmentRoute
    ensures m.TextMessage? && m.from in st.appointments
    ensures var f := AppointmentFlow(st, m.from, Normalize(m.body), now);
            HandleIncoming(st, m, sender, ai, now) == Effect(f.state, f.actions + [MarkAsRead(m.id)])
  {
    ReceiptFollowsReply(st, m, sender, ai, now);
  }

  lemma AssistantBranch(st: Conversations, m: Message, sender: SenderInfo, ai: Option<string>, now: string)
    requires RouteOf(st, m) == AssistantRoute
    ensures m.TextMessage? && m.from in st.assistant
    ensures var f := AssistantFlow(st, m.from, Normalize(m.body), ai);
            HandleIncoming(st, m, sender, ai, now) == Effect(f.state, f.actions + [MarkAsRead(m.id)])
  {
    ReceiptFollowsReply(st, m, sender, ai, now);
  }

  /** Interactive replies always go to the menu with their button id; text
      that no earlier branch takes goes there as the normalised text. */
  lemma MenuBranch(st: Conversations, m: Message, sender: SenderInfo, ai: Option<string>, now: string)
    requires RouteOf(st, m) == MenuRoute
    ensures var f := MenuOption(st, m.from, if m.InteractiveMessage? then m.buttonId else Some(Normalize(m.body)));
            HandleIncoming(st, m, sender, ai, now) == Effect(f.state, f.actions + [MarkAsRead(m.id)])
  {
    ReceiptFollowsReply(st, m, sender, ai, now);
  }

  lemma {:induction false} StaysWithSenderAppend(f: Effect, st: Conversations, to: string, id: string)
    requires NoReceipt(f.actions) && AllTo(f.actions, to) && OthersUntouched(st, f.state, to)
    ensures var acts := f.actions + [MarkAsRead(id)];
      NoReceipt(acts[..|acts| - 1]) && AllTo(acts, to) && OthersUntouched(st, f.state, to)
  {
    var acts := f.actions + [MarkAsRead(id)];
    assert acts[..|acts| - 1] == f.actions;
    forall i | 0 <= i < |acts| ensures acts[i].SendMessage? ==> acts[i].to == to {
      if i < |f.actions| {
        assert acts[i] == f.actions[i];
      }
    }
  }

  /** The read receipt is sent exactly once, last; every outbound message
      goes to the sender, and only the sender's own entries can change. */
  lemma StaysWithSender(st: Conversations, m: Message, sender: SenderInfo, ai: Option<string>, now: string)
    requires !m.OtherMessage?
    ensures var e := HandleIncoming(st, m, sender, ai, now);
      && 1 <= |e.actions| && e.actions[|e.actions| - 1] == MarkAsRead(m.id)
      && NoReceipt(e.actions[..|e.actions| - 1])
      && AllTo(e.actions, m.from)
      && OthersUntouched(st, e.state, m.from)
  {
    match RouteOf(st, m)
    case GreetRoute =>
      GreetingBranch(st, m, sender, ai, now);
      StaysWithSenderAppend(Effect(st, WelcomeActions(m.from, m.id, sender)), st, m.from, m.id);
    case MediaRoute =>
      MediaBranch(st, m, sender, ai, now);
      StaysWithSenderAppend(Effect(st, MediaActions(m.from)), st, m.from, m.id);
    case AppointmentRoute =>
      AppointmentBranch(st, m, sender, ai, now);
      StaysWithSenderAppend(AppointmentFlow(st, m.from, Normalize(m.body), now), st, m.from, m.id);
    case AssistantRoute =>
      AssistantBranch(st, m, sender, ai, now);
      StaysWithSenderAppend(AssistantFlow(st, m.from, Normalize(m.body), ai), st, m.from, m.id);
    case MenuRoute =>
      MenuBranch(st, m, sender, ai, now);
      StaysWithSenderAppend(MenuOption(st, m.from, if m.InteractiveMessage? then m.buttonId else Some(Normalize(m.body))),
                            st, m.from, m.id);
  }

  // ---------------------------------------------------------------------
  // The state invariant
  // ---------------------------------------------------------------------

  lemma MenuOptionPreservesValid(st: Conversations, to: string, option: Option<string>)
    requires Valid(st)
    ensures Valid(MenuOption(st, to, option).state)
  {
  }

  lemma AppointmentFlowPreservesValid(st: Conversations, to: string, text: string, now: string)
    requires Valid(st) && to in st.appointments
    ensures Valid(AppointmentFlow(st, to, text, now).state)
  {
    var e := AppointmentFlow(st, to, text, now);
    forall k | k in e.state.appointments ensures ValidAppointment(e.state.appointments[k]) {
      if k != to {
        assert k in e.state.appointments - {to};
      }
    }
  }

  lemma AssistantFlowPreservesValid(st: Conversations, to: string, text: string, ai: Option<string>)
    requires Valid(st) && to in st.assistant
    ensures Valid(AssistantFlow(st, to, text, ai).state)
  {
  }

  /** From the empty state, every reachable state keeps every appointment
      step in {name, reason} and every assistant step at "question". */
  lemma HandleIncomingPreservesValid(st: Conversations, m: Message, sender: SenderInfo, ai: Option<string>, now: string)
    requires Valid(st)
    ensures Valid(HandleIncoming(st, m, sender, ai, now).state)
  {
    match RouteOf(st, m)
    case NoRoute =>
    case GreetRoute => GreetingBranch(st, m, sender, ai, now);
    case MediaRoute => MediaBranch(st, m, sender, ai, now);
    case AppointmentRoute =>
      AppointmentBranch(st, m, sender, ai, now);
      AppointmentFlowPreservesValid(st, m.from, Normalize(m.body), now);
    case AssistantRoute =>
      AssistantBranch(st, m, sender, ai, now);
      AssistantFlowPreservesValid(st, m.from, Normalize(m.body), ai);
    case MenuRoute =>
      MenuBranch(st, m, sender, ai, now);
      MenuOptionPreservesValid(st, m.from, if m.InteractiveMessage? then m.buttonId else Some(Normalize(m.body)));
  }

  predicate RepliesDefined(acts: seq<Action>) {
    forall i :: 0 <= i < |acts| && acts[i].SendMessage? ==> acts[i].body.Some?
  }

  lemma {:induction false} RepliesDefinedAppend(a: seq<Action>, b: seq<Action>)
    requires RepliesDefined(a) && RepliesDefined(b)
    ensures RepliesDefined(a + b)
  {
    forall i | 0 <= i < |a + b| && (a + b)[i].SendMessage? ensures (a + b)[i].body.Some? {
      if i >= |a| {
        assert (a + b)[i] == b[i - |a|];
      }
    }
  }

  lemma ValidAppointmentRepliesDefined(st: Conversations, to: string, text: string, now: string)
    requires Valid(st) && to in st.appointments
    ensures RepliesDefined(AppointmentFlow(st, to, text, now).actions)
  {
    assert ValidAppointment(st.appointments[to]);
  }

  lemma GreetingRepliesDefined(st: Conversations, m: Message, sender: SenderInfo, ai: Option<string>, now: string)
    requires RouteOf(st, m) == GreetRoute
    ensures RepliesDefined(HandleIncoming(st, m, sender, ai, now).actions)
  {
    GreetingBranch(st, m, sender, ai, now);
    RepliesDefinedAppend(WelcomeActions(m.from, m.id, sender), [MarkAsRead(m.id)]);
  }

  lemma MediaRepliesDefined(st: Conversations, m: Message, sender: SenderInfo, ai: Option<string>, now: string)
    requires RouteOf(st, m) == MediaRoute
    ensures RepliesDefined(HandleIncoming(st, m, sender, ai, now).actions)
  {
    MediaBranch(st, m, sender, ai, now);
    RepliesDefinedAppend(MediaActions(m.from), [MarkAsRead(m.id)]);
  }

  lemma AppointmentRepliesDefined(st: Conversations, m: Message, sender: SenderInfo, ai: Option<string>, now: string)
    requires Valid(st) && RouteOf(st, m) == AppointmentRoute
    ensures RepliesDefined(HandleIncoming(st, m, sender, ai, now).actions)
  {
    AppointmentBranch(st, m, sender, ai, now);
    ValidAppointmentRepliesDefined(st, m.from, Normalize(m.body), now);
    RepliesDefinedAppend(AppointmentFlow(st, m.from, Normalize(m.body), now).actions, [MarkAsRead(m.id)]);
  }

  lemma AnswerRepliesDefined(to: string, question: string, ai: Option<string>, id: string)
    requires ai.Some?
    ensures RepliesDefined([AskAssistant(question), SendMessage(to, Some(Answer(ai.value)), None),
                            SendButtons(to, FollowUpMenu), MarkAsRead(id)])
  {
  }

  lemma AssistantRepliesDefined(st: Conversations, m: Message, sender: SenderInfo, ai: Option<string>, now: string)
    requires Valid(st) && RouteOf(st, m) == AssistantRoute && ai.Some?
    ensures RepliesDefined(HandleIncoming(st, m, sender, ai, now).actions)
  {
    ValidQuestionIsAsked(st, m, sender, ai, now);
    AnswerRepliesDefined(m.from, Normalize(m.body), ai, m.id);
  }

  lemma MenuRepliesDefined(st: Conversations, m: Message, sender: SenderInfo, ai: Option<string>, now: string)
    requires RouteOf(st, m) == MenuRoute
    ensures RepliesDefined(HandleIncoming(st, m, sender, ai, now).actions)
  {
    MenuBranch(st, m, sender, ai, now);
    var option := if m.InteractiveMessage? then m.buttonId else Some(Normalize(m.body));
    RepliesDefinedAppend(MenuOption(st, m.from, option).actions, [MarkAsRead(m.id)]);
  }

  /** In a valid state the defensive branches are never taken: every text
      reply has a body, except the AI answer when the AI service failed. */
  lemma ValidRepliesAreDefined(st: Conversations, m: Message, sender: SenderInfo, ai: Option<string>, now: string)
    requires Valid(st)
    requires RouteOf(st, m) != AssistantRoute || ai.Some?
    ensures RepliesDefined(HandleIncoming(st, m, sender, ai, now).actions)
  {
    match RouteOf(st, m)
    case NoRoute =>
    case GreetRoute => GreetingRepliesDefined(st, m, sender, ai, now);
    case MediaRoute => MediaRepliesDefined(st, m, sender, ai, now);
    case AppointmentRoute => AppointmentRepliesDefined(st, m, sender, ai, now);
    case AssistantRoute => AssistantRepliesDefined(st, m, sender, ai, now);
    case MenuRoute => MenuRepliesDefined(st, m, sender, ai, now);
  }

  /** In a valid state a pending question always goes to the AI service; its
      answer, then the follow-up menu, then the receipt are sent. */
  lemma ValidQuestionIsAsked(st: Conversations, m: Message, sender: SenderInfo, ai: Option<string>, now: string)
    requires Valid(st) && RouteOf(st, m) == AssistantRoute
    ensures HandleIncoming(st, m, sender, ai, now).actions ==
      [AskAssistant(Normalize(m.body)), SendMessage(m.from, if ai.Some? then Some(Answer(ai.value)) else None, None),
       SendButtons(m.from, FollowUpMenu), MarkAsRead(m.id)]
  {
    AssistantBranch(st, m, sender, ai, now);
    assert st.assistant[m.from].step == "question";
  }

  // ---------------------------------------------------------------------
  // Greetings
  // ---------------------------------------------------------------------

  lemma ToLowerKeepsWhitespace(w: string)
    requires AllWhitespace(w)
    ensures ToLower(w) == w
  {
  }

  /** A greeting in any letter case, padded with any whitespace, is
      recognised: the check runs on the lower-cased, trimmed text. */
  lemma {:induction false} PaddedGreetingInAnyCase(w1: string, b: string, w2: string)
    requires AllWhitespace(w1) && AllWhitespace(w2)
    requires ToLower(b) in Greetings
    ensures IsGreeting(Normalize(w1 + b + w2))
  {
    ToLowerConcat(w1 + b, w2);
    ToLowerConcat(w1, b);
    ToLowerKeepsWhitespace(w1);
    ToLowerKeepsWhitespace(w2);
    TrimPadded(w1, ToLower(b), w2);
  }

  /** Matching is on the whole text: a greeting followed by more words is not
      a greeting. */
  lemma GreetingIsWholeText(g: string, rest: string)
    requires g in Greetings && rest != [] && rest[0] == ' '
    ensures !IsGreeting(g + rest)
  {
    assert (g + rest)[|g|] == ' ';
  }

  // Upper case and padding are ignored: "  HOLA  " is a greeting.

  lemma UpperHolaLowered()
    ensures ToLower("HOLA") == "hola"
  {
  }

  lemma PaddedUpperHola()
    ensures IsGreeting(Normalize("  " + "HOLA" + "  "))
  {
    UpperHolaLowered();
    PaddedGreetingInAnyCase("  ", "HOLA", "  ");
  }

  lemma PaddedUpperHolaSpelled()
    ensures "  " + "HOLA" + "  " == "  HOLA  "
  {
  }

  lemma PaddedUpperHolaIsGreeting()
    ensures IsGreeting(Normalize("  HOLA  "))
  {
    PaddedUpperHola();
    PaddedUpperHolaSpelled();
  }

  // A greeting followed by more words is not one: "hola que tal".

  lemma HolaQueTalNormalized()
    ensures Normalize("hola que tal") == "hola que tal"
  {
    var l := ToLower("hola que tal");
    assert l == "hola que tal";
    TrimPadded([], l, []);
    assert [] + l + [] == l;
  }

  lemma HolaQueTalNotListed()
    ensures !IsGreeting("hola que tal")
  {
  }

  lemma HolaQueTalIsNotGreeting()
    ensures !IsGreeting(Normalize("hola que tal"))
  {
    HolaQueTalNormalized();
    HolaQueTalNotListed();
  }

  // ---------------------------------------------------------------------
  // The welcome name
  // ---------------------------------------------------------------------

  /** Without a non-empty display name the welcome is built from wa_id. */
  lemma WelcomeFallsBackToWaId(to: string, id: string, sender: SenderInfo)
    requires !HasDisplayName(sender)
    ensures WelcomeActions(to, id, sender)[0] == SendMessage(to, Some(Welcome(FormatName(sender.waId))), Some(id))
  {
  }

  /** The formatting keeps exactly the ASCII letters and whitespace of the
      first token, in order: a token made only of those is kept whole. */
  lemma FormatNameKeepsPlainFirstName(first: string, rest: string)
    requires forall i :: 0 <= i < |first| ==> IsAsciiLetter(first[i])
    ensures FormatName(first + " " + rest) == first
  {
    FirstTokenOfPrefix(first, rest);
    StripNonLettersFixpoint(first);
  }

  lemma {:induction false} FirstTokenOfPrefix(first: string, rest: string)
    requires ' ' !in first
    ensures FirstToken(first + " " + rest) == first
  {
    if first != [] {
      assert (first + " " + rest)[1..] == first[1..] + " " + rest;
      FirstTokenOfPrefix(first[1..], rest);
    } else {
      assert (first + " " + rest)[0] == ' ';
    }
  }

  // Digits, punctuation and accented letters are removed, and only the
  // token before the first space is used: "Jo3hn_ Pérez!!" gives "John",
  // "José" gives "Jos".

  lemma FirstTokenExample()
    ensures FirstToken("Jo3hn_ Pérez!!") == "Jo3hn_"
  {
  }

  lemma StripDigitsExample()
    ensures StripNonLetters("Jo3hn_") == "John"
  {
  }

  lemma FormatNameExample()
    ensures FormatName("Jo3hn_ Pérez!!") == "John"
  {
    FirstTokenExample();
    StripDigitsExample();
  }

  lemma NoSpaceExample()
    ensures FirstToken("José") == "José"
  {
  }

  lemma StripAccentExample()
    ensures StripNonLetters("José") == "Jos"
  {
  }

  lemma FormatNameDropsAccents()
    ensures FormatName("José") == "Jos"
  {
    NoSpaceExample();
    StripAccentExample();
  }

  // The filter keeps `\s`, and only U+0020 ends the first token, so a tab
  // inside the first word stays in the welcome name.

  lemma TabTokenExample()
    ensures FirstToken("a\tb") == "a\tb"
  {
  }

  lemma TabFilterExample()
    ensures StripNonLetters("a\tb") == "a\tb"
  {
  }

  lemma FormatNameKeepsTab()
    ensures FormatName("a\tb") == "a\tb"
  {
    TabTokenExample();
    TabFilterExample();
  }

  // ---------------------------------------------------------------------
  // Menu dispatch
  // ---------------------------------------------------------------------

  /** The menu's outbound calls depend on the option alone, not on the
      state. */
  lemma MenuIgnoresState(st1: Conversations, st2: Conversations, to: string, option: Option<string>)
    ensures MenuOption(st1, to, option).actions == MenuOption(st2, to, option).actions
  {
  }

  /** The follow-up buttons option_4 and option_5 have no handler: they get
      the fallback reply and change nothing. */
  lemma FollowUpOptionsFallBack(st: Conversations, to: string, option: Option<string>)
    requires option == Some("option_4") || option == Some("option_5")
    ensures MenuOption(st, to, option) == Effect(st, [SendMessage(to, Some(Fixed(FallbackReply)), None)])
  {
  }

  // ---------------------------------------------------------------------
  // Whole conversations
  // ---------------------------------------------------------------------

  predicate Plain(text: string) {
    !IsGreeting(text) && text != "media"
  }

  /** A booking: the option_1 button, then a name and a reason (neither a
      greeting nor "media"). The second message stores the lower-cased name
      and asks for the reason; the third exports one row, deletes the entry
      and sends the summary; the sender's other state is what it was. */
  lemma {:induction false} BookingTakesTwoMessages(
      st: Conversations, to: string, sender: SenderInfo, ai: Option<string>,
      id1: string, id2: string, id3: string, nameBody: string, reasonBody: string,
      t1: string, t2: string, t3: string)
    requires Plain(Normalize(nameBody)) && Plain(Normalize(reasonBody))
    ensures
      var e1 := HandleIncoming(st, InteractiveMessage(to, id1, Some("option_1")), sender, ai, t1);
      var e2 := HandleIncoming(e1.state, TextMessage(to, id2, nameBody), sender, ai, t2);
      var e3 := HandleIncoming(e2.state, TextMessage(to, id3, reasonBody), sender, ai, t3);
      var name := Normalize(nameBody);
      var reason := Normalize(reasonBody);
      && e1.actions == [SendMessage(to, Some(Fixed(NamePrompt)), None), MarkAsRead(id1)]
      && to in e2.state.appointments && e2.state.appointments[to] == Appointment("reason", Some(name), None)
      && e2.actions == [SendMessage(to, Some(Fixed(ReasonPrompt)), None), MarkAsRead(id2)]
      && e3.actions == [AppendToSheet([Some(to), Some(name), Some(reason), Some(t3)]),
                        SendMessage(to, Some(Summary(Some(name), Some(reason))), None),
                        MarkAsRead(id3)]
      && e3.state == Conversations(st.appointments - {to}, st.assistant)
      && IsLowerCased(name) && IsLowerCased(reason)
  {
    var msg1 := InteractiveMessage(to, id1, Some("option_1"));
    var e1 := HandleIncoming(st, msg1, sender, ai, t1);
    MenuBranch(st, msg1, sender, ai, t1);

    var msg2 := TextMessage(to, id2, nameBody);
    var e2 := HandleIncoming(e1.state, msg2, sender, ai, t2);
    assert RouteOf(e1.state, msg2) == AppointmentRoute;
    AppointmentBranch(e1.state, msg2, sender, ai, t2);

    var msg3 := TextMessage(to, id3, reasonBody);
    assert RouteOf(e2.state, msg3) == AppointmentRoute;
    AppointmentBranch(e2.state, msg3, sender, ai, t3);
    NormalizeShape(nameBody);
    NormalizeShape(reasonBody);
  }

  /** Choosing option_1 while an assistant question is pending leaves the
      assistant entry in place: both flows are then active for one sender. */
  lemma BothFlowsCanBeActive(to: string, sender: SenderInfo, ai: Option<string>, now: string)
    ensures
      var e1 := HandleIncoming(NoConversations, InteractiveMessage(to, "m1", Some("option_2")), sender, ai, now);
      var e2 := HandleIncoming(e1.state, InteractiveMessage(to, "m2", Some("option_1")), sender, ai, now);
      to in e2.state.appointments && to in e2.state.assistant
  {
  }

  /** The export of the example booking: the stored name is the lower-cased
      text. */
  lemma NormalizeExample()
    ensures Normalize("Ana Torres") == "ana torres"
  {
    var l := ToLower("Ana Torres");
    assert l == "ana torres";
    TrimPadded([], l, []);
    assert [] + l + [] == l;
  }
}
