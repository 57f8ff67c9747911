/**
 * The `MessageHandler` class: two per-sender dictionaries updated in place
 * and the outbound calls, recorded in `trace` in the order they are made.
 * Every method is proved to do what the function of the same name in
 * HandlerSpec describes.
 */
module Handler {
  import opened Wrappers
  import opened JsStrings
  import opened HandlerSpec
  import HandlerProperties

  class MessageHandler {
    var appointmentState: map<string, Appointment>
    /** Spelled as in the JavaScript handler; created there as an array and used as a
        dictionary. */
    var assistandState: map<string, AssistantEntry>
    /** Every outbound call made so far, oldest first. */
    var trace: seq<Action>

    function State(): Conversations
      reads this
    {
      Conversations(appointmentState, assistandState)
    }

    ghost predicate Valid()
      reads this
    {
      HandlerSpec.Valid(State())
    }

    constructor ()
      ensures Valid()
      ensures State() == NoConversations && trace == []
    {
      appointmentState := map[];
      assistandState := map[];
      trace := [];
    }

    method HandleIncomingMessage(message: Message, sender: SenderInfo, ai: Option<string>, now: string)
      modifies this
      ensures var e := HandleIncoming(old(State()), message, sender, ai, now);
              State() == e.state && trace == old(trace) + e.actions
      ensures old(Valid()) ==> Valid()
    {
      ghost var st := State();
      match message {
        case TextMessage(from, id, body) =>
          ghost var r := Respond(st, message, sender, ai, now);
          var incoming := Normalize(body);
          if IsGreeting(incoming) {
            SendWelcomeMessage(from, id, sender);
            SendWelcomeMenu(from);
          } else if incoming == "media" {
            SendMedia(from);
          } else if from in appointmentState {
            HandleAppointmentFlow(from, incoming, now);
          } else if from in assistandState {
            HandleAssistandFlow(from, incoming, ai);
          } else {
            HandleMenuOption(from, Some(incoming));
          }
          assert State() == r.state && trace == old(trace) + r.actions;
          trace := trace + [MarkAsRead(id)];
          HandlerProperties.ReceiptFollowsReply(st, message, sender, ai, now);
          if old(Valid()) {
            HandlerProperties.HandleIncomingPreservesValid(st, message, sender, ai, now);
          }
        case InteractiveMessage(from, id, option) =>
          HandleMenuOption(from, option);
          trace := trace + [MarkAsRead(id)];
          HandlerProperties.ReceiptFollowsReply(st, message, sender, ai, now);
          if old(Valid()) {
            HandlerProperties.HandleIncomingPreservesValid(st, message, sender, ai, now);
          }
        case OtherMessage =>
      }
    }

    method SendWelcomeMessage(to: string, messageId: string, sender: SenderInfo)
      modifies this`trace
      ensures trace == old(trace) + [SendMessage(to, Some(Welcome(FormatName(GetSenderName(sender)))), Some(messageId))]
    {
      var name := GetSenderName(sender);
      var firstName := FirstToken(name);
      var formatName := StripNonLetters(firstName);
      var welcomeMessage := Welcome(formatName);
      trace := trace + [SendMessage(to, Some(welcomeMessage), Some(messageId))];
    }

    method SendWelcomeMenu(to: string)
      modifies this`trace
      ensures trace == old(trace) + [SendButtons(to, WelcomeMenu)]
    {
      trace := trace + [SendButtons(to, WelcomeMenu)];
    }

    method HandleMenuOption(to: string, option: Option<string>)
      modifies this
      ensures var e := MenuOption(old(State()), to, option);
              State() == e.state && trace == old(trace) + e.actions
    {
      var response: Reply;
      if option == Some("option_1") {
        appointmentState := appointmentState[to := Appointment("name", None, None)];
        response := NamePrompt;
      } else if option == Some("option_2") {
        assistandState := assistandState[to := AssistantEntry("question")];
        response := QuestionPrompt;
      } else if option == Some("option_3") {
        response := BranchReply;
        SendLocation(to);
      } else if option == Some("option_6") {
        response := EmergencyReply;
        SendContact(to);
      } else {
        response := FallbackReply;
      }
      trace := trace + [SendMessage(to, Some(Fixed(response)), None)];
    }

    method SendMedia(to: string)
      modifies this`trace
      ensures trace == old(trace) + [Action.SendMedia(to)]
    {
      trace := trace + [Action.SendMedia(to)];
    }

    method CompleteAppointment(to: string, now: string) returns (summary: Text)
      requires to in appointmentState
      modifies this
      ensures var c := HandlerSpec.CompleteAppointment(old(State()), to, now);
              State() == c.state && summary == c.summary && trace == old(trace) + [AppendToSheet(c.row)]
    {
      var appointment := appointmentState[to];
      appointmentState := appointmentState - {to};
      var userData := [Some(to), appointment.name, appointment.reason, Some(now)];
      trace := trace + [AppendToSheet(userData)];
      summary := Summary(appointment.name, appointment.reason);
    }

    method HandleAppointmentFlow(to: string, message: string, now: string)
      requires to in appointmentState
      modifies this
      ensures var e := AppointmentFlow(old(State()), to, message, now);
              State() == e.state && trace == old(trace) + e.actions
    {
      var state := appointmentState[to];
      var response: Option<Text>;
      if state.step == "name" {
        appointmentState := appointmentState[to := state.(name := Some(message), step := "reason")];
        response := Some(Fixed(ReasonPrompt));
      } else if state.step == "reason" {
        appointmentState := appointmentState[to := state.(reason := Some(message))];
        var summary := CompleteAppointment(to, now);
        response := Some(summary);
      } else {
        response := None;
      }
      trace := trace + [SendMessage(to, response, None)];
    }

    method HandleAssistandFlow(to: string, message: string, ai: Option<string>)
      requires to in assistandState
      modifies this
      ensures var e := AssistantFlow(old(State()), to, message, ai);
              State() == e.state && trace == old(trace) + e.actions
    {
      var state := assistandState[to];
      var response: Option<Text> := None;
      if state.step == "question" {
        trace := trace + [AskAssistant(message)];
        if ai.Some? {
          response := Some(Answer(ai.value));
        }
      }
      assistandState := assistandState - {to};
      trace := trace + [SendMessage(to, response, None)];
      trace := trace + [SendButtons(to, FollowUpMenu)];
    }

    method SendContact(to: string)
      modifies this`trace
      ensures trace == old(trace) + [Action.SendContact(to)]
    {
      trace := trace + [Action.SendContact(to)];
    }

    method SendLocation(to: string)
      modifies this`trace
      ensures trace == old(trace) + [Action.SendLocation(to)]
    {
      trace := trace + [Action.SendLocation(to)];
    }
  }
}
