/**
 * The chat assistant widget: a message log, an input box and a loading
 * flag. A submission is guarded (blank input or a pending request changes
 * nothing), appends the user's message, clears the input and sends the flow
 * the history as it was before the submission; when the flow settles
 * exactly one model message (the response, or a fixed apology) follows.
 *
 * `handleSubmit` awaits the flow between its two halves; the model splits it
 * into `Submit` (up to the await) and `Settle` (after it), and `HandleSubmit`
 * runs both with the flow as an oracle.
 */
module Assistant {
  import opened Wrappers
  import Text

  datatype Role = User | Model

  datatype Message = Message(role: Role, content: string)

  /** The history format the flow takes: each turn's content is a list of text parts. */
  datatype TextPart = TextPart(text: string)

  datatype HistoryEntry = HistoryEntry(role: Role, content: seq<TextPart>)

  datatype FlowRequest = FlowRequest(history: seq<HistoryEntry>, prompt: string)

  datatype FlowOutput = FlowOutput(response: string)

  /** What awaiting the flow gives: a value (`None` for null or undefined) or a thrown error. */
  datatype FlowOutcome = Responded(result: Option<FlowOutput>) | FlowThrew

  const Apology := "Sorry, I'm having trouble connecting. Please try again later."

  /** `messages.map(msg => ({ role: msg.role, content: [{ text: msg.content }] }))`. */
  function ToHistory(messages: seq<Message>): (history: seq<HistoryEntry>)
    ensures |history| == |messages|
    ensures forall i :: 0 <= i < |messages| ==>
              history[i].role == messages[i].role && history[i].content == [TextPart(messages[i].content)]
  {
    if messages == [] then []
    else [HistoryEntry(messages[0].role, [TextPart(messages[0].content)])] + ToHistory(messages[1..])
  }

  /** Reads a log back from a history whose entries each hold one text part. */
  function FromHistory(history: seq<HistoryEntry>): seq<Message>
    requires forall i :: 0 <= i < |history| ==> |history[i].content| == 1
  {
    seq(|history|, i requires 0 <= i < |history| => Message(history[i].role, history[i].content[0].text))
  }

  /** The history loses nothing: the log can be read back from it. */
  lemma HistoryRoundTrip(messages: seq<Message>)
    ensures FromHistory(ToHistory(messages)) == messages
  {
  }

  /** The model message that follows a submission: the response when it is non-empty, else the apology. */
  function ReplyText(outcome: FlowOutcome): (text: string)
    ensures text != ""
    ensures outcome.Responded? && outcome.result.Some? && outcome.result.value.response != ""
            ==> text == outcome.result.value.response
    ensures outcome.FlowThrew? || outcome.result.None? || outcome.result.value.response == ""
            ==> text == Apology
  {
    match outcome
    case Responded(Some(output)) => if output.response != "" then output.response else Apology
    case _ => Apology
  }

  /** User and model messages alternate, starting with a user message. */
  predicate Alternating(messages: seq<Message>) {
    forall i :: 0 <= i < |messages| ==> messages[i].role == (if i % 2 == 0 then User else Model)
  }

  /** A message with the role of its position keeps the log alternating. */
  lemma AlternatingExtend(messages: seq<Message>, m: Message)
    requires Alternating(messages)
    requires m.role == if |messages| % 2 == 0 then User else Model
    ensures Alternating(messages + [m])
  {
  }

  class ChatAssistant {
    var messages: seq<Message>
    var input: string
    var isLoading: bool
    /** The request of the submission being awaited, if any. */
    var pending: Option<FlowRequest>

    /**
     * A request is pending exactly while loading, and then the log ends with
     * the user message it answers; the log alternates user and model turns.
     */
    ghost predicate Valid()
      reads this
    {
      (isLoading <==> pending.Some?)
      && (isLoading <==> |messages| % 2 == 1)
      && Alternating(messages)
    }

    constructor ()
      ensures Valid()
      ensures messages == [] && input == "" && !isLoading
    {
      messages := [];
      input := "";
      isLoading := false;
      pending := None;
    }

    /** The input box's change handler. */
    method SetInput(text: string)
      modifies this`input
      ensures input == text
    {
      input := text;
    }

    /**
     * `handleSubmit` up to the await. Refused (nothing changes) when the
     * input is blank or a request is pending; otherwise the user's message is
     * appended verbatim, the input cleared, the loading flag set, and the
     * request built from the log as it was before.
     */
    method Submit() returns (request: Option<FlowRequest>)
      requires Valid()
      modifies this
      ensures Valid()
      ensures request.Some? <==> !Text.Blank(old(input)) && !old(isLoading)
      ensures request.None? ==>
                messages == old(messages) && input == old(input)
                && isLoading == old(isLoading) && pending == old(pending)
      ensures request.Some? ==>
                messages == old(messages) + [Message(User, old(input))]
                && input == "" && isLoading && pending == request
                && request.value == FlowRequest(ToHistory(old(messages)), old(input))
    {
      Text.TrimEmptyIffBlank(input);
      if Text.Trim(input) == "" || isLoading {
        return None;
      }
      var history := ToHistory(messages);
      var prompt := input;
      AlternatingExtend(messages, Message(User, prompt));
      messages := messages + [Message(User, prompt)];
      input := "";
      isLoading := true;
      request := Some(FlowRequest(history, prompt));
      pending := request;
    }

    /**
     * `handleSubmit` after the await: exactly one model message is appended,
     * the response or the apology, and loading ends.
     */
    method Settle(outcome: FlowOutcome)
      requires Valid() && pending.Some?
      modifies this
      ensures Valid()
      ensures messages == old(messages) + [Message(Model, ReplyText(outcome))]
      ensures !isLoading && pending.None? && input == old(input)
    {
      AlternatingExtend(messages, Message(Model, ReplyText(outcome)));
      messages := messages + [Message(Model, ReplyText(outcome))];
      isLoading := false;
      pending := None;
    }

    /**
     * The whole of `handleSubmit` with the flow as an oracle: an accepted
     * submission appends the user's message and then one model message, and
     * the flow is asked with the earlier log and the submitted text.
     */
    method HandleSubmit(flow: FlowRequest -> FlowOutcome) returns (request: Option<FlowRequest>)
      requires Valid()
      modifies this
      ensures Valid()
      ensures request.Some? <==> !Text.Blank(old(input)) && !old(isLoading)
      ensures request.None? ==>
                messages == old(messages) && input == old(input) && isLoading == old(isLoading)
      ensures request.Some? ==>
                request.value == FlowRequest(ToHistory(old(messages)), old(input))
                && messages == old(messages)
                               + [Message(User, old(input)), Message(Model, ReplyText(flow(request.value)))]
                && input == "" && !isLoading
    {
      request := Submit();
      if request.Some? {
        Settle(flow(request.value));
      }
    }
  }
}
