/**
 * The assistant chat widget: its message list with the welcome message, the guarded submit that
 * appends the user's message and the assistant's answer, and the line formatter that renders
 * message text.
 */
module Chatbot {
  import opened Wrappers
  import Text
  import Toasts

  datatype Role = User | Assistant

  /**
   * One chat message. `data` is the list of records the answer carried (each record as opaque
   * text), `operation` the operation the server reports (empty when it reports none).
   * The timestamp is not modelled.
   */
  datatype Message = Message(id: string, role: Role, content: string, data: Option<seq<string>>, operation: string, count: Option<int>)

  /** The chat endpoint's answer. */
  datatype ChatAnswer = ChatAnswer(message: string, data: Option<seq<string>>, users: Option<seq<string>>, operation: string, count: Option<int>)

  const WelcomeText: string :=
    "\U{1F44B} Hello! I'm your AI assistant for user management. I can help you:\n\n• Create new users\n• Update existing users\n• Delete users\n• Search for users\n• Answer questions about user data\n\nWhat would you like to do today?"
  const WelcomeMessage: Message := Message("welcome", Assistant, WelcomeText, None, "", None)
  const ErrorText: string :=
    "❌ Sorry, I encountered an error processing your request. Please try again or contact support if the issue persists."
  const SendFailedMessage: string := "Failed to send message"

  /** The welcome effect: an open widget without messages gets the welcome message, and nothing else does. */
  function WithWelcome(isOpen: bool, messages: seq<Message>): (r: seq<Message>)
    ensures isOpen && messages == [] ==> r == [WelcomeMessage]
    ensures !isOpen || messages != [] ==> r == messages
  {
    if isOpen && |messages| == 0 then [WelcomeMessage] else messages
  }

  /** The welcome message is never added twice. */
  lemma WelcomeAtMostOnce(isOpen: bool, messages: seq<Message>)
    ensures WithWelcome(isOpen, WithWelcome(isOpen, messages)) == WithWelcome(isOpen, messages)
  {
  }

  /** The operations after which the parent is asked to refresh. */
  predicate IsMutation(operation: string) {
    operation in ["create", "update", "delete"]
  }

  /** `data || users`: a present array, even an empty one, is truthy. */
  function AnswerData(answer: ChatAnswer): (r: Option<seq<string>>)
    ensures answer.data.Some? ==> r == answer.data
    ensures answer.data.None? ==> r == answer.users
  {
    if answer.data.Some? then answer.data else answer.users
  }

  /** The assistant's message for an answer, or the error message when the request failed. */
  function AssistantMessage(answer: Option<ChatAnswer>, id: string): (r: Message)
    ensures r.role == Assistant && r.id == id
    ensures answer.None? ==> r.content == ErrorText && r.data.None? && r.operation == ""
    ensures answer.Some? ==> r.content == answer.value.message && r.operation == answer.value.operation
  {
    match answer
    case Some(a) => Message(id, Assistant, a.message, AnswerData(a), a.operation, a.count)
    case None => Message(id, Assistant, ErrorText, None, "", None)
  }

  /** The messages an accepted submit of `input` appends: the user's message, then the assistant's. */
  function AfterSubmit(messages: seq<Message>, input: string, answer: Option<ChatAnswer>, userId: string, replyId: string): (r: seq<Message>)
    ensures |r| == |messages| + 2 && r[..|messages|] == messages
    ensures r[|messages|] == Message(userId, User, input, None, "", None)
    ensures r[|messages| + 1] == AssistantMessage(answer, replyId)
  {
    messages + [Message(userId, User, input, None, "", None)] + [AssistantMessage(answer, replyId)]
  }

  /** The toasts a submit shows: one for a completed mutation, one for a failure, none otherwise. */
  function SubmitToasts(answer: Option<ChatAnswer>, toastId: string): (r: seq<Toasts.ToastItem>)
    ensures |r| <= 1
    ensures answer.None? ==> r == [Toasts.ToastItem(toastId, SendFailedMessage, "error")]
    ensures answer.Some? && IsMutation(answer.value.operation) ==>
      r == [Toasts.ToastItem(toastId, "User " + answer.value.operation + " operation completed!", "success")]
    ensures answer.Some? && !IsMutation(answer.value.operation) ==> r == []
  {
    match answer
    case None => [Toasts.ToastItem(toastId, SendFailedMessage, "error")]
    case Some(a) =>
      if a.operation != "" && IsMutation(a.operation) then
        [Toasts.ToastItem(toastId, "User " + a.operation + " operation completed!", "success")]
      else []
  }

  /** A refresh is requested exactly when the request succeeded and reports a mutation. */
  predicate Refreshes(answer: Option<ChatAnswer>) {
    answer.Some? && answer.value.operation != "" && IsMutation(answer.value.operation)
  }

  /** The refresh and the success toast go together: both come from a reported mutation. */
  lemma RefreshIffSuccessToast(answer: Option<ChatAnswer>, toastId: string)
    ensures Refreshes(answer) <==> answer.Some? && SubmitToasts(answer, toastId) != []
    ensures Refreshes(answer) ==> answer.value.operation in {"create", "update", "delete"}
  {
  }

  /** The widget's state. */
  class ChatWidget {
    var messages: seq<Message>
    var userInput: string
    var isLoading: bool
    /** The `isOpen` property the parent passes. */
    var isOpen: bool
    /** Every value `isLoading` has been set to, in order. */
    ghost var loadingTrace: seq<bool>
    /** The provider `useToast` found. */
    const toasts: Toasts.ToastProvider

    constructor (isOpen: bool, toasts: Toasts.ToastProvider)
      ensures messages == [] && userInput == "" && !isLoading && this.isOpen == isOpen
      ensures loadingTrace == [] && this.toasts == toasts
    {
      messages := [];
      userInput := "";
      isLoading := false;
      this.isOpen := isOpen;
      loadingTrace := [];
      this.toasts := toasts;
    }

    /** The welcome effect, run when `isOpen` or the number of messages changes. */
    method WelcomeEffect()
      modifies `messages
      ensures messages == WithWelcome(isOpen, old(messages))
    {
      if isOpen && |messages| == 0 {
        messages := [WelcomeMessage];
      }
    }

    /** The parent opens or closes the widget; the welcome effect follows. */
    method SetOpen(open: bool)
      modifies `isOpen, `messages
      ensures isOpen == open
      ensures messages == WithWelcome(open, old(messages))
    {
      isOpen := open;
      WelcomeEffect();
    }

    /** The input box's `onChange`. */
    method SetUserInput(value: string)
      modifies `userInput
      ensures userInput == value
    {
      userInput := value;
    }

    /**
     * `handleSubmit`. It is ignored while a submit is loading or when the input is blank.
     * Otherwise the trimmed input is sent to `chat` and appended as the user's message under id
     * `userId`, the input is cleared, and the answer (or the error text) follows under `replyId`.
     * A reported mutation returns `refresh` (the `onRefresh` call) and shows the success toast;
     * a failure shows the error toast. `isLoading` is raised for the request and cleared after it.
     */
    method HandleSubmit(chat: string -> Option<ChatAnswer>, userId: string, replyId: string, toastId: string)
      returns (refresh: bool)
      modifies this, toasts
      ensures isOpen == old(isOpen)
      ensures var accepted := Text.Trim(old(userInput)) != [] && !old(isLoading);
        var answer := chat(Text.Trim(old(userInput)));
        if accepted then
          && messages == AfterSubmit(old(messages), Text.Trim(old(userInput)), answer, userId, replyId)
          && userInput == "" && !isLoading && loadingTrace == old(loadingTrace) + [true, false]
          && toasts.toasts == old(toasts.toasts) + SubmitToasts(answer, toastId)
          && (refresh <==> Refreshes(answer))
        else
          && messages == old(messages) && userInput == old(userInput) && isLoading == old(isLoading)
          && loadingTrace == old(loadingTrace) && toasts.toasts == old(toasts.toasts) && !refresh
    {
      refresh := false;
      if Text.Trim(userInput) == [] || isLoading {
        return;
      }
      var userMessage := Text.Trim(userInput);
      userInput := "";
      isLoading := true;
      loadingTrace := loadingTrace + [true];
      messages := messages + [Message(userId, User, userMessage, None, "", None)];
      var response := chat(userMessage);
      match response {
        case Some(a) =>
          messages := messages + [Message(replyId, Assistant, a.message, AnswerData(a), a.operation, a.count)];
          if a.operation != "" && IsMutation(a.operation) {
            refresh := true;
            toasts.ShowToast(toastId, "User " + a.operation + " operation completed!", "success");
          }
        case None =>
          messages := messages + [Message(replyId, Assistant, ErrorText, None, "", None)];
          toasts.ShowToast(toastId, SendFailedMessage, "error");
      }
      isLoading := false;
      loadingTrace := loadingTrace + [false];
    }
  }

  /** How one line of message text is rendered. */
  datatype LineKind = Bullet(text: string) | Bold(text: string) | Plain(text: string)

  /** A rendered line: its kind, and whether it gets the spacer class for blank lines. */
  datatype FormattedLine = FormattedLine(spacer: bool, kind: LineKind)

  /** `line.slice(2, -2)`: two characters off each end, or nothing when the line is too short. */
  function StripStars(line: string): (r: string)
    ensures |line| >= 4 ==> r == line[2..|line| - 2]
    ensures |line| < 4 ==> r == []
  {
    if |line| >= 4 then line[2..|line| - 2] else []
  }

  /** One line: a bullet, else bold, else plain, tested in that order; blank lines get the spacer. */
  function FormatLine(line: string): FormattedLine {
    var kind :=
      if Text.StartsWith(line, "•") then Bullet(Text.Trim(line[1..]))
      else if Text.StartsWith(line, "**") && Text.EndsWith(line, "**") then Bold(StripStars(line))
      else Plain(line);
    FormattedLine(Text.Trim(line) == [], kind)
  }

  /** `formatMessage`: the content split at line breaks, each line formatted. */
  function FormatMessage(content: string): (r: seq<FormattedLine>)
    ensures |r| == |Text.Split(content, '\n')|
    ensures forall i :: 0 <= i < |r| ==> r[i] == FormatLine(Text.Split(content, '\n')[i])
  {
    FormatLines(Text.Split(content, '\n'))
  }

  function FormatLines(lines: seq<string>): (r: seq<FormattedLine>)
    ensures |r| == |lines|
    ensures forall i :: 0 <= i < |r| ==> r[i] == FormatLine(lines[i])
  {
    if lines == [] then [] else [FormatLine(lines[0])] + FormatLines(lines[1..])
  }

  /**
   * One entry per line, in order: there is one entry more than there are line breaks, the
   * lines the entries are made from join back into the content, and none of them holds a break.
   */
  lemma FormatMessageLines(content: string)
    ensures |FormatMessage(content)| == Text.CountChar(content, '\n') + 1
    ensures Text.Join(Text.Split(content, '\n'), '\n') == content
    ensures forall i :: 0 <= i < |Text.Split(content, '\n')| ==> '\n' !in Text.Split(content, '\n')[i]
  {
    Text.SplitPiecesFree(content, '\n');
    Text.SplitCount(content, '\n');
    Text.JoinSplit(content, '\n');
  }

  /** The classification, written as the rules it follows. */
  lemma FormatLineSpec(line: string)
    ensures FormatLine(line).spacer <==> forall k :: 0 <= k < |line| ==> Text.IsSpace(line[k])
    ensures Text.StartsWith(line, "•") ==> FormatLine(line).kind == Bullet(Text.Trim(line[1..]))
    ensures !Text.StartsWith(line, "•") && Text.StartsWith(line, "**") && Text.EndsWith(line, "**") ==>
      FormatLine(line).kind == Bold(StripStars(line))
    ensures !Text.StartsWith(line, "•") && !(Text.StartsWith(line, "**") && Text.EndsWith(line, "**")) ==>
      FormatLine(line).kind == Plain(line)
    ensures FormatLine(line).kind.Plain? ==> FormatLine(line).kind.text == line
  {
    Text.BlankIffAllSpace(line);
  }

  /** A blank line is never a bullet or bold: it is rendered as the spacer holding the line itself. */
  lemma SpacerIsPlain(line: string)
    ensures FormatLine(line).spacer ==> FormatLine(line).kind == Plain(line)
  {
    if Text.Trim(line) == [] && line != [] {
      Text.BlankIffAllSpace(line);
      assert Text.IsSpace(line[0]);
    }
  }

  /** A bold line long enough to hold both markers is exactly its text between two pairs of stars. */
  lemma BoldRoundTrip(line: string)
    requires FormatLine(line).kind.Bold? && |line| >= 4
    ensures line == "**" + FormatLine(line).kind.text + "**"
  {
    var t := FormatLine(line).kind.text;
    assert line[..2] == "**";
    assert line[|line| - 2..] == "**";
    assert line == line[..2] + line[2..|line| - 2] + line[|line| - 2..];
  }
}
