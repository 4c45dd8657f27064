/**
 * The user-management page: the search filter over the loaded page of users, the assistant
 * chat panel with its welcome message, and the chat submit that may trigger a refetch.
 */
module UserPage {
  import opened Wrappers
  import Text
  import Sequences
  import Pagination

  /** A user record as the list endpoint returns it; the age arrives as text. */
  datatype User = User(id: string, name: string, email: string, age: string, address: string, phone: string)

  /**
   * The search predicate: name, email and address are compared after lowering both sides;
   * phone and age are compared with the term as typed.
   */
  predicate Matches(u: User, term: string) {
    var t := Text.ToLower(term);
    || Text.Includes(Text.ToLower(u.name), t)
    || Text.Includes(Text.ToLower(u.email), t)
    || Text.Includes(u.phone, term)
    || Text.Includes(Text.ToLower(u.address), t)
    || Text.Includes(u.age, term)
  }

  /** `t` occurs somewhere in `s` as a contiguous piece. */
  ghost predicate OccursIn(s: string, t: string) {
    exists i :: Text.OccursAt(s, t, i)
  }

  /** A user matches exactly when the term occurs in one of the five fields, as described above. */
  lemma MatchesIffOccurs(u: User, term: string)
    ensures Matches(u, term) <==>
      || OccursIn(Text.ToLower(u.name), Text.ToLower(term))
      || OccursIn(Text.ToLower(u.email), Text.ToLower(term))
      || OccursIn(u.phone, term)
      || OccursIn(Text.ToLower(u.address), Text.ToLower(term))
      || OccursIn(u.age, term)
  {
    var t := Text.ToLower(term);
    Text.IncludesIffOccurs(Text.ToLower(u.name), t);
    Text.IncludesIffOccurs(Text.ToLower(u.email), t);
    Text.IncludesIffOccurs(u.phone, term);
    Text.IncludesIffOccurs(Text.ToLower(u.address), t);
    Text.IncludesIffOccurs(u.age, term);
  }

  /** The comparison on name, email and address ignores the case the record was stored in. */
  lemma MatchIgnoresCaseOfTextFields(u: User, term: string)
    ensures Matches(u.(name := Text.ToLower(u.name), email := Text.ToLower(u.email), address := Text.ToLower(u.address)), term)
      == Matches(u, term)
  {
    Text.ToLowerIdempotent(u.name);
    Text.ToLowerIdempotent(u.email);
    Text.ToLowerIdempotent(u.address);
  }

  /** Every user matches the empty term. */
  lemma EmptyTermMatchesAll(u: User)
    ensures Matches(u, "")
  {
    assert Text.ToLower("") == "";
    assert Text.ToLower(u.name)[..0] == "";
  }

  /** The search predicate for a fixed term, as passed to `filter`. */
  function MatchesTerm(term: string): User -> bool {
    u => Matches(u, term)
  }

  /** The filtered list for a term: the users themselves for the empty term, the matching ones otherwise. */
  function SearchResults(users: seq<User>, term: string): (r: seq<User>)
    ensures |r| <= |users|
  {
    if term == "" then users else Sequences.Filter(MatchesTerm(term), users)
  }

  /**
   * The shortcut for the empty term agrees with the filter, so in every case the result keeps
   * exactly the matching users, each as often as it was loaded, in their original order.
   */
  lemma SearchResultsSpec(users: seq<User>, term: string)
    ensures SearchResults(users, term) == Sequences.Filter(MatchesTerm(term), users)
    ensures forall u :: u in SearchResults(users, term) <==> u in users && Matches(u, term)
    ensures Sequences.IsSubsequence(SearchResults(users, term), users)
    ensures forall u :: multiset(SearchResults(users, term))[u] == if Matches(u, term) then multiset(users)[u] else 0
  {
    var p := MatchesTerm(term);
    if term == "" {
      forall i | 0 <= i < |users| ensures p(users[i]) {
        EmptyTermMatchesAll(users[i]);
      }
      Sequences.FilterKeepsAll(p, users);
    }
    Sequences.FilterMembers(p, users);
    Sequences.FilterIsSubsequence(p, users);
    Sequences.FilterCounts(p, users);
  }

  /** With the empty term the filtered list is the loaded list. */
  lemma EmptyTermShowsAll(users: seq<User>)
    ensures SearchResults(users, "") == users
  {
  }

  /**
   * The effect keyed on the term and the users: it recomputes the filtered list only when users
   * are loaded and not empty; otherwise the previous filtered list stays.
   */
  function FilterEffectResult(users: Option<seq<User>>, term: string, previous: seq<User>): (r: seq<User>)
    ensures users.None? || users.value == [] ==> r == previous
  {
    if users.Some? && |users.value| > 0 then SearchResults(users.value, term) else previous
  }

  /** When users are loaded, the effect's result is the matching users, with their multiplicities, in order. */
  lemma FilterEffectLoaded(users: seq<User>, term: string, previous: seq<User>)
    requires users != []
    ensures forall u :: u in FilterEffectResult(Some(users), term, previous) <==> u in users && Matches(u, term)
    ensures Sequences.IsSubsequence(FilterEffectResult(Some(users), term, previous), users)
    ensures forall u :: multiset(FilterEffectResult(Some(users), term, previous))[u] == if Matches(u, term) then multiset(users)[u] else 0
  {
    SearchResultsSpec(users, term);
  }

  /** Running the effect again on the same inputs changes nothing. */
  lemma FilterEffectIdempotent(users: Option<seq<User>>, term: string, previous: seq<User>)
    ensures FilterEffectResult(users, term, FilterEffectResult(users, term, previous)) == FilterEffectResult(users, term, previous)
  {
  }

  /** One entry of the chat panel. */
  datatype ChatMessage = ChatMessage(role: string, content: string)

  const WelcomeText: string :=
    "Hello! I'm your user management assistant. You can ask me to create, update, delete, or search for users using natural language."
  const Welcome: ChatMessage := ChatMessage("assistant", WelcomeText)
  const ApologyText: string := "Sorry, I encountered an error processing your request. Please try again."
  /** What sits between the reply's message and the users' JSON text. */
  const UsersFoundHeading: string := "\n\nUsers found:\n"

  /**
   * The chat endpoint's answer. `users` is the JSON text of the returned users when the answer
   * carries any (an array is truthy even when empty); an empty `operation` stands for a missing one.
   */
  datatype ChatReply = ChatReply(message: string, users: Option<string>, operation: string)

  /** The effect that greets the user: only an open panel with no messages gets the welcome message. */
  function WithWelcome(open: bool, messages: seq<ChatMessage>): (r: seq<ChatMessage>)
    ensures open && messages == [] ==> r == [Welcome]
    ensures !open || messages != [] ==> r == messages
  {
    if open && |messages| == 0 then [Welcome] else messages
  }

  /** The welcome message is added at most once: a second run of the effect changes nothing. */
  lemma WelcomeOnce(open: bool, messages: seq<ChatMessage>)
    ensures WithWelcome(open, WithWelcome(open, messages)) == WithWelcome(open, messages)
  {
  }

  /** The text the assistant shows for a reply: the message, then the users found, if any. */
  function ReplyText(reply: ChatReply): (r: string)
    ensures Text.StartsWith(r, reply.message)
    ensures reply.users.None? ==> r == reply.message
    ensures reply.users.Some? ==> |r| == |reply.message| + |UsersFoundHeading| + |reply.users.value|
    ensures reply.users.Some? ==>
      Text.EndsWith(r, reply.users.value) && r[|reply.message|..|reply.message| + |UsersFoundHeading|] == UsersFoundHeading
  {
    if reply.users.Some? then reply.message + UsersFoundHeading + reply.users.value else reply.message
  }

  /** The assistant's answer to a request: the reply's text, or the apology when the request failed. */
  function AssistantText(reply: Option<ChatReply>): string {
    match reply
    case Some(rep) => ReplyText(rep)
    case None => ApologyText
  }

  /** The operations after which the user list is refetched. */
  predicate IsMutation(operation: string) {
    operation == "create" || operation == "update" || operation == "delete"
  }

  /** Whether a submit's answer triggers `refetch`: only a successful reply naming a mutation does. */
  predicate Refetches(reply: Option<ChatReply>) {
    reply.Some? && IsMutation(reply.value.operation)
  }

  /** A failed request never triggers a refetch, and neither does a reply without an operation. */
  lemma RefetchOnlyAfterMutation(reply: Option<ChatReply>)
    ensures Refetches(reply) ==> reply.Some? && reply.value.operation != ""
    ensures reply.None? ==> !Refetches(reply)
    ensures Refetches(reply) <==> reply.Some? && reply.value.operation in {"create", "update", "delete"}
  {
  }

  /**
   * The chat list after a submit of `input` answered by `reply`: nothing for a blank input;
   * otherwise the input as typed, then one assistant message.
   */
  function AfterChatSubmit(messages: seq<ChatMessage>, input: string, reply: Option<ChatReply>): (r: seq<ChatMessage>)
    ensures Text.Trim(input) == [] ==> r == messages
    ensures Text.Trim(input) != [] ==>
      && |r| == |messages| + 2 && r[..|messages|] == messages
      && r[|messages|] == ChatMessage("user", input)
      && r[|messages| + 1] == ChatMessage("assistant", AssistantText(reply))
  {
    if Text.Trim(input) == [] then messages
    else messages + [ChatMessage("user", input)] + [ChatMessage("assistant", AssistantText(reply))]
  }

  /** In a well-formed panel every message from the user is directly followed by an assistant message. */
  predicate Paired(messages: seq<ChatMessage>) {
    forall i :: 0 <= i < |messages| && messages[i].role == "user" ==>
      i + 1 < |messages| && messages[i + 1].role == "assistant"
  }

  /** The welcome effect and every submit keep the panel well formed. */
  lemma ChatStaysPaired(messages: seq<ChatMessage>, open: bool, input: string, reply: Option<ChatReply>)
    requires Paired(messages)
    ensures Paired(WithWelcome(open, messages))
    ensures Paired(AfterChatSubmit(messages, input, reply))
  {
    var r := AfterChatSubmit(messages, input, reply);
    if Text.Trim(input) != [] {
      forall i | 0 <= i < |r| && r[i].role == "user" ensures i + 1 < |r| && r[i + 1].role == "assistant" {
        if i < |messages| {
          assert r[i] == messages[i];
          if i + 1 < |messages| {
            assert r[i + 1] == messages[i + 1];
          }
        }
      }
    }
  }

  /** The page's own state, and the hook that loads its users. */
  class UserList {
    var searchTerm: string
    var filteredUsers: seq<User>
    /** Whether the chat panel is open. */
    var chatbot: bool
    var chatMessages: seq<ChatMessage>
    var userInput: string
    const hook: Pagination.PaginatedFetch<User>

    constructor (hook: Pagination.PaginatedFetch<User>)
      ensures searchTerm == "" && filteredUsers == [] && !chatbot && chatMessages == [] && userInput == ""
      ensures this.hook == hook
    {
      searchTerm := "";
      filteredUsers := [];
      chatbot := false;
      chatMessages := [];
      userInput := "";
      this.hook := hook;
    }

    /** The filter effect, run after the term or the loaded users change. */
    method FilterEffect()
      modifies `filteredUsers
      ensures filteredUsers == FilterEffectResult(hook.data, searchTerm, old(filteredUsers))
    {
      var users := hook.data;
      var term := searchTerm;
      if users.Some? && |users.value| > 0 {
        if term == "" {
          filteredUsers := users.value;
        } else {
          filteredUsers := Sequences.Filter(MatchesTerm(term), users.value);
        }
      }
    }

    /** `handleSearchChange` (and `clearSearch` with the empty term), followed by the filter effect. */
    method SetSearchTerm(term: string)
      modifies `searchTerm, `filteredUsers
      ensures searchTerm == term
      ensures filteredUsers == FilterEffectResult(hook.data, term, old(filteredUsers))
    {
      searchTerm := term;
      FilterEffect();
    }

    /** The welcome effect, run after `chatbot` or the number of messages changes. */
    method WelcomeEffect()
      modifies `chatMessages
      ensures chatMessages == WithWelcome(chatbot, old(chatMessages))
    {
      if chatbot && |chatMessages| == 0 {
        chatMessages := [Welcome];
      }
    }

    /** The header button: toggle the panel, then the welcome effect. */
    method ToggleChatbot()
      modifies `chatbot, `chatMessages
      ensures chatbot == !old(chatbot)
      ensures chatMessages == WithWelcome(chatbot, old(chatMessages))
    {
      chatbot := !chatbot;
      WelcomeEffect();
    }

    /** The input box's `onChange`. */
    method SetUserInput(value: string)
      modifies `userInput
      ensures userInput == value
    {
      userInput := value;
    }

    /**
     * `handleChatSubmit`. A blank input does nothing. Otherwise the input is appended as the
     * user's message and cleared, the chat endpoint `chat` is asked with the input as typed, its
     * answer (or the apology) is appended, and a reply naming a mutation refetches the current
     * page through `server`. A refetch that succeeds replaces the loaded users, which re-runs the
     * filter effect; a failed one leaves them, and so the filtered list, as they were.
     */
    method HandleChatSubmit(chat: string -> Option<ChatReply>, server: Pagination.Request -> Option<Pagination.PageResponse<User>>)
      modifies this, hook
      ensures var input := old(userInput);
        chatMessages == AfterChatSubmit(old(chatMessages), input, chat(input))
      ensures userInput == if Text.Trim(old(userInput)) == [] then old(userInput) else ""
      ensures searchTerm == old(searchTerm) && chatbot == old(chatbot)
      ensures var refetched := Text.Trim(old(userInput)) != [] && Refetches(chat(old(userInput)));
        filteredUsers == if refetched && !hook.error then FilterEffectResult(hook.data, searchTerm, old(filteredUsers))
          else old(filteredUsers)
      ensures var refetched := Text.Trim(old(userInput)) != [] && Refetches(chat(old(userInput)));
        if refetched then
          && hook.CurrentWindow() == Pagination.FetchWindow(old(hook.CurrentWindow()), hook.url, old(hook.currentPage), server)
          && hook.log == old(hook.log) + [Pagination.LoadingOn] + Pagination.Gets(Pagination.Issued(hook.url, old(hook.currentPage), server)) + [Pagination.LoadingOff]
          && !hook.loading && hook.currentPage == old(hook.currentPage)
        else
          && hook.CurrentWindow() == old(hook.CurrentWindow()) && hook.log == old(hook.log)
          && hook.loading == old(hook.loading) && hook.currentPage == old(hook.currentPage)
    {
      if Text.Trim(userInput) == [] {
        return;
      }
      var input := userInput;
      chatMessages := chatMessages + [ChatMessage("user", input)];
      userInput := "";
      var response := chat(input);
      match response {
        case Some(reply) =>
          var content := if reply.users.Some? then reply.message + UsersFoundHeading + reply.users.value else reply.message;
          chatMessages := chatMessages + [ChatMessage("assistant", content)];
          if reply.operation != "" && (reply.operation == "create" || reply.operation == "update" || reply.operation == "delete") {
            hook.FetchData(server);
            if !hook.error {
              // A successful fetch stores a new `users` array, so the filter effect runs again.
              FilterEffect();
            }
          }
        case None =>
          chatMessages := chatMessages + [ChatMessage("assistant", ApologyText)];
      }
    }
  }
}
