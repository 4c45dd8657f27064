# User administration UI: state and validation logic

This project is a Dafny model of the logic inside a small React admin front end for a user
database. Everything else is presentation. The model covers five pieces:

- **The paginated fetch hook `usePaginatedFetchData`** (`pagination.dfy`). It is a class holding
  the page, its neighbours, the count and the `loading`/`error` flags. One fetch sends up to three
  GETs in a fixed order, and a ghost event log records them. Its effect on the state is proved
  against a pure specification function, `FetchWindow`.
- **The dashboard's add-user form** (`dashboard.dfy`). It has:
  - the per-field rules: required first, then the email, phone and age formats;
  - the error map `validateForm` builds;
  - editing a field;
  - the submit handler, which resets the form after a successful POST.
- **The user page** (`user_page.dfy`). It has:
  - the case-insensitive search filter and the effect that applies it;
  - the assistant panel's welcome message;
  - the chat submit, which appends messages and refetches the hook after a mutation.
- **The chatbot widget** (`chatbot.dfy`). Its submit is guarded by blank input and `isLoading`
  and appends a user message then an assistant message. The file also has the welcome message
  and `formatMessage`'s line classification.
- **The toast provider and card** (`toast.dfy`). It has:
  - the list that `showToast` appends to and `removeToast` filters;
  - `useToast`'s failure without a provider;
  - the style string made from the type and the animation state;
  - the auto-close condition.

Two support modules hold the JavaScript operations the code relies on:

- `text.dfy` covers white space as `trim` and `\s` see it, ASCII lowering, `includes`,
  `startsWith`/`endsWith`, and `split`/`join` with their round trips.
- `sequences.dfy` covers `filter`: membership, how often each element is kept, order
  preservation as a subsequence, and concatenation.

The network is modelled as oracles: functions from a request to `Option` of a response. `None` is
a failed request, which the source sees as an axios exception. Identifiers the source draws with
`Math.random` are parameters. React state updates within one handler are applied in program
order, and each handler or effect runs as one atomic step.

Two facts about the hook shape the model:

- The hook takes only a URL. It has no page-size argument, no `totalPages` and no navigation
  functions, and the page size is the constant 5, so `ScrappedData`'s second argument `10` is
  ignored.
- `refetch` is the same function as `fetchData`.

## Model

| member | source | states |
|---|---|---|
| `Pagination.Planned` | src/hooks/user.ts:16-26 | The requests a fetch plans, in order: the page, the page before it only when that is at least 1, then the page after. Its properties are in `IssuedOrder`. |
| `Pagination.SendUntilFailure` | src/hooks/user.ts:15-33 | The sequential awaits: a request goes out only after the one before it succeeded. Its properties are in `SendUntilFailureSpec`. |
| `Pagination.Issued` | src/hooks/user.ts:16-26 | The requests one fetch sends. Its properties are in `IssuedOrder` and `FirstPageHasNoPrevious`. |
| `Pagination.FetchWindow` | src/hooks/user.ts:15-33 | The state the try/catch block leaves, stage by stage. Its properties are in `FetchErrorIff`, `FetchDataStaleOnFailure`, `FetchPreviousData` and `NextFailureLeavesNewPrevious`. |
| `Pagination.SendUntilFailureSpec` | src/hooks/user.ts:15-33 | The requests sent are a prefix of the planned ones. Each one after the first goes out only when the one before succeeded, and sending stops early only on a failure. |
| `Pagination.IssuedOrder` | src/hooks/user.ts:16-26 | A fetch of `page` sends the current page first. It sends `page-1` only when that is at least 1, then `page+1`. Every request uses the collection's URL and page size 5. |
| `Pagination.FetchErrorIff` | src/hooks/user.ts:27-33 | `error` ends up true exactly when one of the planned requests fails. |
| `Pagination.FetchDataStaleOnFailure` | src/hooks/user.ts:27-33 | On success, `data` and `count` come from the current page and `nextData` from the next page. On failure all three keep their old values. |
| `Pagination.FetchPreviousData` | src/hooks/user.ts:19-25 | `previousData` is kept when the current page fails. It becomes `null` on page 1 and the previous page's items when that request succeeds, and it is kept when that request fails. |
| `Pagination.NextFailureLeavesNewPrevious` | src/hooks/user.ts:23-29 | When only the next-page request fails, `error` is set and `previousData` already holds the new previous page, while `data`, `count` and `nextData` are stale. |
| `Pagination.FirstPageHasNoPrevious` | src/hooks/user.ts:19-21 | On page 1 no request for page 0 goes out, and once the page arrives `previousData` is `null`. |
| `Pagination.PaginatedFetch.constructor` | src/hooks/user.ts:5-12 | The initial state: no data, count 0, `loading` true, `error` false, page 1. |
| `Pagination.PaginatedFetch.FetchData` | src/hooks/user.ts:13-37 | The new state is `FetchWindow` of the old state. The log gains the loading-on event, exactly the GETs `Issued` lists and the loading-off event. `loading` is false afterwards and the page is unchanged. |
| `Pagination.PaginatedFetch.SetCurrentPage` | src/hooks/user.ts:39-43 | Setting the page fetches that page exactly when it differs from the current one. Otherwise nothing changes. |
| `Toasts.WithoutIdSpec` | src/components/Toast.tsx:126-128 | `removeToast(id)` keeps exactly the toasts whose id differs. Each is kept as often as it occurred, as a subsequence in the original order. |
| `Toasts.WithoutAbsentId` | src/components/Toast.tsx:127 | Removing an id no toast has leaves the list unchanged. |
| `Toasts.ShowThenRemove` | src/components/Toast.tsx:115-128 | Showing a toast under a fresh id and then removing that id restores the list. |
| `Toasts.WithoutId` | src/components/Toast.tsx:127 | The list `removeToast(id)` leaves. Its properties are in `WithoutIdSpec`, `WithoutAbsentId` and `ShowThenRemove`. |
| `Toasts.ToastProvider.constructor` | src/components/Toast.tsx:113 | The provider starts with no toasts. |
| `Toasts.ToastProvider.ShowToast` | src/components/Toast.tsx:115-124 | Exactly one toast with the given id, message and type is appended at the end, and the existing toasts are unchanged. |
| `Toasts.ToastProvider.RemoveToast` | src/components/Toast.tsx:126-128 | The list becomes the filtered list `WithoutId`. |
| `Toasts.UseToast` | src/components/Toast.tsx:144-149 | It succeeds exactly when a provider is present, and otherwise fails with the source's message. |
| `Toasts.Palette` | src/components/Toast.tsx:43-54 | The colour classes per type, gray for any other type. Its properties are in `UnknownKindIsGray`. |
| `Toasts.ToastClasses` | src/components/Toast.tsx:35-55 | The class list: base, transition, on- or off-screen transform, palette. Its properties are in `ToastStylesClasses` and `TransformClass`. |
| `Toasts.GetToastStyles` | src/components/Toast.tsx:35-55 | The style string, the class list joined by spaces. Its properties are in `ToastStylesClasses`. |
| `Toasts.ToastStylesClasses` | src/components/Toast.tsx:35-55 | The style string splits into the class list. The list starts with the base classes, has `translate-x-0` iff the toast is visible and not leaving (`translate-x-full` otherwise), and ends with the palette chosen by the type alone. |
| `Toasts.TransformClass` | src/components/Toast.tsx:37-41 | The transform classes occur only in the animation part, each exactly in its own case. |
| `Toasts.UnknownKindIsGray` | src/components/Toast.tsx:52-53 | A type other than the four known ones gets the gray palette. |
| `Toasts.ToastCard.constructor` | src/components/Toast.tsx:11-28 | A new card is hidden and not leaving, and it schedules auto-close iff `duration > 0`. The duration defaults to 5000. |
| `Toasts.ToastCard.Enter` | src/components/Toast.tsx:15-19 | The entrance step makes the card visible and changes nothing else. |
| `Toasts.ToastCard.HandleClose` | src/components/Toast.tsx:30-33 | Closing marks the card as leaving and removes its id from the provider's list. |
| `Toasts.ToastCard.Styles` | src/components/Toast.tsx:35-41 | The card's class list starts with the base classes and holds `translate-x-0` iff the card is visible and not leaving. |
| `Dashboard.WithField` | src/pages/Dashboard.tsx:71-74 | Only the named field takes the new value. |
| `Dashboard.MessageText` | src/pages/Dashboard.tsx:86-101 | Every error text is non-empty, so every recorded entry is truthy. |
| `Dashboard.EmailPatternUnanchored` | src/pages/Dashboard.tsx:89 | The email pattern is unanchored: text around a matching address keeps it matching. |
| `Dashboard.EmailPattern` | src/pages/Dashboard.tsx:89 | `/\S+@\S+\.\S+/.test`: somewhere a non-space, `@`, one or more non-spaces, `.`, and a non-space. Its properties are in `EmailRule` and `EmailPatternUnanchored`. |
| `Dashboard.PhonePattern` | src/pages/Dashboard.tsx:95 | `/^[\d\s\-\+\(\)]+$/.test`: non-empty, every character a digit, white space, `-`, `+`, `(` or `)`. Its properties are in `PhoneRule`. |
| `Dashboard.AgeNumber` | src/pages/Dashboard.tsx:100 | `Number(age)` for trimmed decimal digits, `NaN` otherwise. Its properties are in `AgeRule`, `AgeIgnoresSurroundingSpace` and `AgeExamples`. |
| `Dashboard.FieldError` | src/pages/Dashboard.tsx:86-102 | A field has no error iff it is non-blank and passes its format rule. It gets "required" iff it is blank, so "required" takes precedence. Otherwise it gets the format message, and never more than one message. |
| `Dashboard.RecordError` | src/pages/Dashboard.tsx:86-102 | One field's `if`: the map gains the field's message when it has one. Its properties are in `FormErrorsSpec`. |
| `Dashboard.FormErrors` | src/pages/Dashboard.tsx:84-102 | The map built field by field in the source's order. Its properties are in `FormErrorsSpec` and `ValidIffAllFieldsOk`. |
| `Dashboard.FormErrorsSpec` | src/pages/Dashboard.tsx:84-102 | The error map has an entry exactly for the fields with an error, holding that field's message. Each field is judged on its own value. |
| `Dashboard.ValidIffAllFieldsOk` | src/pages/Dashboard.tsx:83-106 | The map is empty iff every field is non-blank and passes its rule. |
| `Dashboard.EmailRule` | src/pages/Dashboard.tsx:87-91 | The email is invalid iff it is non-blank and the unanchored pattern non-space, `@`, non-spaces, `.`, non-space has no match. |
| `Dashboard.PhoneRule` | src/pages/Dashboard.tsx:93-97 | The phone is invalid iff it is non-blank and holds a character other than a digit, white space, `-`, `+`, `(` or `)`. |
| `Dashboard.AgeRule` | src/pages/Dashboard.tsx:98-102 | The age is out of range iff it is non-blank and either not a number or outside 1 to 120. |
| `Dashboard.AgeIgnoresSurroundingSpace` | src/pages/Dashboard.tsx:98-100 | The age read from a field equals the age read from its trimmed value. |
| `Dashboard.AgeExamples` | src/pages/Dashboard.tsx:100 | `" 42 "` reads as 42; `"4 2"` is not a number. |
| `Dashboard.NameAndAddressOnlyRequired` | src/pages/Dashboard.tsx:86-92 | Name and address have an entry exactly when blank, and it is "required". |
| `Dashboard.ClearError` | src/pages/Dashboard.tsx:75-80 | The field's entry is gone and every other entry is unchanged. |
| `Dashboard.OrElse` | src/pages/Dashboard.tsx:123 | `a \|\| b` on strings: the first one unless it is empty. |
| `Dashboard.AddUserForm.constructor` | src/pages/Dashboard.tsx:24-32 | The form starts empty, with no errors and not submitting. |
| `Dashboard.AddUserForm.HandleInputChange` | src/pages/Dashboard.tsx:69-81 | Only the named field changes, only that field's error is cleared, and nothing else changes. |
| `Dashboard.AddUserForm.ValidateForm` | src/pages/Dashboard.tsx:83-106 | The stored errors are `FormErrors` of the form, the result is true iff they are empty, and only `errors` changes. |
| `Dashboard.AddUserForm.HandleAddUser` | src/pages/Dashboard.tsx:108-142 | An invalid form shows the fix-the-errors toast and stops. A created user resets all five fields and the error map and shows the server's message or the default. A rejected post keeps the form and shows the error message or the default. `isSubmitting` ends false after a post. |
| `UserPage.Matches` | src/pages/User.tsx:47-53 | The search predicate. Its properties are in `MatchesIffOccurs` and `MatchIgnoresCaseOfTextFields`. |
| `UserPage.SearchResults` | src/pages/User.tsx:44-54 | The filtered list for a term. Its properties are in `SearchResultsSpec` and `EmptyTermShowsAll`. |
| `UserPage.MatchesIffOccurs` | src/pages/User.tsx:47-53 | A user matches iff the lowered term occurs in the lowered name, email or address, or the term occurs as typed in the phone or age. |
| `UserPage.MatchIgnoresCaseOfTextFields` | src/pages/User.tsx:48-51 | Lowering the stored name, email and address does not change whether a user matches. |
| `UserPage.SearchResultsSpec` | src/pages/User.tsx:44-54 | The filtered list keeps exactly the matching users, each as often as it was loaded, as a subsequence in order. The empty-term shortcut agrees with the filter. |
| `UserPage.EmptyTermShowsAll` | src/pages/User.tsx:44-45 | With the empty term the filtered list is the loaded list. |
| `UserPage.FilterEffectResult` | src/pages/User.tsx:41-57 | When users are null or empty, the previous filtered list stays. |
| `UserPage.FilterEffectLoaded` | src/pages/User.tsx:42-54 | With users loaded, the effect keeps exactly the matching users, with their multiplicities, in order. |
| `UserPage.FilterEffectIdempotent` | src/pages/User.tsx:41-57 | Running the effect twice on the same inputs is the same as once. |
| `UserPage.WithWelcome` | src/pages/User.tsx:60-67 | The welcome message is inserted only into an open, empty panel. |
| `UserPage.WelcomeOnce` | src/pages/User.tsx:60-67 | The welcome message is never inserted twice. |
| `UserPage.ReplyText` | src/pages/User.tsx:84-91 | The reply starts with the server's message. With users, it continues with the heading and ends with their JSON text. |
| `UserPage.RefetchOnlyAfterMutation` | src/pages/User.tsx:99-105 | A refetch happens iff the request succeeded and names create, update or delete. |
| `UserPage.AfterChatSubmit` | src/pages/User.tsx:69-112 | A blank input leaves the list alone. Otherwise the list gains exactly the user's untrimmed input and then one assistant message, the reply or the apology. |
| `UserPage.ChatStaysPaired` | src/pages/User.tsx:60-112 | The welcome effect and every submit keep each user message directly followed by an assistant message. |
| `UserPage.UserList.constructor` | src/pages/User.tsx:17-38 | The page starts with the empty term, no filtered users, the panel closed, no messages and empty input. |
| `UserPage.UserList.FilterEffect` | src/pages/User.tsx:41-57 | The filtered list becomes `FilterEffectResult` of the hook's data, the term and the old list. |
| `UserPage.UserList.SetSearchTerm` | src/pages/User.tsx:151-157 | The term is stored and the filter effect applied. |
| `UserPage.UserList.WelcomeEffect` | src/pages/User.tsx:60-67 | The message list becomes `WithWelcome` of the old list. |
| `UserPage.UserList.ToggleChatbot` | src/pages/User.tsx:179 | The panel flips open or closed, then the welcome effect runs. |
| `UserPage.UserList.SetUserInput` | src/pages/User.tsx:231 | The input takes the typed value. |
| `UserPage.UserList.HandleChatSubmit` | src/pages/User.tsx:41-112 | The messages become `AfterChatSubmit`, and the input is cleared unless it was blank. The hook is refetched exactly when the reply names a mutation; otherwise the hook is untouched. A successful refetch re-runs the filter effect on the new users; otherwise the filtered list is unchanged. |
| `Chatbot.WithWelcome` | src/components/Chatbot.tsx:32-42 | The welcome message is added only when the widget is open and has no messages. |
| `Chatbot.WelcomeAtMostOnce` | src/components/Chatbot.tsx:32-42 | The welcome message is never added twice. |
| `Chatbot.AnswerData` | src/components/Chatbot.tsx:97 | `data \|\| users`: the answer's own data when present, else its users. |
| `Chatbot.AssistantMessage` | src/components/Chatbot.tsx:93-114 | The assistant message carries the server's message and operation, or the error text when the request failed. |
| `Chatbot.AfterSubmit` | src/components/Chatbot.tsx:76-114 | An accepted submit appends exactly two messages, the user's trimmed input and then the assistant message. Earlier messages are unchanged. |
| `Chatbot.SubmitToasts` | src/components/Chatbot.tsx:102-115 | A reported mutation shows "User <op> operation completed!" as success, a failure shows "Failed to send message" as error, and nothing else shows a toast. |
| `Chatbot.RefreshIffSuccessToast` | src/components/Chatbot.tsx:102-107 | `onRefresh` fires exactly when the success toast does, only for create, update or delete. |
| `Chatbot.ChatWidget.constructor` | src/components/Chatbot.tsx:22-29 | The widget starts with no messages, empty input and not loading. |
| `Chatbot.ChatWidget.WelcomeEffect` | src/components/Chatbot.tsx:32-42 | The messages become `WithWelcome` of the old list. |
| `Chatbot.ChatWidget.SetOpen` | src/components/Chatbot.tsx:22-42 | The open flag takes the parent's value, then the welcome effect runs. |
| `Chatbot.ChatWidget.SetUserInput` | src/components/Chatbot.tsx:310 | The input takes the typed value. |
| `Chatbot.ChatWidget.HandleSubmit` | src/components/Chatbot.tsx:72-119 | A blank input or a loading widget changes nothing. Otherwise the messages become `AfterSubmit` of the trimmed input, the input is cleared, `loading` is set and then cleared, the toasts are `SubmitToasts`, and a refresh is returned iff the answer reports a mutation. |
| `Chatbot.StripStars` | src/components/Chatbot.tsx:130 | `slice(2, -2)`: two characters off each end, or empty for lines shorter than four. |
| `Chatbot.FormatLine` | src/components/Chatbot.tsx:123-133 | One line's rendering. Its properties are in `FormatLineSpec`, `SpacerIsPlain` and `BoldRoundTrip`. |
| `Chatbot.FormatLines` | src/components/Chatbot.tsx:122 | One formatted entry per line, in order. |
| `Chatbot.FormatMessage` | src/components/Chatbot.tsx:121-136 | The entries are the formatted `'\n'`-separated lines of the content, in order. |
| `Chatbot.FormatMessageLines` | src/components/Chatbot.tsx:122 | There is one entry more than there are line breaks, the lines join back into the content, and no line holds a break. |
| `Chatbot.FormatLineSpec` | src/components/Chatbot.tsx:123-133 | Classification in order: a line starting with `•` is a bullet holding the trimmed rest. Else a line starting and ending with `**` is bold with the stars stripped. Any other line is plain, holding the line itself. A line gets the spacer iff it is all white space. |
| `Chatbot.SpacerIsPlain` | src/components/Chatbot.tsx:123-133 | A blank line is never a bullet or bold. |
| `Chatbot.BoldRoundTrip` | src/components/Chatbot.tsx:129-130 | A bold line of length at least four is `**` + its text + `**`. |
| `Text.Trim` | src/pages/Dashboard.tsx:86 | `trim`. Its properties are in `TrimIsInnerSlice`, `TrimIdempotent` and `BlankIffAllSpace`. |
| `Text.TrimIsInnerSlice` | src/pages/Dashboard.tsx:86 | `trim` returns the slice between the leading and trailing white space, and everything cut off is white space. |
| `Text.TrimIdempotent` | src/pages/Dashboard.tsx:98-100 | Trimming twice is trimming once. |
| `Text.ToLower` | src/pages/User.tsx:48-51 | `toLowerCase` on ASCII letters: the same length, each character lowered, every other character unchanged. |
| `Text.Includes` | src/pages/User.tsx:48-52 | `includes`. Its properties are in `IncludesIffOccurs`. |
| `Text.Split` | src/components/Chatbot.tsx:122 | `split` on one character, with at least one piece. Its properties are in `JoinSplit`, `SplitJoin`, `SplitCount` and `SplitPiecesFree`. |
| `Text.Join` | src/components/Toast.tsx:35-55 | The space-separated template string. Its properties are in `JoinSplit` and `SplitJoin`. |
| `Text.SplitCount` | src/components/Chatbot.tsx:122 | A split has one piece more than there are separators. |
| `Text.SplitPiecesFree` | src/components/Chatbot.tsx:122 | No piece of a split holds the separator. |
| `Text.BlankIffAllSpace` | src/components/Chatbot.tsx:74 | A string trims to empty iff all its characters are white space. |
| `Text.IncludesIffOccurs` | src/pages/User.tsx:48-52 | `includes` holds iff the needle occurs contiguously somewhere. |
| `Text.JoinSplit` | src/components/Chatbot.tsx:122 | Joining the pieces of a split gives back the string. |
| `Text.SplitJoin` | src/components/Toast.tsx:35-55 | Splitting a join of separator-free pieces gives back the pieces. |
| `Sequences.Filter` | src/pages/User.tsx:47 | `filter`: never longer than its input. Its properties are in `FilterMembers`, `FilterCounts`, `FilterIsSubsequence`, `FilterKeepsAll` and `FilterConcat`. |
| `Sequences.FilterMembers` | src/pages/User.tsx:47 | An element is kept iff it was present and satisfies the predicate. |
| `Sequences.FilterCounts` | src/components/Toast.tsx:127 | Each satisfying element is kept exactly as often as it occurs, and no other element is kept. |
| `Sequences.FilterIsSubsequence` | src/pages/User.tsx:47 | The result is a subsequence of the input: order is preserved. |

## Left out

- HTTP, `axios`, its base URL, timeout and headers (src/api/apis.ts is not part of this model). Each request is an oracle call, and a failure is `None`, whatever its cause.
- Concurrency. A fetch or a submit runs to completion before anything else happens. Overlapping fetches, stale responses and a second submit arriving while `isLoading` is set are not modelled, so the `isLoading` guard is modelled but never meets a loading widget in practice.
- Timers: the toast's 50 ms entrance and 300 ms exit delays, the auto-close timeout itself (only whether it is scheduled), `simulateTyping`, and the focus timeout.
- `Math.random` ids, `Date` timestamps and the chatbot's `isTyping` state. Ids are parameters.
- `Dashboard.AgeNumber`: does not model JavaScript's `Number()` (decimals, exponents, hex, signs). Only a trimmed run of decimal digits is a number, and anything else is `NaN`.
- `Text.ToLower`: lowers ASCII letters only, not full Unicode `toLowerCase`.
- `UserPage.ReplyText`: `JSON.stringify` of the returned users is an opaque string. A missing server message, which the template would print as `undefined`, is not modelled.
- The dashboard's `fetchStats` (mock statistics and floating-point averages), `handleDeleteUser`'s alert-and-refetch, and all JSX, Tailwind markup, icons and routing.
- The hook fields `User.tsx` and `ScrappedData.tsx` read but the hook does not return (`pageSize`, `totalPages`, `goToPage` and the rest). They are undefined at run time, and no such API is invented here.
- `handleInputChange` stores `undefined` for a cleared error. The model removes the key, which no reader of the map can tell apart, since only the entry's truthiness is read.
- Where `ToastProvider` is mounted: main.tsx is not part of this model. `useToast` is modelled on an optional provider.
