# Serenify, modelled in Dafny

Serenify is a mental-health companion web app. This project models the parts of it that
have real logic:

- **The chat pipeline.**
  - The conversation store is kept in the browser's local storage as a list of chats, newest first.
  - The server actions append a user or assistant message to a chat.
  - The streaming client formats the history and posts it to the completion endpoint.
  - It decodes the event stream that comes back and falls back to an emergency reply.
  - It saves the reply, and it has an outer recovery.
- **The completion endpoint.**
  - It validates the request and probes the hosted model, trying the listed model names in order.
  - It builds the conversation text.
  - It answers with the live relay or the word-by-word fallback stream.
  - It also answers the CORS preflight.
- **The server-side API-status flags.**
- **The mood model:**
  - the seven mood bands, with their labels, colours, backgrounds and descriptors;
  - the mock logs.
- **The screens that use the mood model:**
  - the home page, with its greeting, today's log and latest log;
  - the five-day summary;
  - the mood-log card.
- **The small state machines of the interface:**
  - the mood-logger dialog;
  - the login dialog;
  - the bottom navigation bar;
  - the chat list, with search, date groups and confirmed deletion.

Modules follow the source files:

| module | file | source |
|---|---|---|
| `Wrappers` | wrappers.dfy | `Option` and `Result` |
| `Strings` | strings.dfy | JavaScript's `trim`, `split`, `join`, `toLowerCase`, `includes`, `lastIndexOf` |
| `ChatStorage` | chat_storage.dfy | lib/chat-storage.ts |
| `ChatActions` | chat_actions.dfy | app/actions/chat-actions.ts |
| `ChatClient` | chat_client.dfy | lib/chat-client.ts |
| `ChatRoute` | chat_route.dfy | app/api/chat/route.ts |
| `StreamRoundTrip` | stream_round_trip.dfy | the endpoint's frames read by the client's decoder |
| `ApiStatus` | api_status.dfy | lib/server-api-status.ts |
| `Calendar`, `MoodTypes` | mood_types.dfy | day numbers, and lib/mood-types.ts |
| `MoodLogger` | mood_logger.dfy | components/mood-logger-modal.tsx |
| `LoginModal` | login_modal.dfy | components/login-modal.tsx |
| `BottomNav` | bottom_nav.dfy | components/bottom-nav-bar.tsx |
| `ChatList` | chat_list.dfy | components/chat-list.tsx |
| `HomePage` | home_page.dfy | app/page.tsx |
| `WeeklySummary` | weekly_summary.dfy | components/weekly-mood-summary.tsx |
| `MoodLogDetail` | mood_log_detail.dfy | components/mood-log-detail.tsx |

How each kind of source code is modelled:

- **State that the source changes in place becomes a class with `modifies` clauses:**
  - the store's record (`ChatStorage.Store`);
  - the status flags;
  - each component's React state.
- **Loops are methods with loop invariants, proved against a specification function:**
  - the stream decoder;
  - the conversation-text builder;
  - the probe;
  - the relay;
  - the fallback stream;
  - the grouping of chats;
  - the five-day window.
- **Pure code is functions and lemmas.**

Several things the model cannot see become parameters:

- Timestamps are integers of milliseconds, and calendar days are `t / DayMs`.
- Ids and clock readings are passed in.
- `Math.random()` is an index into the list it picks from.
- `JSON.parse` of a frame's payload is an arbitrary partial function `extract`.
- The hosted model is an oracle (`ChatRoute.Upstream`).

### Behaviour of the code worth knowing

- **The fallback stream's decoded text** is the canned reply followed by one space, because every word is sent with a trailing space (`StreamRoundTrip.FallbackRoundTrip`).
- **The client's emergency reply** is emitted after any text already passed to `onChunk` when the stream breaks mid-way, and it does not extend that text (`ChatClient.FallbackAfterPartialOutput`).
- **A live stream that throws mid-way** is ended with an error and never sends the `[DONE]` sentinel (`ChatRoute.CreateGeminiStream`).
- **The 400 answer** is given when `messages` is missing, is present but not an array, or is an empty array. Two kinds of body get the fallback stream with status 200 (`ChatRoute.Post`):
  - a body that is not JSON;
  - a body that is the JSON `null`, because destructuring it throws into the outer `catch`.
- **The client fails outright** with "Failed to process chat: Chat with ID … not found" whenever the chat is not in the store. In the model this is the only way its outer recovery is entered, and that recovery then fails too (`ChatClient.GetStreamingResponse`).

## Model

| member | source | states |
|---|---|---|
| Strings.TrimSpec | lib/chat-client.ts:33 | `trim` removes exactly the leading and trailing white space: the result is the input's middle part, with no white space at either end |
| Strings.TrimIdempotent | lib/chat-client.ts:33 | trimming twice is trimming once |
| Strings.BlankIffAllSpace | lib/chat-client.ts:75 | a text trims to "" exactly when it is all white space |
| Strings.ToLower | components/chat-list.tsx:28-29 | lower-casing keeps the length and maps every character by itself, A-Z to a-z |
| Strings.ContainsIff | components/chat-list.tsx:28-29 | `includes` holds exactly when the needle occurs at some offset |
| Strings.JoinSplit | app/api/chat/route.ts:51 | joining the parts of `split(c)` with `c` gives back the text |
| Strings.Split | lib/chat-client.ts:146 | `split` yields at least one part, and no part contains the separator |
| Strings.LastIndexOf | lib/chat-client.ts:174 | the last index of the character, and -1 exactly when it does not occur |
| ChatStorage.SortByRecency | lib/chat-storage.ts:34-36 | the read-back list is a permutation of the stored one |
| ChatStorage.SortProperties | lib/chat-storage.ts:34-36 | the read-back list is newest first, has the same chats, and keeps ids distinct |
| ChatStorage.SortKeepsSorted | lib/chat-storage.ts:34-36 | the sort is stable: a list already newest first reads back unchanged |
| ChatStorage.Store.GetSavedChats | lib/chat-storage.ts:27-41 | [] when storage is unavailable or the record does not parse; otherwise the stored chats as a permutation, newest first |
| ChatStorage.FindIndex | lib/chat-storage.ts:60 | the index of the first chat with the id, and -1 exactly when there is none |
| ChatStorage.FindChat | lib/chat-storage.ts:47 | a chat is found exactly when one has the id, and it is a stored chat with that id |
| ChatStorage.Store.GetChatById | lib/chat-storage.ts:44-52 | found exactly when storage is readable and holds the id; the result is a stored chat with that id |
| ChatStorage.Upsert | lib/chat-storage.ts:59-66 | a known id is replaced at its index and every other chat kept; an unknown id goes in front; ids stay distinct |
| ChatStorage.Store.SaveChat | lib/chat-storage.ts:55-72 | no effect when storage is unavailable; otherwise the record becomes the upsert of the read-back list |
| ChatStorage.RemoveId | lib/chat-storage.ts:80 | the filter never lengthens the list |
| ChatStorage.RemoveIdMembers | lib/chat-storage.ts:80 | exactly the chats with a different id are kept |
| ChatStorage.RemoveIdNewestFirst | lib/chat-storage.ts:79-80 | the filter keeps the newest-first order |
| ChatStorage.RemoveIdDistinct | lib/chat-storage.ts:80 | the filter keeps ids distinct |
| ChatStorage.RemoveIdIdempotent | lib/chat-storage.ts:80 | filtering out an id twice is filtering once |
| ChatStorage.Store.DeleteChat | lib/chat-storage.ts:75-86 | no effect when storage is unavailable; otherwise the record is the read-back list without the id; afterwards no chat has the id |
| ChatStorage.DeleteTwice | lib/chat-storage.ts:75-86 | deleting the same id a second time leaves the record as the first deletion did |
| ChatStorage.NewChat | lib/chat-storage.ts:89-107 | title "New Conversation", one assistant message stamped with the chat's time, preview a proper prefix of that message |
| ChatStorage.Store.CreateNewChat | lib/chat-storage.ts:89-111 | returns the new chat; when storage is available it is saved and can be found by its id |
| ChatStorage.FirstUserIndex | lib/chat-storage.ts:116 | the index of the first user message, and -1 exactly when there is none |
| ChatStorage.TitleFrom | lib/chat-storage.ts:120-121 | at most 33 characters: the content itself up to 30 characters, else its first 30 and "..." |
| ChatStorage.GenerateChatTitle | lib/chat-storage.ts:114-125 | "New Conversation" when no message is from the user, else the title of the first user message |
| ChatStorage.NoUserCountZero | lib/chat-storage.ts:140 | a zero count of user messages means no message is from the user |
| ChatStorage.AppendMessage | lib/chat-storage.ts:135-142 | the message is last, preview and time are copied from it, the title is regenerated only for the chat's first user message |
| ChatStorage.FindAfterUpsert | lib/chat-storage.ts:47-66 | after saving a chat and reading back, looking its id up finds that very chat |
| ChatStorage.Store.AddMessageToChat | lib/chat-storage.ts:128-146 | an unknown id (or unreadable storage) fails with "not found" before any write; otherwise the appended chat is saved and found again |
| ChatActions.SaveUserMessage | app/actions/chat-actions.ts:7-20 | succeeds exactly when the chat exists; returns a user message with the content as given, now last in the stored chat; a first user message sets the title; a failure writes nothing |
| ChatActions.SaveAIMessage | app/actions/chat-actions.ts:23-36 | the same for an assistant message |
| ChatClient.Formatted | lib/chat-client.ts:38-41 | the request ends with the new turn, role "user", content untrimmed |
| ChatClient.FormatHistoryAppend | lib/chat-client.ts:29-35 | formatting works entry by entry and keeps the order |
| ChatClient.FormatHistoryShape | lib/chat-client.ts:29-35 | the history is no longer than the input and every kept message has role user/assistant and trimmed non-empty content |
| ChatClient.FormattedLength | lib/chat-client.ts:29-41 | the request has at most one message more than the history |
| ChatClient.NextBuffer | lib/chat-client.ts:172-178 | what the buffer keeps is a suffix of it |
| ChatClient.NextBufferNoBreak | lib/chat-client.ts:173-177 | after a read that saw a data line, no line break is left in the buffer |
| ChatClient.NextBufferKeeps | lib/chat-client.ts:173 | a read without a data line keeps the whole buffer |
| ChatClient.ScanLinesSpec | lib/chat-client.ts:146-170 | the line loop counts exactly the data lines and only ever extends the response and the `onChunk` arguments |
| ChatClient.OtherLinesIgnored | lib/chat-client.ts:150 | lines without the `data: ` prefix change nothing |
| ChatClient.DecodeEmissions | lib/chat-client.ts:135-184 | every `onChunk` argument strictly extends the one before; the result is the last of them, or "" if there was none |
| ChatClient.DecodeSnoc | lib/chat-client.ts:135-179 | one more chunk is one more read of the decoder |
| ChatClient.ScanCarrier | lib/chat-client.ts:150-165 | a data line carrying content `c` adds `c` and one `onChunk` call |
| ChatClient.TailLineCountedTwice | lib/chat-client.ts:146-178 | a data line read without its line break is counted, kept, and counted again when the break arrives |
| ChatClient.DecodeReads | lib/chat-client.ts:135-179 | the read loop computes the decoder's specification over the chunks |
| ChatClient.ReadChunk | lib/chat-client.ts:143-178 | one pass of the loop is one read of the specification |
| ChatClient.ScanAll | lib/chat-client.ts:146-170 | the line loop computes the scan's specification |
| ChatClient.ProcessStreamResponse | lib/chat-client.ts:124-185 | no reader or a failed read gives no text; otherwise the decoded text and the `onChunk` arguments |
| ChatClient.ReplyIsLastChunk | lib/chat-client.ts:68-89 | the reply is a non-blank streamed text or an emergency reply, and the last `onChunk` call carries it |
| ChatClient.FallbackAfterPartialOutput | lib/chat-client.ts:80-89 | a stream that breaks after one piece emits that piece, then the emergency reply, which is saved and need not extend it |
| ChatClient.FallbackInitials | lib/chat-client.ts:7-12 | each emergency reply starts with "I" or "T" |
| ChatClient.InnerTry | lib/chat-client.ts:47-89 | the reply and `onChunk` arguments of the inner `try` are those of the specification |
| ChatClient.Recover | lib/chat-client.ts:100-121 | the outer recovery shows the last-resort reply only after both saves succeed; otherwise it fails with "Failed to process chat: " and the error's message |
| ChatClient.GetStreamingResponse | lib/chat-client.ts:14-122 | succeeds exactly when the chat exists; then the formatted history is posted, the reply is saved after the user message, and the exchange is returned; otherwise it fails with the not-found message, posting and storing nothing |
| ChatRoute.JsonQuote | app/api/chat/route.ts:66 | the quoted payload text holds no raw line break |
| ChatRoute.ChunkJson | app/api/chat/route.ts:56-66 | a frame's payload is one line, an object, and never the done marker |
| ChatRoute.ContentFrames | app/api/chat/route.ts:66 | one `data: ` frame per piece of content, in order |
| ChatRoute.Spaced | app/api/chat/route.ts:51-63 | each word is sent with one trailing space |
| ChatRoute.SpacedConcat | app/api/chat/route.ts:51-63 | the pieces sent add up to the words joined by spaces, plus one space |
| ChatRoute.FallbackCarriesResponse | app/api/chat/route.ts:51-63 | the fallback's pieces add up to the reply followed by one space |
| ChatRoute.CreateFallbackStream | app/api/chat/route.ts:39-78 | the reply is the picked canned reply, and the frames are one per word and then `[DONE]` |
| ChatRoute.StreamWords | app/api/chat/route.ts:51-75 | the word loop sends one frame per word, then the done frame |
| ChatRoute.NonEmpty | app/api/chat/route.ts:91 | the relay keeps only non-empty pieces |
| ChatRoute.NonEmptyConcat | app/api/chat/route.ts:88-104 | dropping the empty pieces does not change the text |
| ChatRoute.CreateGeminiStream | app/api/chat/route.ts:80-116 | one frame per non-empty piece, then `[DONE]`; a stream that throws errors out without `[DONE]` |
| ChatRoute.TestGeminiConnection | app/api/chat/route.ts:119-170 | succeeds exactly when the client builds and the default model or one listed name answers; names are tried in order, stopping at the first that answers |
| ChatRoute.ConversationLinesAppend | app/api/chat/route.ts:213-222 | the conversation text is built entry by entry |
| ChatRoute.SilentEntries | app/api/chat/route.ts:214-219 | non-objects and blank contents add no line |
| ChatRoute.BuildConversationText | app/api/chat/route.ts:210-224 | system prompt, "\n\nConversation:\n", one "Human: "/"Serenify: " line per speaking entry, then "Serenify:" |
| ChatRoute.AppendLines | app/api/chat/route.ts:213-222 | the loop appends each entry's line to the text |
| ChatRoute.Post | app/api/chat/route.ts:172-288 | 400 for a parsed, non-null body without a non-empty `messages` array; the live relay of what the model streams for the conversation text when the probe and setup succeed; otherwise, including for a body that does not parse or is `null`, the fallback stream |
| ChatRoute.AnswerConversation | app/api/chat/route.ts:189-272 | after validation: the live relay of the model's stream on the conversation text exactly when the probe and setup succeed, else the fallback stream |
| ChatRoute.RelayConversation | app/api/chat/route.ts:205-243 | an answer exactly when setup succeeds, and it relays what the streaming call yields for the conversation text built from the entries |
| ChatRoute.StartRelay | app/api/chat/route.ts:230-243 | the streaming call gets the prompt it is given, and its output is relayed |
| ChatRoute.Options | app/api/chat/route.ts:291-300 | an empty 200 answer allowing POST and OPTIONS |
| StreamRoundTrip.FrameLine | app/api/chat/route.ts:66 | a content frame is one data line, whose decoded content is the frame's content, and a blank line |
| StreamRoundTrip.ContentFramesDecode | lib/chat-client.ts:135-184 | content frames read one per chunk decode to the concatenated contents with an empty buffer |
| StreamRoundTrip.StreamDecode | app/api/chat/route.ts:70 | the done frame adds nothing |
| StreamRoundTrip.FallbackRoundTrip | app/api/chat/route.ts:51-74 | the client decodes the fallback stream to the reply plus one space, and the last `onChunk` call shows it |
| StreamRoundTrip.LiveRoundTrip | app/api/chat/route.ts:88-108 | the client decodes a live relay that ends normally to the model's whole text |
| ApiStatus.Flags.ShouldUseGemini | lib/server-api-status.ts:25-27 | Gemini is to be used exactly when neither the quota flag nor the error flag is set; the OpenAI flag plays no part |
| ApiStatus.Flags.constructor | lib/server-api-status.ts:2-4 | all flags start false, so Gemini is used |
| ApiStatus.Flags.MarkGeminiQuotaExceeded | lib/server-api-status.ts:15-18 | sets only the quota flag; Gemini is no longer used |
| ApiStatus.Flags.MarkGeminiApiError | lib/server-api-status.ts:20-23 | sets only the error flag; Gemini is no longer used |
| ApiStatus.Flags.MarkOpenAIQuotaExceeded | lib/server-api-status.ts:34-37 | sets only the OpenAI flag and never changes whether Gemini is used |
| ApiStatus.Flags.ResetGeminiStatus | lib/server-api-status.ts:40-44 | clears both Gemini flags and keeps the OpenAI flag |
| ApiStatus.Flags.ResetAllApiStatus | lib/server-api-status.ts:46-51 | clears all three flags |
| Calendar.ShiftDays | components/weekly-mood-summary.tsx:25 | moving a time by n whole days moves its day number by n |
| MoodTypes.Band | lib/mood-types.ts:11-19 | the band is one of seven |
| MoodTypes.GetMoodLabel | lib/mood-types.ts:11-19 | the label is the band's entry in the label table |
| MoodTypes.GetMoodColor | lib/mood-types.ts:21-29 | the colour is the band's entry in the colour table |
| MoodTypes.GetMoodBackgroundColor | lib/mood-types.ts:31-39 | the background is the band's entry in the background table |
| MoodTypes.GetMoodDescriptors | lib/mood-types.ts:41-49 | exactly three words, the band's |
| MoodTypes.BandCases | lib/mood-types.ts:12-18 | the band boundaries are 15, 30, 45, 55, 70 and 85 |
| MoodTypes.BandMonotone | lib/mood-types.ts:11-19 | the band never decreases as the value grows |
| MoodTypes.TablesDistinct | lib/mood-types.ts:11-39 | the seven labels, colours and backgrounds are each pairwise distinct |
| MoodTypes.LabelDeterminesBand | lib/mood-types.ts:11-49 | two values share a label exactly when they share a band, exactly when they share a colour; the label fixes the background and descriptors |
| MoodTypes.LabelsTotal | lib/mood-types.ts:12-18 | every value below 15, negatives included, is "Very Unpleasant"; every value from 85, above 100 included, is "Very Pleasant" |
| MoodTypes.MockLabels | lib/mood-types.ts:52-89 | the first three mock logs carry their value's label and colour; the fourth (value 30) carries those of the band below |
| MoodLogger.Advance | components/mood-logger-modal.tsx:92-96 | there is no next step exactly on the confirm step |
| MoodLogger.BackUndoesAdvance | components/mood-logger-modal.tsx:92-107 | going back after going forward returns to the step |
| MoodLogger.WithoutMembers | components/mood-logger-modal.tsx:117 | removing a tag keeps exactly the other tags |
| MoodLogger.WithoutDistinct | components/mood-logger-modal.tsx:117 | removing a tag keeps a list free of duplicates |
| MoodLogger.ToggleMembers | components/mood-logger-modal.tsx:115-121 | the tag's membership flips and every other tag's stays |
| MoodLogger.ToggleDistinct | components/mood-logger-modal.tsx:115-121 | toggling keeps a list free of duplicates |
| MoodLogger.ToggleTwice | components/mood-logger-modal.tsx:115-121 | toggling an absent tag twice gives the list back |
| MoodLogger.NewMoodLog | components/mood-logger-modal.tsx:69-77 | the log copies value, label and colour; tags absent exactly when none are selected; notes trimmed, and absent exactly when blank |
| MoodLogger.MoodLogger.constructor | components/mood-logger-modal.tsx:19-25 | step intro, value 50, no tags, no notes, label and colours those of 50 |
| MoodLogger.MoodLogger.SetMoodValue | components/mood-logger-modal.tsx:61-66 | a new value, with the label and colours recomputed from it |
| MoodLogger.MoodLogger.Open | components/mood-logger-modal.tsx:50-59 | opening a closed dialog puts it on the intro step |
| MoodLogger.MoodLogger.Close | components/mood-logger-modal.tsx:138 | `onOpenChange(false)` (the dialog's dismissal, its close button and each Cancel button) changes only `open`: the step, value, label, colours, tags and note are kept, so a later opening shows them again |
| MoodLogger.MoodLogger.SetNotes | components/mood-logger-modal.tsx:353 | the note changes, nothing else |
| MoodLogger.MoodLogger.ToggleTag | components/mood-logger-modal.tsx:115-121 | the selection becomes the toggle of the old one and stays free of duplicates |
| MoodLogger.MoodLogger.HandleSaveMood | components/mood-logger-modal.tsx:68-90 | the saved log is built from the current state and is consistent; then the dialog closes and the form is reset |
| MoodLogger.MoodLogger.HandleNextStep | components/mood-logger-modal.tsx:92-102 | advances intro, select and details; on confirm it saves |
| MoodLogger.MoodLogger.HandlePrevStep | components/mood-logger-modal.tsx:104-113 | goes one step back; intro stays |
| LoginModal.Login.constructor | components/login-modal.tsx:17-20 | the options step with empty fields |
| LoginModal.Login.ChooseEmail | components/login-modal.tsx:117 | options to email |
| LoginModal.Login.SetEmail | components/login-modal.tsx:148 | the email field changes, nothing else |
| LoginModal.Login.SetName | components/login-modal.tsx:172 | the name field changes, nothing else |
| LoginModal.Login.SetAge | components/login-modal.tsx:185 | the age field changes, nothing else |
| LoginModal.Login.HandleEmailContinue | components/login-modal.tsx:22-26 | email to details exactly when the email is non-empty, else nothing |
| LoginModal.Login.HandleSubmit | components/login-modal.tsx:28-38 | with a name and an age: a login, the dialog closed, step and fields reset; else nothing |
| LoginModal.Login.HandleProviderLogin | components/login-modal.tsx:40-48 | a login and the dialog closed, step and fields kept |
| LoginModal.Login.Back | components/login-modal.tsx:54-61 | details to email, email to options |
| BottomNav.TabForPath | components/bottom-nav-bar.tsx:36-45 | the tab is one of the bar's or the current one; "/" selects home |
| BottomNav.ChatsPageTab | components/bottom-nav-bar.tsx:40-41 | the chat list's page "/chats" and every path starting with it select the chat list |
| BottomNav.ChatPageTab | components/bottom-nav-bar.tsx:40-41 | every conversation page selects the chat list |
| BottomNav.SettingsPageTab | components/bottom-nav-bar.tsx:42-43 | every settings page selects the settings |
| BottomNav.OtherPathKeeps | components/bottom-nav-bar.tsx:38-44 | any other path keeps the highlighted item |
| BottomNav.HrefsDistinct | components/bottom-nav-bar.tsx:10-26 | the three targets are distinct |
| BottomNav.NavBar.OneHighlighted | components/bottom-nav-bar.tsx:79 | exactly one item is highlighted |
| BottomNav.NavBar.OnPathname | components/bottom-nav-bar.tsx:36-45 | the path effect sets the tab from the path |
| BottomNav.NavBar.HandleNavClick | components/bottom-nav-bar.tsx:58-62 | the clicked item is highlighted; clicking it again changes nothing |
| BottomNav.NavBar.HandleScroll | components/bottom-nav-bar.tsx:47-49 | scrolled exactly when the (real-valued) scroll offset is past ten pixels |
| ChatList.Filter | components/chat-list.tsx:26-30 | the search never lengthens the list |
| ChatList.FilterMembers | components/chat-list.tsx:26-30 | a chat is kept exactly when its lower-cased title or preview contains the lower-cased query |
| ChatList.FilterSubsequence | components/chat-list.tsx:26-30 | the search keeps the chats' order |
| ChatList.EmptyQueryKeepsAll | components/chat-list.tsx:26-30 | the empty query keeps every chat |
| ChatList.DateGroupOf | components/chat-list.tsx:36-49 | the cumulative `setDate` calls give the cut-offs today, yesterday, 7 days and 37 days |
| ChatList.GroupedMembers | components/chat-list.tsx:35-56 | a chat is in the group of its time and in no other |
| ChatList.GroupsPartition | components/chat-list.tsx:35-56 | the groups together hold every filtered chat once |
| ChatList.GroupKeysSpec | components/chat-list.tsx:51-53 | a group is listed exactly when it holds a chat, and once |
| ChatList.EmptyStateIffNoGroups | components/chat-list.tsx:116 | no group is drawn exactly when the filtered list is empty, which is when the empty state shows |
| ChatList.GroupChats | components/chat-list.tsx:33-56 | the `forEach` fills exactly the groups of the specification, in first-use order |
| ChatList.ChatListView.HandleDeleteClick | components/chat-list.tsx:62-66 | the chat is pending and the dialog open |
| ChatList.ChatListView.ConfirmDelete | components/chat-list.tsx:68-74 | with a pending id: storage availability unchanged, an available record loses the chat, an unavailable one is kept, the list is reloaded without it and the id cleared; otherwise nothing |
| HomePage.Greeting | app/page.tsx:19-24 | morning before 12, afternoon before 18, evening otherwise |
| HomePage.Home.LatestMoodLog | app/page.tsx:34 | the first log, or none for an empty list |
| HomePage.Home.HandleSaveMood | app/page.tsx:26-28 | the log is put in front, the rest kept; it is the latest, and today's log (button "Update") when dated today |
| HomePage.PrependOnDay | app/page.tsx:31 | finding by day in the list with the new log in front |
| HomePage.MockHasNoToday | lib/mood-types.ts:51-89 | the mock logs, dated at load time, hold no log for today at any render at or after that time |
| HomePage.Home.EmptyStateShown | app/page.tsx:55-83 | the "No mood logged today" card is shown exactly when no log falls on today, which is exactly when the button reads "Log" |
| HomePage.Home.OpenLogger | app/page.tsx:48-76 | the "Log"/"Update" button and the "Log Your Mood" button (and the weekly strip's `onLogMood`) set the logger open and keep the logs |
| HomePage.Home.SetLoggerOpen | app/page.tsx:116 | the logger's `onOpenChange` sets the open flag to the value given and keeps the logs |
| WeeklySummary.IndexOnDay | components/weekly-mood-summary.tsx:39 | the first log on the day, or -1 when there is none |
| WeeklySummary.MoodLogForDay | components/weekly-mood-summary.tsx:38-40 | no log exactly when none is on that day; otherwise a log of that day |
| WeeklySummary.LogsOrDefault | components/weekly-mood-summary.tsx:14 | the mock logs when none are given |
| WeeklySummary.WeekDays | components/weekly-mood-summary.tsx:18-35 | five days, today minus four days up to today, consecutive day numbers; today's index ends as 4 |
| WeeklySummary.LogButtonOnlyToday | components/weekly-mood-summary.tsx:68-76 | only today's cell offers "Log", and it does exactly when today has no log |
| MoodLogDetail.HeadingShowsBand | components/mood-log-detail.tsx:37 | the heading `Heading` (the label followed by " Day") of two logs whose labels agree with their values is the same exactly when the values are in the same band, and then the colour and descriptor line agree too |
| MoodLogDetail.DescriptorLine | components/mood-log-detail.tsx:15-44 | the three descriptors joined by ", " |
| MoodLogDetail.ShownTags | components/mood-log-detail.tsx:48-50 | the first three tags in order, and none when the tag area is hidden |
| MoodLogDetail.MoreCount | components/mood-log-detail.tsx:59-63 | the badge appears exactly with more than three tags |
| MoodLogDetail.TagsAccounted | components/mood-log-detail.tsx:48-63 | shown tags and the badge's count add up to all tags |
| MoodLogDetail.SavedNotesShown | components/mood-log-detail.tsx:70-75 | for a log saved by the logger, the note area `NotesShown` is drawn exactly when the typed note is not all white space, and it shows the note trimmed |

## Left out

- The network is not modelled: `fetch`, the 30 s `AbortController` timeout, `ReadableStream`, `TextEncoder`/`TextDecoder` and response headers.
  - The client sees a fetch outcome and the already-decoded chunks its reads deliver, and whether a read throws.
  - The endpoint's streams are the full list of frames they enqueue.
- The 100 ms `setInterval` pacing of the fallback stream is not modelled. Only the order of frames is.
- The hosted model's SDK and lib/gemini-config.ts are not part of this model. The probe, the setup, and the pieces the stream yields for a given prompt are the oracle `ChatRoute.Upstream`.
- `JSON.parse` is not modelled. Decoding a frame's payload is the arbitrary function `extract`. The round-trip lemmas assume it inverts the endpoint's payload.
- The date reviver, `uuid`, `Date`, `Date.now()` and `Math.random()` are not modelled. They are fresh values, integer times and in-range indices passed in.
- Local storage is collapsed to the store's list and two flags: one says whether it is available, the other whether the record fails to parse.
  - Errors from `setItem` are not modelled.
  - Neither are other tabs writing the record.
  - Neither is a record that parses but is not a list of chats.
- Time zones and daylight saving time are not modelled. A calendar day is a whole multiple of 24 hours of milliseconds.
- ChatStorage.TitleFrom: counts Unicode scalar values, but JavaScript's `substring` and `length` count UTF-16 code units.
  - Content with characters outside the Basic Multilingual Plane is cut at a different place.
  - The source's cut can split a surrogate pair. The model's never does.
- Strings.ToLower: lower-cases A-Z only, because `toLowerCase`'s full Unicode mapping is left out. A search with a non-ASCII capital letter may match differently.
- ChatRoute.Post: the classification of the setup error into authentication, quota and not-found messages is not modelled, because it only chooses what is logged.
- The console logging in every file is not modelled.
- ChatClient.GetStreamingResponse: the outer recovery is modelled (`ChatClient.Recover`), but a turn never reaches it successfully. Nothing else writes the store during a turn, so a retry fails for the same reason.
- The source's quirks are kept, not fixed:
  - a tail line counted twice;
  - the new turn sent untrimmed;
  - an emergency reply after partial output;
  - the fourth mock log labelled one band too low.
- MoodLogger.MoodLogger.SetMoodValue: the slider's pixel-to-percent arithmetic is not modelled, because it is floating-point rendering math. The value is any integer, as `Math.round` gives.
- The animation flags, haptics, the theme and every layout detail are not modelled.
- The dialogs' `open` flag belongs to the parent component. The model sets it where the source calls `onOpenChange`. `onLogin` is counted as `logins`.
- HomePage.Home.TodaysMoodLog: stated by `WeeklySummary.MoodLogForDay`, which it calls. The home page compares `toDateString()` and the summary uses `isSameDay`, and both are the same calendar day here.
- The router, the links and the relative-time labels of the chat list are not modelled. Neither are the navigation side effects of the bottom bar and the chat list.
