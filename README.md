# WhatsGemini chat-history core, modelled in Dafny

WhatsGemini is a browser chat client for Google's Gemini models. Conversations
("chats") belong to optional personas ("characters") and are kept in two
IndexedDB tables through Dexie; Redux slices hold the in-memory lists. This
project models the part of the client that decides what a conversation
contains and what is sent to the model:

- **Store operations** (`chatSlice.js`, `characterSlice.js`): `Tables.Db` is
  the two tables as id-keyed maps with auto-increment counters. `addMessage`
  seeds an empty chat with the saved seed messages and the two-message
  character introduction, then appends. The other thunks add, replace,
  import and delete rows; deleting a character also deletes its chats. The
  reducers are classes whose `Apply` method handles one action.
- **Generation** (`aiSlice.js`): `generateAIResponse` checks the API key,
  formats the four safety thresholds, filters the history and checks that it
  ends with a user entry. It then applies the middle-splice history cap and
  hands the SDK everything but the last entry. The reply is the trimmed
  concatenation of the streamed chunks. The SDK is a function parameter
  returning either the chunk texts or an error message. The ai reducer is a
  class.
- **Chat window and chat page** (`ChatWindow.jsx`, `ChatPage.jsx`): the window
  starts two past the first character-introduction message. Regenerate
  indices are translated back to stored indices. The typing indicator cycles.
  The send and regenerate handlers are methods over the store and the
  generator.
- **Side rules**: the seed-message editor (`InitialMessages.jsx`), contact
  filtering and chat reuse (`Sidebar.jsx`), the character form and text
  truncation (`CharacterPage.jsx`), and model-name resolution and safety
  edits (`SettingsPage.jsx`).

Values that the code reads from local storage are inputs. JSON parsing is an
oracle that yields a value, `null` or a parse error (`Wrappers.Parsed`). The
clock (`Date.now()`) is a `now` parameter.

Two behaviours of the code worth noting:
- Regenerate writes the truncated content to the store *before* it checks
  that the truncated content ends with a user message. When that check fails,
  the truncation stays persisted (`ChatPage.HandleRegenerate`).
- The code has no edit-message workflow and does not reject concurrent
  sends, so the model has neither.

The history cap is modelled as written. When the splice start (the seed
count, or 1 without seeds) is at least `maxHistoryLength` but still inside
the history, the splice removes everything from the start on. That includes
the trailing user entry the guard has just checked (`AiSlice.CapDropsTail`,
`AiSlice.CapCanEndWithModel`). The guarantee that the last entry survives
holds only when the start is strictly below the limit
(`AiSlice.CapKeepsLast`).

## Model

| member | source | states |
|---|---|---|
| Tables.Db.constructor | src/features/chatSlice.js:6-10 | both tables start empty and both id counters start at 1 |
| ChatSlice.DbErrorValue | src/features/chatSlice.js:13-16 | the rejection value is the error's message, or the fixed database message when that is empty; it is never empty |
| ChatSlice.SavedSeedList | src/features/chatSlice.js:66 | the parsed seed list, or [] when the stored value parses to null |
| ChatSlice.IntroPair | src/features/chatSlice.js:78-87 | no messages without a character; otherwise exactly two, a "you" message followed by an "ai" message |
| ChatSlice.CharacterOf | src/features/chatSlice.js:77-78 | a character is used exactly when the chat's characterId is set, non-zero and present in the table, and it is that row |
| ChatSlice.ContentAfterAdd | src/features/chatSlice.js:69-90 | the new message is last; a non-empty content keeps its prefix and grows by one; an empty one gets the copied seeds and the introduction pair before the message |
| ChatSlice.CopySeeds | src/features/chatSlice.js:70-74 | the push loop yields exactly the seed messages: the seeds with truthy role and message, in order |
| ChatSlice.AddChat | src/features/chatSlice.js:48-56 | a fresh id not yet in the table, empty content, and the stored row is the returned row |
| ChatSlice.AddMessage | src/features/chatSlice.js:58-98 | a missing chat rejects with "Chat not found." and a parse error rejects with its message, both writing nothing; otherwise the chat's content becomes `ContentAfterAdd` and that content is returned |
| ChatSlice.DeleteChat | src/features/chatSlice.js:100-107 | exactly that row is removed and its id is returned |
| ChatSlice.UpdateMessages | src/features/chatSlice.js:109-123 | a missing chat rejects and writes nothing; otherwise only the content of that chat changes, and the fulfilled value echoes the id and the messages |
| ChatSlice.ImportedChat | src/features/chatSlice.js:125-139 | rejection exactly when the title is empty or the content is not an array; otherwise the row has the given id, title and content, characterId only when truthy, and the timestamp or `now` |
| ChatSlice.ImportChat | src/features/chatSlice.js:125-146 | the row of `ImportedChat` under a fresh id is stored on success, and nothing is stored on rejection |
| ChatSlice.ReplaceContent | src/features/chatSlice.js:182-187 | only the first chat with the id gets the new content; length and every other chat are unchanged |
| ChatSlice.ChatState.constructor | src/features/chatSlice.js:151 | an empty list, not loading, no error |
| ChatSlice.ChatState.Apply | src/features/chatSlice.js:154-196 | each reducer case: pending, fulfilled and rejected fetch; error-only rejections; add and import append; delete filters by id; update replaces one chat's content; other actions change nothing |
| ChatSlice.FirstMessageLayout | src/features/chatSlice.js:69-90 | the first message of a character chat is stored as seeds, the introduction text, the acknowledgement text and the message, with length seeds + 3 |
| ChatSlice.SeedMessagesFaithful | src/features/chatSlice.js:70-74 | every seeded message comes from a seed with truthy role and message, and every such seed is seeded |
| CharacterSlice.AddCharacter | src/features/characterSlice.js:36-49 | a blank (after trim) name or prompt rejects and stores nothing; otherwise a row with a fresh id is stored and returned |
| CharacterSlice.CharacterInputValid | src/features/characterSlice.js:40-42 | a predicate without a contract: name and prompt both non-blank after trimming; `CharacterSlice.BlankNameRefused` relates it to whitespace-only names |
| CharacterSlice.ChatsWithoutCharacter | src/features/characterSlice.js:55 | exactly the chats whose characterId differs from the id remain, unchanged |
| CharacterSlice.DeleteCharacter | src/features/characterSlice.js:51-62 | the character's chats and the character are removed and every other row stays |
| CharacterSlice.UpdateCharacter | src/features/characterSlice.js:64-74 | an existing row gets the new name, description and prompt without validation; an absent id changes nothing |
| CharacterSlice.FetchCharacterById | src/features/characterSlice.js:23-34 | the stored row, or "Character not found." for an absent id |
| CharacterSlice.CharacterState.constructor | src/features/characterSlice.js:79 | an empty list, not loading, no error |
| CharacterSlice.CharacterState.Apply | src/features/characterSlice.js:82-110 | each reducer case; add appends, delete filters by id, and an update leaves the list unchanged because there is no case for it |
| CharacterSlice.BlankNameRefused | src/features/characterSlice.js:40-42 | every non-empty, whitespace-only name is refused, whatever the prompt |
| AiSlice.GetStoredValue | src/features/aiSlice.js:19-26 | the default for an absent key or a parse error, `null` exactly when the parser yields null, otherwise the parsed value itself |
| AiSlice.MaxTokens | src/features/aiSlice.js:69 | the stored token limit, or 1000 when the key is absent |
| AiSlice.SeedCount | src/features/aiSlice.js:98-99 | the number of saved seeds, 0 when they are null or malformed |
| AiSlice.ThresholdFor | src/features/aiSlice.js:44 | a known threshold name maps to its threshold; a missing or unknown one becomes NONE |
| AiSlice.FormatSafetySettings | src/features/aiSlice.js:41-58 | four entries in the fixed category order, each with its category's threshold |
| AiSlice.DefaultSafetyBlocksNone | src/features/aiSlice.js:41-58 | the default settings give BLOCK_NONE in all four categories |
| AiSlice.MissingSafetyFallsBack | src/features/aiSlice.js:41-58 | an empty settings object gives NONE in all four categories |
| AiSlice.IsValidEntry | src/features/aiSlice.js:89-91 | a predicate without a contract: the entry has a non-empty text and a non-empty role |
| AiSlice.ValidHistory | src/features/aiSlice.js:89-91 | only entries of the history that pass the filter, and every such entry |
| AiSlice.HistoryAccepted | src/features/aiSlice.js:93-95 | a predicate without a contract: the history is non-empty and ends with a "user" entry; `AiSlice.PrepareRequest` rejects exactly the histories failing it |
| AiSlice.Splice | src/features/aiSlice.js:106 | the entries before the start are kept and the rest is the original tail after the removed run, with the length `splice` leaves |
| AiSlice.SpliceStart | src/features/aiSlice.js:104 | the start is at least 1 |
| AiSlice.CapHistory | src/features/aiSlice.js:97-109 | no change for a limit of 0 or less, a history within the limit, or a start at or past the end; otherwise the first entries up to the start are kept, followed by the most recent ones |
| AiSlice.SdkHistory | src/features/aiSlice.js:114 | the capped history minus its last entry |
| AiSlice.PrepareRequest | src/features/aiSlice.js:64-117 | a missing key rejects first, a null safety object next, then a history failing the guard with "Invalid chat history..."; a request carries the prompt, the stored model, the token limit, the formatted settings and the capped history minus its last entry |
| AiSlice.AcceptedHistoryIsSent | src/features/aiSlice.js:89-118 | with a key and a safety object, a history passing the guard reaches the SDK with the prompt unchanged |
| AiSlice.Concat | src/features/aiSlice.js:120-123 | the chunk texts joined in order; `AiSlice.ConcatSnoc` states the accumulation step and `AiSlice.ReadStream` proves the loop equal to it |
| AiSlice.ConcatSnoc | src/features/aiSlice.js:120-123 | appending one more chunk appends its text to the accumulated response |
| AiSlice.ErrorValue | src/features/aiSlice.js:126-128 | a non-empty error message is passed through unchanged; an empty one becomes "An unexpected error occurred."; never empty |
| AiSlice.Generate | src/features/aiSlice.js:61-131 | a preparation failure rejects with its message; a stream error rejects with its message; otherwise the reply is the trimmed concatenation of all chunks; rejections are never empty and replies are trimmed |
| AiSlice.CapInPlace | src/features/aiSlice.js:97-109 | the in-place splice leaves exactly `CapHistory` |
| AiSlice.ReadStream | src/features/aiSlice.js:120-123 | the accumulated response is the concatenation of all chunk texts |
| AiSlice.GenerateAIResponse | src/features/aiSlice.js:61-131 | the thunk settles as `Generate` says, and the SDK receives exactly the prepared request, or nothing when preparation fails |
| AiSlice.CapLength | src/features/aiSlice.js:100-107 | once the cap applies, the result has max(start, limit) entries |
| AiSlice.CapKeepsLast | src/features/aiSlice.js:100-107 | with the start strictly below the limit, the result has exactly `maxHistoryLength` entries and keeps the last entry |
| AiSlice.CapDropsTail | src/features/aiSlice.js:100-107 | with the start at or above the limit but inside the history, everything from the start on is removed, including the trailing entry |
| AiSlice.CapCanEndWithModel | src/features/aiSlice.js:93-107 | a guarded user-model-user history with two seeds and a limit of 1 is capped to user-model, so it no longer ends with a user entry |
| AiSlice.CapKeepsGuard | src/features/aiSlice.js:93-107 | when the cap is idle or starts below the limit, a history passing the guard still ends with the same user entry |
| AiSlice.CapTwelveExchanges | src/features/aiSlice.js:97-107 | 24 entries, no seeds and a limit of 10 leave the first entry and the last nine |
| AiSlice.RequestHistoryPlusLast | src/features/aiSlice.js:93-114 | when the cap keeps the last entry, the SDK history plus the prompt entry is the capped history, and that entry is a user entry |
| AiSlice.AiState.constructor | src/features/aiSlice.js:136-140 | empty response, not loading, no error |
| AiSlice.AiState.Apply | src/features/aiSlice.js:141-160 | pending sets loading and clears the error; fulfilled clears loading and sets the response; rejected clears loading and sets the error; clearResponse empties response and error |
| ChatWindow.StartIndex | src/components/ChatWindow.jsx:12-28 | 0 exactly when no message is an introduction prompt; otherwise two past the first one |
| ChatWindow.VisibleMessages | src/components/ChatWindow.jsx:30 | the suffix from the start index, empty when the start lies past the end |
| ChatWindow.RegenerateIndex | src/components/ChatWindow.jsx:51-56 | the shown position plus the start index; `ChatWindow.RegenerateTargetsShownMessage` proves it names the shown message |
| ChatWindow.RegenerateTargetsShownMessage | src/components/ChatWindow.jsx:51-56 | the reported index is inside the stored content and names the very message displayed; the control is there exactly when that message is an "ai" reply |
| ChatWindow.NoIntroShowsAll | src/components/ChatWindow.jsx:25-30 | without an introduction prompt every message is shown |
| ChatWindow.IntroAndBeforeHidden | src/components/ChatWindow.jsx:14-30 | everything up to the acknowledgement after the first introduction prompt is hidden |
| ChatWindow.NextTypingDots | src/components/ChatWindow.jsx:40 | one more dot below three dots, back to one dot otherwise |
| ChatWindow.DotsCycle | src/components/ChatWindow.jsx:37-44 | after n ticks the indicator shows n mod 3 + 1 dots |
| ChatPage.CreateChatHistory | src/pages/ChatPage.jsx:59-63 | same length and texts; role "user" exactly for "you", "model" for every other role |
| ChatPage.StoreReply | src/pages/ChatPage.jsx:77-79 | a truthy payload is appended to an existing chat as an "ai" message; an empty one stores nothing |
| ChatPage.GenerateAndStore | src/pages/ChatPage.jsx:74-79 | the generator gets the mapped content and the payload, reply or rejection text, is stored when truthy |
| ChatPage.HandleSend | src/pages/ChatPage.jsx:65-86 | blank text or no chat id does nothing; a failed addMessage sets the send error and skips generation; otherwise the user message is stored first, the generator is asked with the typed text and the stored content, and the payload is stored |
| ChatPage.HandleRegenerate | src/pages/ChatPage.jsx:88-113 | an index outside the content or no chat id does nothing; otherwise the prefix before the index is written first, and only when it ends with a "you" message is the generator asked with that message and its payload stored |
| ChatPage.HistoryOfUserEndingAccepted | src/pages/ChatPage.jsx:59-63 | content ending with a non-empty "you" message maps to a history passing the generator's guard, ending with that text as a user entry |
| ChatPage.SendReachesModel | src/pages/ChatPage.jsx:71-75 | with a key and a safety object, sending non-blank text always reaches the SDK with that text as the prompt |
| ChatPage.IntroIsRecognised | src/components/ChatWindow.jsx:14-19 | the introduction text that addMessage writes is recognised by the window |
| ChatPage.FirstSendWindow | src/components/ChatWindow.jsx:12-30 | after the first message of a character chat, the window starts after the acknowledgement and shows only that message |
| ChatPage.RegenerateReachesModel | src/pages/ChatPage.jsx:95-102 | regenerating a message that follows a non-empty "you" message reaches the SDK |
| InitialMessages.GetSavedMessages | src/components/InitialMessages.jsx:7-15 | an absent, empty or unparseable value loads as []; a parsed list loads as itself; a parsed null is the only case without a list |
| InitialMessages.PersistedSeeds | src/components/InitialMessages.jsx:21 | only entries of the list whose message is non-blank after trimming, and every such entry |
| InitialMessages.NeedsRoleFix | src/components/InitialMessages.jsx:22 | a predicate without a contract: some entry is non-blank and the first non-blank one is not "you"; `InitialMessages.FixSettles` and `InitialMessages.FixIneffectiveOnBlankFirst` state when the fix-up clears it |
| InitialMessages.FixFirstRole | src/components/InitialMessages.jsx:23-26 | entry 0 gets role "you" and keeps its message; the other entries are unchanged |
| InitialMessages.SaveEffect | src/components/InitialMessages.jsx:20-29 | the non-blank entries are stored; the list is fixed up exactly when the first non-blank entry is not "you" |
| InitialMessages.AddSeed | src/components/InitialMessages.jsx:39-47 | one blank entry is appended, "you" for an even length and "ai" otherwise |
| InitialMessages.ChangeSeed | src/components/InitialMessages.jsx:32-36 | only the chosen field of the chosen entry changes |
| InitialMessages.DeleteSeed | src/components/InitialMessages.jsx:50-52 | exactly entry idx is removed and the rest keep their order; an index outside the list changes nothing |
| InitialMessages.AddSeedNotStored | src/components/InitialMessages.jsx:20-47 | a freshly added blank entry does not change the stored list |
| InitialMessages.DeleteKeepsOne | src/components/InitialMessages.jsx:78-85 | deleting while the control is offered leaves at least one entry |
| InitialMessages.FixSettles | src/components/InitialMessages.jsx:20-29 | when entry 0 is non-blank, one fix-up makes the stored list start with it as "you" and the effect stops |
| InitialMessages.FixIneffectiveOnBlankFirst | src/components/InitialMessages.jsx:20-29 | when entry 0 is blank, the fix-up changes nothing stored and the fix-up condition still holds |
| InitialMessages.AddAlternates | src/components/InitialMessages.jsx:39-47 | two adds on an empty editor give a "you" entry and then an "ai" entry |
| Sidebar.Contacts | src/components/Sidebar.jsx:42-43 | exactly the characters that no chat refers to; the order is fixed by `Sidebar.ContactsOrder` |
| Sidebar.ContactsOrder | src/components/Sidebar.jsx:42-43 | the contacts of a concatenation are the contacts of each part in turn, and a single character is listed exactly when it has no chat, so the list keeps the characters' order |
| Sidebar.DecideClick | src/components/Sidebar.jsx:29-38 | reuse exactly when the character has a chat, naming the first such chat; otherwise create with the character's name and id |
| Sidebar.HandleCharacterClick | src/components/Sidebar.jsx:29-40 | reuse creates nothing and navigates to that chat; create adds one empty chat and navigates to its new id |
| Sidebar.HandleDeleteChat | src/components/Sidebar.jsx:21-27 | the chat is deleted only when confirmed |
| Sidebar.ContactClickCreates | src/components/Sidebar.jsx:29-43 | clicking a listed contact always creates a chat |
| Sidebar.NewChatHidesContact | src/components/Sidebar.jsx:42-43 | a character with a chat in the list is not a contact |
| Sidebar.ExistingChatReused | src/components/Sidebar.jsx:30-32 | a character that has a chat is never given a second one by a click |
| CharacterPage.CharacterForm.constructor | src/pages/CharacterPage.jsx:14-17 | empty fields and no character being edited |
| CharacterPage.FormAccepts | src/pages/CharacterPage.jsx:31 | a predicate without a contract: name and prompt are non-empty, with no trimming; `CharacterPage.BlankNamePassesFormOnly` contrasts it with addCharacter's check |
| CharacterPage.CharacterForm.CancelEdit | src/pages/CharacterPage.jsx:23-28 | leaves edit mode and clears the fields |
| CharacterPage.CharacterForm.Edit | src/pages/CharacterPage.jsx:48-53 | loads the character's name, description and prompt and enters edit mode |
| CharacterPage.CharacterForm.Submit | src/pages/CharacterPage.jsx:30-66 | an empty name or prompt only alerts; otherwise the edited character is updated or a new one is added (subject to the thunk's trim check), then the fields are cleared and edit mode ends |
| CharacterPage.HandleDeleteCharacter | src/pages/CharacterPage.jsx:42-46 | the character and its chats are deleted only when confirmed |
| CharacterPage.TruncateText | src/pages/CharacterPage.jsx:68-70 | text within the limit is unchanged; longer text becomes its first maxLength characters plus "...", maxLength + 3 long |
| CharacterPage.TruncateBounded | src/pages/CharacterPage.jsx:68-70 | the result never exceeds maxLength + 3 characters and starts with a prefix of the text |
| CharacterPage.DescriptionPreview | src/pages/CharacterPage.jsx:153 | a card's description is at most 103 characters long and is shown whole when it has at most 100 |
| CharacterPage.GoBackOrHome | src/pages/CharacterPage.jsx:72-79 | back exactly when the history index is a number above 0, else replace with "/" |
| CharacterPage.BlankNamePassesFormOnly | src/pages/CharacterPage.jsx:30-36 | every non-empty, whitespace-only name (with a non-blank prompt) passes the page's check but is refused by addCharacter |
| SettingsPage.InitialCustomModel | src/pages/SettingsPage.jsx:21-24 | the stored name exactly when it is non-empty and not an offered model, else "" |
| SettingsPage.InitialSelectedModel | src/pages/SettingsPage.jsx:33-36 | always an offered model: the stored one when offered, else the first |
| SettingsPage.EffectiveModel | src/pages/SettingsPage.jsx:49 | the trimmed custom name when non-blank, else the selected model |
| SettingsPage.HandleSafetyChange | src/pages/SettingsPage.jsx:63-65 | only the given category changes |
| SettingsPage.StoredValue | src/pages/SettingsPage.jsx:25-31 | the parsed value, or the default for an absent key, a null or a parse error |
| SettingsPage.ReloadKeepsModel | src/pages/SettingsPage.jsx:21-50 | reloading the page after it stored its effective model yields the same effective model |
| SettingsPage.ShownModelIsRequested | src/pages/SettingsPage.jsx:49-50 | the model the page shows and stores is the model the generation request names |
| SettingsPage.SafetyChangeIsLocal | src/pages/SettingsPage.jsx:63-65 | a change in one category alters only that entry of the formatted settings, to the chosen threshold or NONE |
| SettingsPage.ReadersDifferOnlyOnNull | src/pages/SettingsPage.jsx:25-31 | the page's reader and the generator's reader agree except on a stored null |

## Left out

- Dexie, IndexedDB and localStorage: the tables are maps with an id counter and stored values are inputs. Timestamp ordering of `fetchChats` and the plain reads `fetchChats`, `fetchCharacters`, `fetchChatById` and `fetchChatByCharacterId` enter the model only as reducer payloads.
- Reading the character of a chat whose characterId is null is taken to find nothing; what IndexedDB does with a null key is not modelled.
- The generation SDK is a function from the request to the chunk texts or an error message. Chunks that arrive before a stream error are discarded, as in the code.
- Temperature (a float) and the SDK's threshold enum beyond the four offered names are not modelled; unknown names map to NONE.
- JSON parsing is an oracle. JSON values of an unexpected shape are not modelled, such as a number stored for the seeds or a string for the safety settings.
- The text of the TypeError raised for stored `null` safety settings is the V8 wording; other engines word it differently.
- The history limit key is not defined in src/utils/constants.js, so `maxHistoryLength` is a parameter; a `NaN` from `parseInt` behaves like 0.
- AiSlice.MaxTokens: the stored limit is taken to be a number. A non-numeric stored text, which `Number` turns into `NaN`, is not modelled.
- CharacterPage.TruncateText: lengths count Unicode characters, but JavaScript's `length` and `substring` count UTF-16 code units. So a description of characters outside the Basic Multilingual Plane is cut later than in the page, and never in the middle of a surrogate pair. For example, 60 emoji are 120 units and are cut to 50 emoji there, but are shown whole here. The same holds for `CharacterPage.DescriptionPreview` and `CharacterPage.TruncateBounded`.
- Asynchronous interleaving: the regenerate handler's `updateMessages` is not awaited in the code, but here it completes before generation. The `fetchChats` refreshes after each handler are not modelled.
- A rejected `addMessage` in the send handler fulfils with its error text as payload, and mapping that string throws. The model goes straight to the send-error message without modelling the thrown TypeError.
- The regenerate handler's error branch is not modelled, because none of the modelled steps throw.
- ChatPage's loading effects (`setMessages`, `setCharacter`, `fetchCharacterById` of `messages[0].characterId`), the ChatWindow placeholder, markdown rendering, scrolling and the indicator's timer are rendering. Only the dots updater is modelled.
- InitialMessages.GetSavedMessages: a stored `null` yields no list. The component would then throw in its save effect, and that is not modelled.
- Sidebar.HandleDeleteChat: the navigation to "/chat" and the sidebar's open/closed state are not modelled.
- The character form's alert text, its disabled-while-loading button and its `fetchCharacters` effect are not modelled.
- The settings page's save effect is left out, with its success and error messages and its timer. So are the inputs for the output-token limit and the temperature.
- Theme, login, API-key storage, the message input, header, toast, not-found page, store wiring and styling are UI wrappers. `src/services/geminiService.js` is commented out in full.
