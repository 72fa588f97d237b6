# yapbox core, modelled in Dafny

yapbox is a small AI chat system. It has a Python backend that talks to an OpenAI-style
chat-completion endpoint and a React frontend. This project models the sequential logic at
its centre:

- **Conversation-context builder** (`backend/src/ai_tasks/ai_tasks.py`). The list of
  `{role, content}` items sent to the model is edited in place: a leading system item is
  inserted or extended, then the user turn and the assistant turn are appended. The reply
  text is normalised out of the `choices` structure, and the data-analysis prompt is
  assembled. The HTTP call is a function parameter from the request payload to the parsed
  JSON reply.
- **Personality, ruleset and agent texts** (`backend/src/ai_utils/ai_context_loader.py`). The
  loaders fill case-insensitive dictionaries from in-memory lists of files and folders. The
  lookups compose a personality with a fixed precedence: video-game character, then custom
  base, then variant, then ruleset.
- **Structural serialisers** (`backend/src/shared/serializer.py`). Shape-preserving
  conversion of objects and dicts, flattening of csv inputs, and prompt text for a list of
  rows.
- **Log filenames** (`backend/src/shared/loggers.py`). Optional parts joined by a separator,
  plus an extension with exactly one leading dot.
- **Message composer** (`frontend/src/components/MessageInput.tsx`). A draft of message, file
  and query, changed by the submit, file, remove and key handlers.
- **Persona resolver** (`frontend/src/utils/converters.ts`). The display name and avatar of
  the configured agent type.
- **Conversation list** (`frontend/src/App.tsx`). Append-only messages numbered by position.

Files: `wrappers.dfy` (Option, Result, Outcome), `text.dfy` (join, split, strip, ASCII case
mapping, decimal numerals), `py_value.dfy` (Python values, exceptions and the library
behaviour used as parameters), then one file per source file: `ai_tasks.dfy`,
`context_loader.dfy`, `serializer.dfy`, `loggers.dfy`, `message_input.dfy`,
`converters.dfy`, `app.dfy`.

Objects whose fields the source updates in place are classes: the chat-context list
(`Tasks.ChatList`), `ContextBuilder`, the composer state (`MessageInput.DraftState`) and the
app's message list (`App.Conversation`). Their methods are proved against specification
functions, and the properties are proved as lemmas about those functions.

Behaviour of the code worth noting:

- The composer has no in-flight flag, so a second submit is not refused.
- The selected file is never passed to `onSendMessage`; a submit only clears it.
- A rejected file raises an alert and keeps the previous selection.
- After a send, the message and the file are always cleared. Only the query reset depends
  on the environment.
- `App.tsx` appends only user A's messages. No reply is appended there.
- Random avatars are drawn on every call, not once per session.

## Model

| member | source | states |
|---|---|---|
| Tasks.WithSystemContext | backend/src/ai_tasks/ai_tasks.py:31-47 | An empty context becomes exactly one system item with the text. With appending asked for and a system item 0, the length is kept, item 0's content becomes old + " " + text and the rest is untouched. Otherwise a new system item goes in front and every old item shifts by one, even after an existing system item. Item 0 is always a system item ending with the text |
| Tasks.AiTasks.UpdateSystemContext | backend/src/ai_tasks/ai_tasks.py:17-47 | The list holds the context above afterwards. A non-empty list is edited in place and returned. An empty list is left empty and a new one-item list is returned |
| Tasks.UpdatedContext | backend/src/ai_tasks/ai_tasks.py:66-75 | The system context is applied before the latest message, which always ends up last. With neither argument the items are unchanged |
| Tasks.AiTasks.UpdateContext | backend/src/ai_tasks/ai_tasks.py:49-75 | A missing list becomes a new empty one. The caller's list is the one returned and edited, except an empty list that receives a system context, which stays empty |
| Tasks.Subscript | backend/src/ai_tasks/ai_tasks.py:117 | `v[key]` succeeds exactly on a dict holding the key and gives its value. A missing key raises KeyError; a non-dict raises TypeError |
| Tasks.ChoiceTexts | backend/src/ai_tasks/ai_tasks.py:115-118 | Defines the texts of `choices[i]["message"]["content"]` in choice order, a missing key becoming the invalid-format error; `ContentsOf`, `ContentsFirstError` and `StringsOf` state its parts |
| Tasks.ContentsOf | backend/src/ai_tasks/ai_tasks.py:117 | On success there is one content per choice, in choice order, each being `choice["message"]["content"]`; when every choice has "message" and "content", it succeeds |
| Tasks.ChoiceContents | backend/src/ai_tasks/ai_tasks.py:117 | Defines the comprehension over `response["choices"]`: a list gives `ContentsOf` its items, an empty string or dict gives no contents, and anything else is not subscriptable by a string (TypeError) |
| Tasks.ContentsFirstError | backend/src/ai_tasks/ai_tasks.py:117 | The comprehension fails with the error of the first failing choice |
| Tasks.StringsOf | backend/src/ai_tasks/ai_tasks.py:118 | The join accepts the values exactly when all are strings, and keeps their texts in order |
| Tasks.SubstituteOuterWhitespace | backend/src/ai_tasks/ai_tasks.py:123 | Defines `re.sub(r"^\s+\|\s+$", " ", text)`: the leading and the trailing whitespace run each become one space, and the rest is kept; `NormalisationIsStrip` relates it to `strip()` |
| Tasks.NormalisationIsStrip | backend/src/ai_tasks/ai_tasks.py:123 | Replacing the outer whitespace runs by one space and then stripping is the same as stripping alone |
| Tasks.InteriorWhitespaceSurvives | backend/src/ai_tasks/ai_tasks.py:123 | Whitespace inside the reply, newlines included, survives the normalisation; only the surrounding whitespace goes |
| Tasks.ExtractDataFromResponse | backend/src/ai_tasks/ai_tasks.py:108-127 | The result is an assistant item whose content is the choices' texts joined by single spaces, in choice order, with outer whitespace stripped. A missing key is turned into ValueError("Invalid AI response format") |
| Tasks.MissingChoicesIsInvalidFormat | backend/src/ai_tasks/ai_tasks.py:115-127 | A reply without "choices" raises the invalid-format ValueError |
| Tasks.MissingChoiceKeyIsInvalidFormat | backend/src/ai_tasks/ai_tasks.py:115-127 | A choice lacking "message" or "content" after well-formed choices raises the invalid-format ValueError |
| Tasks.ReplyWithTexts | backend/src/ai_tasks/ai_tasks.py:115-118 | A reply whose choices are `{"message": {"content": text}}` for the given texts, in order, yields exactly those texts |
| Tasks.WellFormedReply | backend/src/ai_tasks/ai_tasks.py:115-125 | A well-formed reply with any number of choices gives the assistant item whose content is the texts joined by single spaces, in choice order, and stripped |
| Tasks.SingleChoiceReply | backend/src/ai_tasks/ai_tasks.py:115-125 | A one-choice reply gives that choice's text, stripped, as the assistant item |
| Tasks.FetchDataFromQuery | backend/src/ai_tasks/ai_tasks.py:143-150 | The query hook always returns None |
| Tasks.JoinValues | backend/src/ai_tasks/ai_tasks.py:172 | `"\n".join` succeeds exactly when every part is a string |
| Tasks.MainSection | backend/src/ai_tasks/ai_tasks.py:158-161 | Non-csv data follows "Main dataset:" unchanged |
| Tasks.FileSection | backend/src/ai_tasks/ai_tasks.py:163-165 | Without a file dataset there is no file section |
| Tasks.QuerySection | backend/src/ai_tasks/ai_tasks.py:167-170 | Without a query there is no query section |
| Tasks.PreparedParts | backend/src/ai_tasks/ai_tasks.py:152-172 | Defines the sections before the join, main, file and query in that order, failing with the first failing section's error; `PreparedPartsShape` states their layout |
| Tasks.PreparedText | backend/src/ai_tasks/ai_tasks.py:152-172 | Defines the prepared text as the "\n"-join of those sections; `PrepareDatasets` is proved equal to it and `PreparedTextStartsWithMain` states how it starts |
| Tasks.PreparedPartsShape | backend/src/ai_tasks/ai_tasks.py:152-172 | The parts start with "Main dataset:". The file section is present exactly when a file dataset is given. A query always ends the parts with "Dataset from query:" and "Query yielded no results." |
| Tasks.PreparedTextStartsWithMain | backend/src/ai_tasks/ai_tasks.py:158-172 | The prepared text starts with "Main dataset:" |
| Tasks.PlainNonStringDataIsTypeError | backend/src/ai_tasks/ai_tasks.py:158-172 | Non-csv data that is not a string makes the join raise TypeError |
| Tasks.AiTasks.PrepareDatasets | backend/src/ai_tasks/ai_tasks.py:152-172 | Appending the sections to a local list and joining them gives the prepared text, or the first error raised |
| Tasks.AnalysisPrompt | backend/src/ai_tasks/ai_tasks.py:248-251 | The prompt is the data, "\n\n", then the question when data goes first, and the question, "\n\n", then the data otherwise. Its length is the two lengths plus 2 |
| Tasks.AiTasks.constructor | backend/src/ai_tasks/ai_tasks.py:11-15 | Endpoint, key and default model are kept as given |
| Tasks.AiTasks.BuildRequestPayload | backend/src/ai_tasks/ai_tasks.py:77-83 | The payload carries the context and the client's model |
| Tasks.AiTasks.AskOutcome | backend/src/ai_tasks/ai_tasks.py:174-218 | Defines the outcome of one exchange with a model given as a function from request to reply; `AskGrowsContext` states its context and `AskAQuestion` is proved equal to it |
| Tasks.AiTasks.AskGrowsContext | backend/src/ai_tasks/ai_tasks.py:190-213 | The updated context is the prior context (after a new system item if one is given), then the user item, then the assistant item, so it grows by 2 or 3. The response is the assistant item's content; the config names the endpoint and model |
| Tasks.AiTasks.AskAQuestion | backend/src/ai_tasks/ai_tasks.py:174-218 | The result is the exchange above for the model's reply. A caller's list holds the updated context afterwards, or the context with the user item when the reply is rejected |
| Tasks.AiTasks.AnalyzeData | backend/src/ai_tasks/ai_tasks.py:220-257 | The prepared datasets and the question form the prompt, which is asked with the agent as system context. A preparation error is returned before anything is asked, and the caller's list is not touched. After a successful preparation the caller's list changes as `ask_a_question` changes it: it holds the updated context (or the asked context when the reply is rejected), and an empty list with an agent stays empty |
| Serializer.ObjToDict | backend/src/shared/serializer.py:14-26 | A model becomes its `.dict()` and an object its attribute dict. Anything else is returned unchanged |
| Serializer.Serialized | backend/src/shared/serializer.py:29-50 | None stays None. A dict keeps its keys, and each value is serialised recursively. A list keeps its length and order, and each item is converted one level only |
| Serializer.SerializeToDict | backend/src/shared/serializer.py:29-50 | Filling the output dict key by key gives exactly the serialised value |
| Serializer.SerializedFormIsFixpoint | backend/src/shared/serializer.py:29-50 | Data with no objects where the serialiser looks comes back unchanged |
| Serializer.Elements | backend/src/shared/serializer.py:77 | `extend` adds a list's items, or one string per character of a string |
| Serializer.CsvRows | backend/src/shared/serializer.py:62-80 | A string gives the list `parse_csv` returns for it. A list gives a list, whose contents `CsvListConcatenates` states. Anything else gives `no_data_return` |
| Serializer.CsvPiecesAppend | backend/src/shared/serializer.py:75-78 | Flattening distributes over concatenation of the element list |
| Serializer.CsvListConcatenates | backend/src/shared/serializer.py:75-78 | A list's rows are the in-order concatenation of its parts' rows |
| Serializer.NoDataSpelledOut | backend/src/shared/serializer.py:73-80 | Inside a list, an element that is neither a string nor a list adds the 17 characters of "No data available" as separate strings, whatever `no_data_return` was passed |
| Serializer.CsvStringToDictList | backend/src/shared/serializer.py:62-80 | The loop that extends the result element by element gives exactly the flattened rows |
| Serializer.PromptRow | backend/src/shared/serializer.py:93-102 | A row keeps its keys. Only datetime values are replaced, by their "%Y-%m-%d %H:%M:%S.%f" text |
| Serializer.PromptRows | backend/src/shared/serializer.py:92-102 | There is one output row per input row, in order. The rows convert exactly when all are dicts; otherwise AttributeError is raised |
| Serializer.PromptRowsKeepPlainRows | backend/src/shared/serializer.py:92-102 | Rows without datetime values pass through unchanged |
| Serializer.PromptRowsErrorPersists | backend/src/shared/serializer.py:93-95 | A failing prefix makes the whole conversion fail |
| Serializer.PromptText | backend/src/shared/serializer.py:83-104 | Defines `str()` of the dataset, or of its rows converted by `PromptRows` when it is a list; `DatasetToPromptText` is proved equal to it |
| Serializer.DatasetToPromptText | backend/src/shared/serializer.py:83-104 | None or a non-list gives `str(dataset)`. A list gives `str()` of the converted rows, built by the nested loops |
| Py.StrOf | backend/src/shared/serializer.py:90 | `str()` of a string is the string itself |
| ContextLoader.Get | backend/src/ai_utils/ai_context_loader.py:97 | `dict.get` gives the value exactly when the key is present |
| ContextLoader.KeyedIsLastMatch | backend/src/ai_utils/ai_context_loader.py:31 | Filling a dict in order and looking a key up finds the last entry with that key: later duplicates overwrite |
| ContextLoader.LowerPairs | backend/src/ai_utils/ai_context_loader.py:28-31 | Each file is stored under its lower-cased stem with its text, in file order |
| ContextLoader.ParseGameStem | backend/src/ai_utils/ai_context_loader.py:39-40 | Defines the split of a stem on "_" and its unpacking into two names; `ParseGameStemMeaning` states when it succeeds and what it gives |
| ContextLoader.ParseGameStemMeaning | backend/src/ai_utils/ai_context_loader.py:39-40 | A stem unpacks exactly when it holds one "_", giving the upper-cased game and the character. Otherwise it raises the unpacking ValueError with the piece count, which is one more than the number of "_" |
| ContextLoader.GameStemRoundTrip | backend/src/ai_utils/ai_context_loader.py:39 | An unpacked stem is game + "_" + character, and the character holds no "_" |
| ContextLoader.SplitPiecesHaveNoSeparator | backend/src/ai_utils/ai_context_loader.py:39 | No piece of a split holds the separator |
| ContextLoader.ParseGameFiles | backend/src/ai_utils/ai_context_loader.py:35-40 | Defines the parse of the video-game files in order, stopping at the first bad stem; `ParseGameFilesMeaning` and `PrefixFailureFails` state it |
| ContextLoader.ParseGameFilesMeaning | backend/src/ai_utils/ai_context_loader.py:35-40 | The files parse exactly when every stem unpacks, giving one entry per file in order. Otherwise the error is that of the first bad stem |
| ContextLoader.PrefixFailureFails | backend/src/ai_utils/ai_context_loader.py:35-39 | Once a prefix of the files raises, loading raises the same error |
| ContextLoader.Roster | backend/src/ai_utils/ai_context_loader.py:43-46 | Defines the game map filled file by file; `RosterOneMore` and `RosterFromEmpty` state it |
| ContextLoader.RosterOneMore | backend/src/ai_utils/ai_context_loader.py:43-46 | One more file appends its character to its game's list, which is created empty first when missing |
| ContextLoader.RosterFromEmpty | backend/src/ai_utils/ai_context_loader.py:43-46 | Starting from nothing, a game is listed exactly when some file names it, with its characters in file order |
| ContextLoader.CustomEntry | backend/src/ai_utils/ai_context_loader.py:52-81 | A folder contributes a personality exactly when it has a base, keeping its name and base text. Without `variants.json` it has neither intro nor variants |
| ContextLoader.CustomEntryAsWritten | backend/src/ai_utils/ai_context_loader.py:72-81 | As written, a base-only folder raises pydantic's ValidationError. Every other folder gives the corrected entry |
| ContextLoader.BaseOnlyFolderRejectedAsWritten | backend/src/ai_utils/ai_context_loader.py:72-81 | A folder with only `base.txt` is rejected as written and loads in the corrected model |
| ContextLoader.CustomPairsAsWritten | backend/src/ai_utils/ai_context_loader.py:52-81 | As written, loading the folders raises the validation error; otherwise it gives the corrected pairs |
| ContextLoader.CustomPairsAsWrittenFails | backend/src/ai_utils/ai_context_loader.py:72-81 | As written, loading the folders fails exactly when some folder has `base.txt` but no `variants.json` |
| ContextLoader.CustomPairsSound | backend/src/ai_utils/ai_context_loader.py:76 | Custom personalities are keyed by lower-cased folder name, and one without an intro has no variants |
| ContextLoader.ContextBuilder.Empty | backend/src/ai_utils/ai_context_loader.py:10-16 | All dictionaries and the game list start empty |
| ContextLoader.ContextBuilder.LoadRulesets | backend/src/ai_utils/ai_context_loader.py:23-31 | Rulesets gain each file under its lower-cased stem, later files overwriting earlier ones. Keys stay lower-case |
| ContextLoader.ContextBuilder.LoadVideoGamePersonalities | backend/src/ai_utils/ai_context_loader.py:33-50 | A bad stem raises its error. Otherwise the game map is extended with the roster, and the texts are stored under lower-cased character names, later duplicates overwriting |
| ContextLoader.ContextBuilder.AddGameCharacter | backend/src/ai_utils/ai_context_loader.py:41-50 | The character is appended to its game's list, created if missing, and its text is stored under its lower-cased name |
| ContextLoader.ContextBuilder.LoadCustomPersonalities | backend/src/ai_utils/ai_context_loader.py:52-81 | With the corrected entry, each folder with a base is stored under its lower-cased name, with its variants verbatim and the given or default intro |
| ContextLoader.ContextBuilder.LoadCustomPersonalitiesAsWritten | backend/src/ai_utils/ai_context_loader.py:52-81 | As written, a base-only folder makes loading raise ValidationError. With none, the dictionary gains the same entries as the corrected loader |
| ContextLoader.ContextBuilder.LoadAgents | backend/src/ai_utils/ai_context_loader.py:83-91 | Agents gain each file under its lower-cased stem, later files overwriting earlier ones |
| ContextLoader.ContextBuilder.Create | backend/src/ai_utils/ai_context_loader.py:10-21 | Construction with the corrected custom entry runs the four loaders in order. It fails exactly when a video-game stem does not unpack; otherwise every dictionary holds its files' entries and the game list stays empty |
| ContextLoader.ContextBuilder.CreateAsWritten | backend/src/ai_utils/ai_context_loader.py:10-21 | As written, a bad video-game stem raises its unpacking error; once the stems parse, construction raises ValidationError if a custom folder is base-only and succeeds otherwise. A successful construction is valid and holds the rulesets, game roster, game personalities, custom entries and agents of the files, last file winning |
| ContextLoader.ContextBuilder.PersonalityPrecedence | backend/src/ai_utils/ai_context_loader.py:126-142 | A video-game personality wins and is returned as is. No name, or a name found in neither map, gives None. A custom personality gets "\n\n" + ruleset only when a ruleset is asked for and exists |
| ContextLoader.ContextBuilder.PersonalityIgnoresCase | backend/src/ai_utils/ai_context_loader.py:93-145 | Names, variants, rulesets and agents that agree after lower-casing give the same result |
| ContextLoader.ContextBuilder.CustomVariantComposition | backend/src/ai_utils/ai_context_loader.py:99-121 | No variant or an unknown one gives the base. A known variant gives base + "\n" + intro + "\n" + variant text |
| ContextLoader.ContextBuilder.UpperCaseVariantNeverSelected | backend/src/ai_utils/ai_context_loader.py:113 | A variant key with an upper-case letter is never selected; the base text comes back |
| ContextLoader.ContextBuilder.LoadVideoGamePersonality | backend/src/ai_utils/ai_context_loader.py:93-97 | No name gives None; otherwise the text stored under the lower-cased name, if any; `StoredEntriesAreFound` and `PersonalityIgnoresCase` state it |
| ContextLoader.ContextBuilder.LoadCustomPersonality | backend/src/ai_utils/ai_context_loader.py:99-121 | No name or an unknown one gives None; otherwise the base, composed with intro and variant text for a known variant; `CustomVariantComposition` states it |
| ContextLoader.ContextBuilder.LoadRuleset | backend/src/ai_utils/ai_context_loader.py:123-124 | The ruleset stored under the lower-cased name, if any; `LoadedRulesetIsLastMatchingFile` states it |
| ContextLoader.ContextBuilder.LoadPersonality | backend/src/ai_utils/ai_context_loader.py:126-142 | The video-game personality, else the custom one with the ruleset appended; `PersonalityPrecedence` states it |
| ContextLoader.ContextBuilder.LoadAgent | backend/src/ai_utils/ai_context_loader.py:144-145 | The agent stored under the lower-cased name, if any; `StoredEntriesAreFound` and `PersonalityIgnoresCase` state it |
| ContextLoader.ContextBuilder.StoredEntriesAreFound | backend/src/ai_utils/ai_context_loader.py:93-145 | In a valid builder every stored ruleset, agent and video-game personality is found by its own key. A custom personality without an intro gives its base for every variant |
| ContextLoader.LoadedRulesetIsLastMatchingFile | backend/src/ai_utils/ai_context_loader.py:123-124 | After loading, a ruleset lookup finds the last file whose stem matches ignoring case |
| ContextLoader.LoadedGameCharacterWins | backend/src/ai_utils/ai_context_loader.py:127-130 | After loading, a name matching a video-game character gives that file's text, whatever variant or ruleset is asked for |
| ContextLoader.IntroKeyIsAVariant | backend/src/ai_utils/ai_context_loader.py:67-71 | The "_variant_intro" entry is itself selectable as a variant; the intro then appears twice |
| Loggers.NormalizedExtension | backend/src/shared/loggers.py:51 | The extension starts with "."; one is added only when missing |
| Loggers.NormalizedExtensionIdempotent | backend/src/shared/loggers.py:51 | Normalising twice adds nothing more |
| Loggers.FilenameParts | backend/src/shared/loggers.py:35-49 | Defines the parts of the name, each present only when its argument is truthy; `FilenamePartsLayout` states their order and positions |
| Loggers.FilenamePartsLayout | backend/src/shared/loggers.py:35-49 | The parts are prefix, datetime, identifier and suffix, in that order, each present exactly when its argument is truthy. The datetime comes from the UTC or the local clock. `True` gives the fresh uuid and another identifier is used verbatim |
| Loggers.GetFilenameForNewFile | backend/src/shared/loggers.py:10-55 | The filename is the parts joined by the separator, followed by the normalised extension |
| Loggers.NoPartsIsExtensionOnly | backend/src/shared/loggers.py:53 | With no parts the filename is the extension alone |
| Loggers.DefaultFilename | backend/src/shared/loggers.py:10-18 | The defaults give UTC timestamp + "-" + uuid + extension |
| Loggers.FilenameSplitsIntoParts | backend/src/shared/loggers.py:53 | Suppose the separator is one character that no part contains. Then the name without its extension splits back into exactly the parts |
| MessageInput.IsAcceptedFile | frontend/src/components/MessageInput.tsx:121-127 | A file is accepted exactly when its type is `text/plain`, `application/json` or `text/csv`, or it is `application/vnd.ms-excel` with a name ending in ".csv" |
| MessageInput.IsBlank | frontend/src/components/MessageInput.tsx:100 | A message is blank exactly when JavaScript's `trim()` leaves nothing; `SubmitOutcome` states that this is all whitespace |
| MessageInput.SubmitOutcome | frontend/src/components/MessageInput.tsx:98-101 | Nothing is sent exactly when the message is all whitespace. Otherwise the untrimmed message is sent, with the query only when the query is forwarded |
| MessageInput.VisibleCharacterIsSent | frontend/src/components/MessageInput.tsx:100-101 | One visible character makes the message sendable, as it is |
| MessageInput.AcceptedFileExamples | frontend/src/components/MessageInput.tsx:121-127 | A `.csv` named spreadsheet-typed file is accepted, a `.xls` one is rejected, `image/png` is rejected and `text/plain` is accepted |
| MessageInput.DraftState.constructor | frontend/src/components/MessageInput.tsx:89-96 | The draft starts empty. The data-analyst and query switches are read from the environment |
| MessageInput.DraftState.SetMessage | frontend/src/components/MessageInput.tsx:165 | The message becomes the typed text |
| MessageInput.DraftState.SetQuery | frontend/src/components/MessageInput.tsx:157 | The query becomes the typed text |
| MessageInput.DraftState.HandleSubmit | frontend/src/components/MessageInput.tsx:98-109 | A blank message changes nothing. Otherwise it is sent, with the query only for a data analyst with queries enabled. Message and file are cleared, and the query only when the environment says so |
| MessageInput.DraftState.HandleFileChange | frontend/src/components/MessageInput.tsx:115-132 | An empty selection changes nothing. An accepted first file becomes the selection. A rejected one raises the alert and keeps the previous selection |
| MessageInput.DraftState.HandleRemoveFile | frontend/src/components/MessageInput.tsx:134-136 | Only the selected file is cleared |
| MessageInput.DraftState.HandleKeyDown | frontend/src/components/MessageInput.tsx:138-142 | Ctrl+Enter submits exactly as the form does; any other key changes nothing |
| Converters.RandomIndex | frontend/src/utils/converters.ts:58 | `floor(random * length)` is always an index of the pool |
| Converters.Pick | frontend/src/utils/converters.ts:58 | A random pick is an element of its pool |
| Converters.AgentTypeToName | frontend/src/utils/converters.ts:1-49 | The name is "AI" exactly for an unset or unrecognised agent type. A recognised type gets its fixed name, e.g. "Lae`zel" for 'laezel' |
| Converters.AgentTypeToAvatar | frontend/src/utils/converters.ts:51-112 | Forced random gives one of the two random avatars. The data analyst gets one of its two avatars and a character its fixed URL. Any other type gets a random avatar |
| Converters.SameAgentTypes | frontend/src/utils/converters.ts:1-112 | Both switches recognise the same agent types |
| Converters.DefaultNameIffDefaultAvatar | frontend/src/utils/converters.ts:1-112 | The name is "AI" exactly when the avatar comes from the default branch |
| Converters.UnrecognisedTypeGetsRandomAvatar | frontend/src/utils/converters.ts:1-112 | An unset or unrecognised agent type is named "AI" and gets one of the two random avatars |
| Converters.CharacterAvatarIsDeterministic | frontend/src/utils/converters.ts:69-108 | A character's avatar does not depend on the random value |
| Converters.RandomPoolSplit | frontend/src/utils/converters.ts:52-59 | Random values below 0.5 pick the first pool entry, the rest the second |
| App.InitialMessagesWellNumbered | frontend/src/App.tsx:29-48 | The initial messages are numbered "1", "2", "3" and sent by the two users |
| App.WellNumberedIdsAreUnique | frontend/src/App.tsx:55 | In a well-numbered list no two messages share an id |
| App.Appended | frontend/src/App.tsx:53-60 | One message is appended at the end and the old ones are unchanged. It is user A's, with the text verbatim and id `String(length + 1)`. Well-numbered lists stay well-numbered |
| App.Conversation.constructor | frontend/src/App.tsx:51 | The conversation starts with the initial messages, well numbered |
| App.Conversation.HandleSendMessage | frontend/src/App.tsx:53-61 | Sending appends one message and keeps the numbering invariant. A query argument is ignored |
| Text.StripBy | backend/src/ai_tasks/ai_tasks.py:123 | `strip()` gives the slice between the leading and the trailing whitespace runs. It is empty exactly when the text is all whitespace |
| Text.StripFramed | backend/src/ai_tasks/ai_tasks.py:123 | Stripping whitespace framing a text with no outer whitespace gives that text |
| Text.JoinStartsWithFirst | backend/src/ai_tasks/ai_tasks.py:172 | A join starts with its first part |
| Text.Split | backend/src/ai_utils/ai_context_loader.py:39 | `split` always gives at least one piece |
| Text.SplitLength | backend/src/ai_utils/ai_context_loader.py:39 | A split has one piece more than the text has separators |
| Text.JoinSplit | backend/src/ai_utils/ai_context_loader.py:39 | Joining the pieces of a split with the separator gives the text back |
| Text.SplitJoin | backend/src/shared/loggers.py:53 | Splitting a join of separator-free parts gives the parts back |
| Text.Lower | backend/src/ai_utils/ai_context_loader.py:31 | `lower()` keeps the length, maps each character, and leaves no upper-case letter |
| Text.LowerIdempotent | backend/src/ai_utils/ai_context_loader.py:31 | A lower-cased key is its own lower-case form |
| Text.UpperNeverLowered | backend/src/ai_utils/ai_context_loader.py:113 | No lower-cased query equals a key with an upper-case letter |
| Text.DecimalString | frontend/src/App.tsx:55 | `String(n)` is a non-empty run of digits, with no leading zero except for 0 |
| Text.DecimalRoundTrip | frontend/src/App.tsx:55 | Reading the numeral back gives the number |
| Text.DecimalStringInjective | frontend/src/App.tsx:55 | Different numbers have different numerals |

## Left out

- `_send_request_to_ai` and `_log_ai_interaction` (HTTP and the logging callback): the model is a function parameter from the request payload to the parsed reply, and nothing is logged.
- `requests_with_retry.py`, `api.py`, `config.py`, and the CLI and playground scripts: routing, retries, environment setup and console loops.
- `log_json_to_folder`: it only writes a file.
- Filesystem walking in `ContextBuilder` (`rglob`, `is_file`, `iterdir`, `read_text`, `json.loads`): the loaders take in-memory lists. The `variants.json` values are taken to be strings.
- Library behaviour is passed in as parameters and not interpreted: `parse_csv` (`csv.DictReader`), pydantic `.dict()`, Python `str()` and `strftime`, `uuid4()`, the UTC and local clocks, `Math.random()` and `process.env`.
- Python dicts are maps, so insertion order is not modelled. It shows only through `str()`, which is a parameter here.
- Text.Lower: `lower()` and `upper()` map ASCII letters only; other Unicode case mappings are not modelled.
- Tasks.WithSystemContext: line 41 applies `+=` to `current_sys_context["content"]`, which first reads the item; a pydantic model has no `__getitem__`, so the read raises TypeError ("object is not subscriptable"). It is modelled as the intended content update. `ask_a_question` never takes that branch, because it never asks for appending.
- Tasks.ChoiceContents: iterating a string or a dict, and non-list `choices`, are reduced to their first visible failure: TypeError, or an empty result for an empty one. Objects reached by iteration are not modelled further.
- Rendering, focus handling (`inputRef.focus()`), the paperclip click and the React state batching of the composer and the app: they have no effect on the modelled state.
- Rendering-only components (`Header.tsx`, `MessageList.tsx`, `Message.tsx`, `index.tsx`) and the plain record types, which appear as datatypes.
- ContextLoader.ContextBuilder.LoadCustomPersonalities: uses the corrected entry (see Findings), so a base-only folder is stored; the code as written raises ValidationError, which `ContextLoader.ContextBuilder.LoadCustomPersonalitiesAsWritten` models.
- ContextLoader.ContextBuilder.Create: uses the corrected entry, so it does not fail for a base-only custom folder; construction as written does, which `ContextLoader.ContextBuilder.CreateAsWritten` models.
- The local `games` set of `_load_video_game_personalities` is built and discarded, and `_available_games` is never filled. The model keeps the field, and it stays empty.

## Findings

| source | as written | input that shows it | evidently intended | confidence | as-written member | corrected member |
|---|---|---|---|---|---|---|
| backend/src/ai_utils/ai_context_loader.py:72-81 | `CustomPersonality.variant_intro` is declared `str`, but a folder without `variants.json` passes `None` for it, which pydantic rejects, so construction fails (`ContextBuilder.CreateAsWritten`) | a custom personality folder holding only `base.txt` | the personality loads with no intro and no variants, and its base text is selectable | not executed | ContextLoader.CustomEntryAsWritten | ContextLoader.CustomEntry |
