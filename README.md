# ReMind-AI conversation core in Dafny

This project models the parts of ReMind-AI, a mental-health companion, that carry logic. ReMind-AI has an Express/Mongoose backend and a React frontend. The model covers:

- **Server turn pipeline.**
  - The Chat and Call records, with their validators, defaults and the pre-save `updatedAt` stamp.
  - The chat and voice-call handlers, run over an in-memory collection: create, send message or voice message, list, get, end and delete.
  - The role-tagged history sent to the completion endpoint, and the "degrade, never fail" reply helper.
  - The chat-title clean-up.
  - The speech fallback chain, whose audio URL is a `data:` URI (RFC 2397, section 2) holding base64 (RFC 4648, section 4). The encoder and decoder are proved to invert each other.
- **Authentication and users.**
  - The bearer-header check of the auth middleware (RFC 6750, section 2.1), with token verification as an oracle.
  - The user routes: create-if-absent, lookup, and a field-by-field merge update over a collection keyed by uid.
- **Client services.** The chat and call services map each transport outcome to one of three results: the server's payload, an offline stand-in built in the browser, or a rethrow. The browser-side voice path is part of this: reply text first, then speech.
- **Chat page.**
  - The `**`/`__` bold tokenizer, as a loop proved against a scanning function.
  - The paragraph, bullet and numbered-item layout.
  - Transcript assembly from speech-recognition results.
  - The page state with its send guards and recording flags.
- **Call page.**
  - `formatTime`.
  - The page as a state machine whose events are:
    - the recognition control effect and its timers;
    - the debounced start of a turn, the reply that ends it, and playback;
    - mute and speaker;
    - start and end of the call.

Oracles are total functions passed as parameters: the completion endpoint, the speech providers, token verification, and the browser's ability to play audio. The clock is a `now` parameter: where one handler reads `Date.now()` several times (the schema defaults, the pre-save `updatedAt`, the controller's own stamps), all those reads are taken as the same instant. The id a new document gets is a parameter too. Every React handler runs to completion as one event, and each timer the pages schedule is an event of its own. Where a pure function describes a state change, the class method performing it has `ensures State() == F(old(State()), …)`. The lemmas are then stated about `F`.

Two behaviours of the source are modelled as written:

- On an offline chat, a message sent with no network replaces the listed messages with the two stand-in messages (`ChatPage.OfflineReplyReplacesList`).
- A voice reply that arrives after the call ended is still listed, and may still start playback.

## Model

| member | source | states |
|---|---|---|
| Conversation.ParseSender | Backend/models/Chat.js:8-12 | only "user" and "ai" are accepted as sender, and the parsed value renders back to the same name |
| Conversation.ParseSenderName | Backend/models/Call.js:8-12 | parsing inverts rendering for both senders |
| Conversation.Turns | Backend/controllers/chat.controller.js:92-97 | the (sender, content) view of a chat's or a call's messages has one entry per message, in order |
| Conversation.CanonicalIdIsStored | Backend/controllers/chat.controller.js:191 | the ObjectId a 24-hex-digit id casts to prints as the same digits in lower case, and a stored id is already in that form |
| ChatSchema.NewMessage | Backend/models/Chat.js:3-24 | a pushed message keeps content and sender, takes timestamp now and no audioUrl, and `isVoice` is true exactly when given as true (default false) |
| ChatSchema.NewChat | Backend/models/Chat.js:26-45 | a new chat keeps the given fields; createdAt and updatedAt both default to now |
| ChatSchema.SaveStampsUpdatedAt | Backend/models/Chat.js:26-51 | a save succeeds exactly for documents whose required fields are non-empty, sets updatedAt to the save time, and changes nothing else |
| ChatSchema.SaveTwice | Backend/models/Chat.js:48-51 | saving again only moves the stamp: the last save's time wins |
| CallSchema.ParseStatus | Backend/models/Call.js:32-36 | status accepts exactly "active" and "ended", and the parsed value renders back to the input |
| CallSchema.ParseStatusName | Backend/models/Call.js:32-36 | parsing inverts rendering for both statuses |
| CallSchema.NewCallMessage | Backend/models/Call.js:3-20 | a call message keeps content, sender and audioUrl (which may be absent), and has no isVoice field |
| CallSchema.NewCall | Backend/models/Call.js:22-49 | a new call is active with no endedAt, and both timestamps are now |
| CallSchema.SaveStampsUpdatedAt | Backend/models/Call.js:22-55 | a save succeeds exactly for valid calls, sets updatedAt to the save time, and changes nothing else |
| CallSchema.SaveTwice | Backend/models/Call.js:52-55 | saving again only moves the stamp |
| UserSchema.Cast | Backend/models/User.js:3-41 | a successful cast keeps the value, and null always casts |
| UserSchema.NewUser | Backend/models/User.js:3-41 | a new user holds exactly uid, email, fullName, `onboardingComplete` false and both stamps now; it is valid exactly when the three required strings are non-empty |
| UserSchema.PreSave | Backend/models/User.js:42-45 | the hook sets updatedAt to now and leaves every other key as it was |
| UserSchema.PreSaveKeepsValid | Backend/models/User.js:42-45 | the hook keeps a valid user valid |
| Completion.RoleOf | Backend/controllers/chat.controller.js:94 | the role is "user" exactly for the user sender, and never "system" |
| Completion.FormatHistory | Backend/controllers/chat.controller.js:66-97 | the loop yields the persona's system prompt, then one entry per stored message in order, each with its role and unchanged content |
| Completion.FormattedHistoryUnique | Backend/controllers/call.controller.js:26-51 | only one list fits that description, so the request is determined by the history |
| Completion.UserRoleIffUserSender | Backend/controllers/chat.controller.js:92-97 | entry i+1 has the user role exactly when message i was sent by the user, and carries its content |
| Completion.Formatted | Backend/controllers/call.controller.js:26-51 | the value form of the formatted history satisfies the same description |
| Completion.GetAIResponse | Backend/controllers/chat.controller.js:60-120 | without a key: the fixed "unavailable" reply and no request. With a key: the formatted request with the persona's token limit and temperature 0.7, then the endpoint's reply, or the fixed apology when the call fails |
| Completion.TitleRequest | Backend/controllers/chat.controller.js:26-47 | the title request is a system entry and a user entry, limited to 20 tokens |
| Completion.CleanTitleUnquotes | Backend/controllers/chat.controller.js:49-51 | a single-line title with a quote character at each end loses exactly that one pair |
| Completion.CleanTitleUnquoted | Backend/controllers/chat.controller.js:49-51 | a trimmed reply that is not enclosed in quotes is returned as it is |
| Completion.CleanTitleIsInfix | Backend/controllers/chat.controller.js:49-52 | the title is always a contiguous piece of the reply |
| Completion.GenerateChatTitle | Backend/controllers/chat.controller.js:20-57 | a missing key or a failed call gives "New Conversation"; otherwise the cleaned reply |
| Base64.CharIndex | Backend/controllers/call.controller.js:106 | the character-to-value mapping inverts the alphabet table |
| Base64.CharIndexOfIndexChar | Backend/controllers/call.controller.js:106 | every sextet's character is in the alphabet and maps back to the sextet |
| Base64.Encode | Backend/controllers/call.controller.js:106 | the encoding of n bytes has 4·⌈n/3⌉ characters |
| Base64.TripleRoundTrip | Backend/controllers/call.controller.js:106 | a full group of three bytes decodes back to the same bytes |
| Base64.DecodeEncode | Backend/controllers/call.controller.js:106 | decoding undoes encoding, for every byte string |
| Base64.EncodeDecode | Backend/controllers/call.controller.js:129 | encoding undoes decoding: only canonical encodings decode |
| Base64.DecodeIffEncode | Backend/controllers/call.controller.js:106-107 | a string decodes to `data` exactly when it is the encoding of `data` |
| Base64.AudioDataUriRoundTrip | Backend/controllers/call.controller.js:107 | the audio URL starts with "data:audio/mpeg;base64," and reads back to the provider's bytes |
| Speech.TextToSpeech | Backend/controllers/call.controller.js:77-137 | without key or voice id: `null` and no provider call. Otherwise the primary provider first; exactly one fallback attempt iff the primary fails; any URL is the data URI of an attempt's bytes; `null` only when every attempt failed |
| Speech.AudioUrlCarriesProviderBytes | Backend/controllers/call.controller.js:106-107 | a returned URL carries, unchanged, the bytes of the provider that answered |
| Query.IndexOfId | Backend/controllers/chat.controller.js:191 | the position found holds the id; when none is found, no document has it |
| Query.RemoveAt | Backend/controllers/chat.controller.js:301 | removing position i of a collection with distinct ids removes that id and keeps every other document |
| Query.SortDesc | Backend/controllers/chat.controller.js:249 | the result is sorted by the key in descending order and is a permutation of the input |
| Query.Filter | Backend/controllers/chat.controller.js:249 | the result keeps exactly the matching elements, each as often as before |
| Query.SortedFilter | Backend/controllers/call.controller.js:238 | the sorted filter is exactly the kept elements with their multiplicities, in descending key order |
| ChatController.MessageContent | Backend/controllers/chat.controller.js:133 | the content is the transcription when `isVoice` is true, and the message otherwise |
| ChatController.CreateChatRejectsMissingContent | Backend/controllers/chat.controller.js:131-140 | absent or whitespace-only content gives 400 "Message content is required" and the collection is unchanged |
| ChatController.CreateChatBuildsTwoMessages | Backend/controllers/chat.controller.js:143-173 | a created chat has exactly two messages, the user's content with its isVoice flag and then the AI reply computed from that one message; the title comes from that content |
| ChatController.SendMessageUnknownChat | Backend/controllers/chat.controller.js:191-198 | an id whose ObjectId no stored chat has (compared in lower case) gives 404 with no change, whatever the content |
| ChatController.SendMessageRejectsMissingContent | Backend/controllers/chat.controller.js:200-207 | for a chat that exists, blank content gives 400 with no change |
| ChatController.SendMessageAppendsTurn | Backend/controllers/chat.controller.js:209-232 | success appends the user message then the AI message, keeps the earlier messages and every other chat, and stamps updatedAt now |
| ChatController.HistoryEndsWithUserMessage | Backend/controllers/chat.controller.js:217 | the history sent for the reply ends with the message just appended |
| ChatController.UserChatsAreOwnedAndSorted | Backend/controllers/chat.controller.js:249-255 | the listing holds exactly the owner's chats, each once, by updatedAt descending |
| ChatController.DeleteChatRemovesOnlyIt | Backend/controllers/chat.controller.js:296-313 | deleting removes exactly the addressed chat; an absent id gives 404 with no change |
| ChatController.LookupIgnoresHexCase | Backend/controllers/chat.controller.js:191 | ids that differ only in the case of their hex letters give the same get, send and delete outcome |
| ChatController.StoredChatFoundInAnyCase | Backend/controllers/chat.controller.js:272 | a stored chat is found under its id with any hex letters upper-cased |
| ChatController.UpperCaseIdExample | Backend/controllers/chat.controller.js:272 | `AAAAAAAAAAAAAAAAAAAAAAAA` finds the chat stored as `aaaaaaaaaaaaaaaaaaaaaaaa` |
| ChatController.ChatStore.CreateChat | Backend/controllers/chat.controller.js:129-182 | the handler's new collection and response are those of `ChatController.CreateChatSpec`, and the collection invariant is kept |
| ChatController.ChatStore.SendMessage | Backend/controllers/chat.controller.js:185-241 | the handler's new collection and response are those of `ChatController.SendMessageSpec`, and the collection invariant is kept |
| ChatController.ChatStore.GetUserChats | Backend/controllers/chat.controller.js:244-264 | the listing holds only the owner's chats, all of them, sorted descending |
| ChatController.ChatStore.GetChat | Backend/controllers/chat.controller.js:267-293 | a found chat is stored under the lower-case form of the id; a well-formed id that no stored chat has in either case gives 404 |
| ChatController.ChatStore.DeleteChat | Backend/controllers/chat.controller.js:296-322 | the handler follows `ChatController.DeleteChatSpec` and keeps the invariant |
| CallController.StartCallCreatesEmptyCall | Backend/controllers/call.controller.js:140-157 | a started call is active, titled "Voice Call", and has no messages and no endedAt; it is appended to the collection |
| CallController.SendVoiceRejectsBlankFirst | Backend/controllers/call.controller.js:174-179 | a blank transcription gives 400 before any lookup, so also for an unknown call |
| CallController.SendVoiceUnknownCall | Backend/controllers/call.controller.js:181-189 | a valid transcription addressed to an id whose ObjectId no stored call has (compared in lower case) gives 404 with no change |
| CallController.SendVoiceAppendsTurn | Backend/controllers/call.controller.js:191-221 | success appends the user message and then the AI message carrying the synthesised audioUrl, keeps the earlier messages, stamps updatedAt, and answers with that AI message's content and audioUrl; the history used ends with the new user message |
| CallController.EndCallMarksEnded | Backend/controllers/call.controller.js:284-307 | ending a stored call sets status ended and endedAt now, leaves messages untouched, and an absent call gives 404 |
| CallController.UserCallsAreOwnedAndSorted | Backend/controllers/call.controller.js:238-243 | the listing holds exactly the owner's calls, each once, by updatedAt descending |
| CallController.DeleteCallRemovesOnlyIt | Backend/controllers/call.controller.js:319-336 | deleting removes exactly the addressed call; an absent id gives 404 with no change |
| CallController.LookupIgnoresHexCase | Backend/controllers/call.controller.js:182 | ids that differ only in hex case give the same get, voice-message, end and delete outcome |
| CallController.StoredCallFoundInAnyCase | Backend/controllers/call.controller.js:260 | a stored call is found under its id with any hex letters upper-cased |
| CallController.CallStore.StartCall | Backend/controllers/call.controller.js:140-166 | the handler follows `CallController.StartCallSpec` and keeps the invariant |
| CallController.CallStore.SendVoiceMessage | Backend/controllers/call.controller.js:169-230 | the handler follows `CallController.SendVoiceMessageSpec` and keeps the invariant |
| CallController.CallStore.EndCall | Backend/controllers/call.controller.js:284-316 | the handler follows `CallController.EndCallSpec` and keeps the invariant |
| CallController.CallStore.GetUserCalls | Backend/controllers/call.controller.js:233-252 | the listing holds only the owner's calls, all of them, sorted descending |
| CallController.CallStore.GetCall | Backend/controllers/call.controller.js:255-281 | a found call is stored under the lower-case form of the id; a well-formed id that no stored call has in either case gives 404 |
| CallController.CallStore.DeleteCall | Backend/controllers/call.controller.js:319-345 | the handler follows `CallController.DeleteCallSpec` and keeps the invariant |
| AuthMiddleware.BearerToken | Backend/middleware/auth.middleware.js:8-15 | there is no token exactly when the header is absent or does not start with "Bearer " (case-sensitive) |
| AuthMiddleware.SplitAfterBearer | Backend/middleware/auth.middleware.js:15 | a "Bearer …" header splits on spaces into "Bearer" and the pieces of the rest |
| AuthMiddleware.BearerTokenIsFirstField | Backend/middleware/auth.middleware.js:15 | the token is the text after "Bearer " up to the next space |
| AuthMiddleware.BearerTokenExample | Backend/middleware/auth.middleware.js:15 | "Bearer abc" gives "abc" |
| AuthMiddleware.LowerCaseSchemeRefused | Backend/middleware/auth.middleware.js:8 | "bearer abc" is refused |
| AuthMiddleware.SessionFor | Backend/middleware/auth.middleware.js:49-55 | the session copies uid and email, uses the name or "User", sets onboardingComplete, and expires 86 400 000 ms after now |
| AuthMiddleware.AuthContext.VerifyToken | Backend/middleware/auth.middleware.js:4-64 | no token: 401 "No token provided". Failed verification: 401 "Invalid token". Otherwise `req.user` is the decoded token and the session is set. `next` runs exactly once, and only when no failure was written |
| UserRoutes.FindOne | Backend/routes/userRoutes.js:12 | the match found has the uid; when none is found, no stored user matches |
| UserRoutes.MergeAt | Backend/routes/userRoutes.js:89-91 | after the merge, each key holds what the body assigns it, or else its old value |
| UserRoutes.AssignedDistinct | Backend/routes/userRoutes.js:89-91 | with distinct body keys, a schema key whose value casts ends up with that value |
| UserRoutes.AssignedUnmentioned | Backend/routes/userRoutes.js:89-91 | a key the body does not mention is not assigned |
| UserRoutes.MergeIdempotent | Backend/routes/userRoutes.js:89-91 | merging the same body twice equals merging it once |
| UserRoutes.UpdateTwice | Backend/routes/userRoutes.js:74-98 | repeating a successful PUT gives the same fields apart from updatedAt |
| UserRoutes.StampedMergeIdempotent | Backend/routes/userRoutes.js:89-93 | with the save stamp in between, a second merge only moves updatedAt |
| UserRoutes.FindOneAfterUpdate | Backend/routes/userRoutes.js:79 | replacing a user by one with the same uid keeps it the first match |
| UserRoutes.CreateExistingRefused | Backend/routes/userRoutes.js:12-18 | POST with a stored uid gives 400 "User already exists" and changes nothing |
| UserRoutes.CreateNewUser | Backend/routes/userRoutes.js:21-32 | POST with a new uid and all three fields appends exactly that user with its defaults and answers 201 with it |
| UserRoutes.UpdateUnknownRefused | Backend/routes/userRoutes.js:79-86 | PUT on an unknown uid gives 404 and changes nothing |
| UserRoutes.UserStore.CreateUser | Backend/routes/userRoutes.js:7-41 | the handler follows `UserRoutes.CreateUserSpec` and keeps uid and email unique |
| UserRoutes.UserStore.GetUser | Backend/routes/userRoutes.js:44-71 | the answer is "absent" exactly when no stored user has the uid; otherwise a stored user with that uid |
| UserRoutes.UserStore.UpdateUser | Backend/routes/userRoutes.js:74-107 | the handler follows `UserRoutes.UpdateUserSpec` and keeps the store invariant |
| UserRoutes.AppendKeepsInvariant | Backend/models/User.js:4-13 | adding a valid user whose uid and email are new keeps both unique |
| UserRoutes.ReplaceKeepsInvariant | Backend/models/User.js:4-13 | replacing a user by a valid one unique against the others keeps both unique |
| JsString.TrimIsInfix | Backend/controllers/chat.controller.js:135 | the trimmed string is a piece of the original, with no whitespace at either end |
| JsString.BlankIffAllWhitespace | Backend/controllers/call.controller.js:174 | `s.trim() === ""` holds exactly when every character is whitespace |
| JsString.SplitJoin | Frontend/src/pages/ChatPage.jsx:527 | joining the pieces of a split with the separator gives the string back, and no piece contains the separator |
| JsString.DigitsValueOfNatToString | Frontend/src/services/chatService.js:14 | reading the decimal rendering of a number gives the number back |
| ChatService.LocalId | Frontend/src/services/chatService.js:14 | an offline id is "local-" followed by decimal digits only |
| ChatService.LocalIdsDistinct | Frontend/src/services/chatService.js:14 | offline records made at different instants never share an id |
| ChatService.ObjectIdsAreNotLocal | Frontend/src/services/chatService.js:43 | no server-issued ObjectId starts with "local-" |
| ChatService.CreateChat | Frontend/src/services/chatService.js:3-34 | success returns the payload; an HTTP error is rethrown; with no response, a local chat with a "local-" id, title "New Conversation", and the user message followed by the fixed greeting |
| ChatService.OfflineUserMessage | Frontend/src/services/chatService.js:18-21 | the local user message holds the typed message when it is non-empty, otherwise the transcription, and copies isVoice |
| ChatService.SendMessage | Frontend/src/services/chatService.js:36-66 | falls back exactly when there is no response and the id starts with "local-". The stand-in keeps the id, has no title, and holds the user message then the fixed reply. Every other failure is rethrown unchanged |
| ChatService.OfflineChatStaysOffline | Frontend/src/services/chatService.js:10-63 | a chat created offline goes on answering offline under the same id |
| ChatService.ServerChatNeverFallsBack | Frontend/src/services/chatService.js:43-64 | a server chat whose request fails is always rethrown, never answered locally |
| ChatService.GetUserChats | Frontend/src/services/chatService.js:68-84 | success exactly when the request succeeded. The result always holds an array. A failure carries its error message and no chats |
| CallService.StartCall | Frontend/src/services/callService.js:4-24 | success returns the payload; any failure gives an active local call with a "local-" id, title "Voice Call", no messages and no endedAt |
| CallService.OfflineCallMatchesServerCall | Frontend/src/services/callService.js:9-22 | apart from its id, the local call is the record the server would have stored at that instant |
| CallService.ClientRequestIsSingleTurnVoiceRequest | Frontend/src/services/callService.js:47-62 | the browser's completion request is the voice-call request for the one user message, with 150 tokens |
| CallService.GenerateAIResponse | Frontend/src/services/callService.js:27-76 | never fails: no key gives the fixed mock reply; a failed call gives the fixed fallback; otherwise the endpoint's reply |
| CallService.ReplyIsFixedOrFromEndpoint | Frontend/src/services/callService.js:34-75 | the reply is either one of the two fixed texts or the endpoint's answer to the single-message request |
| CallService.VoiceOf | Frontend/src/services/callService.js:83 | the voice id is the configured one when set, else "21m00Tcm4TlvDq8ikWAM" |
| CallService.TextToSpeech | Frontend/src/services/callService.js:79-125 | no key gives `null` and no request; otherwise exactly one request, for the text with the chosen voice, and its URL or `null` |
| CallService.SendVoiceMessage | Frontend/src/services/callService.js:128-168 | the reply text comes first and the audio is synthesised from it. The call lists exactly the user's transcription and then the AI entry with that audio. The top-level content and audioUrl equal the AI entry's |
| CallService.VoiceAudioSpeaksTheReply | Frontend/src/services/callService.js:140-150 | any audio was produced, with a key, from the reply text in the configured voice |
| CallService.GetUserCalls | Frontend/src/services/callService.js:170-184 | always reports success with an array, empty when the request failed |
| CallService.EndCall | Frontend/src/services/callService.js:196-212 | success returns the payload; any failure gives the same id with status ended at now |
| CallService.LocalEndMatchesServerEnd | Frontend/src/services/callService.js:196-212 | the local end agrees with the server's on the ObjectId, status and endedAt |
| BoldText.CloseFrom | Frontend/src/pages/ChatPage.jsx:574 | a closing found lies at or after the content start and inside the text |
| BoldText.CloseFromIsNearest | Frontend/src/pages/ChatPage.jsx:574 | a closing is found exactly when a reachable delimiter pair exists, and it is the nearest one; `.*?` never crosses a line terminator |
| BoldText.MatchAt | Frontend/src/pages/ChatPage.jsx:574 | a match opens with a `**` or `__` pair and closes after it |
| BoldText.MatchAtIsNearest | Frontend/src/pages/ChatPage.jsx:574 | a match closes with the same delimiter at the nearest reachable position; there is no match exactly when no opener pair or no reachable closing exists |
| BoldText.MatchIsAtLeastFourLong | Frontend/src/pages/ChatPage.jsx:577-587 | every match spans at least four characters, so `lastIndex` strictly increases |
| BoldText.FirstMatch | Frontend/src/pages/ChatPage.jsx:577 | the match found starts at or after `lastIndex` |
| BoldText.FirstMatchIsLeftmost | Frontend/src/pages/ChatPage.jsx:577 | `exec` returns the leftmost match, and `null` exactly when no later position matches |
| BoldText.ScanStep | Frontend/src/pages/ChatPage.jsx:579-586 | from a position whose leftmost match is (p, k), the scan emits that match's parts and continues after the closing delimiter |
| BoldText.ScanAfterIsAppend | Frontend/src/pages/ChatPage.jsx:577-592 | the loop's accumulating view of the scan equals the parts already pushed followed by the scan from the current position |
| BoldText.CollectParts | Frontend/src/pages/ChatPage.jsx:570-592 | the `exec` loop and the final push produce exactly the scan of the whole text |
| BoldText.FormatTextWithBold | Frontend/src/pages/ChatPage.jsx:566-595 | the result is the specification `BoldSpec`: `null` for empty text, otherwise the parts of the scan of the whole text |
| BoldText.ScanOfNonEmpty | Frontend/src/pages/ChatPage.jsx:590-594 | non-empty text always yields at least one part |
| BoldText.ScanReconstructs | Frontend/src/pages/ChatPage.jsx:577-592 | concatenating the parts in order, with each bold span rewrapped in its delimiter, gives the input back |
| BoldText.BoldPartWellFormed | Frontend/src/pages/ChatPage.jsx:574-584 | a bold span's content is the shortest possible: no earlier delimiter pair closes it |
| BoldText.ScanPartsWellFormed | Frontend/src/pages/ChatPage.jsx:579-592 | no emitted plain part is empty, and every bold part is shortest |
| BoldText.BoldSpecShape | Frontend/src/pages/ChatPage.jsx:567-594 | empty text gives `null`; other text gives a non-empty parts array |
| BoldText.NoDelimitersIsOnePlainRun | Frontend/src/pages/ChatPage.jsx:590-594 | a line without `*` or `_` is one plain part |
| BoldText.BoldWordExample | Frontend/src/pages/ChatPage.jsx:566-595 | "I \*\*really\*\* do" gives "I ", the bold "really", and " do" |
| MessageLayout.DigitsEnd | Frontend/src/pages/ChatPage.jsx:546 | the run of digits ends at the first non-digit |
| MessageLayout.StripBullet | Frontend/src/pages/ChatPage.jsx:540 | only a marker in the very first position is removed, together with the whitespace after it |
| MessageLayout.StripNumber | Frontend/src/pages/ChatPage.jsx:549 | the leading digits, the dot and the whitespace after it are removed, and nothing else |
| MessageLayout.Classify | Frontend/src/pages/ChatPage.jsx:533-558 | a bullet exactly when the trimmed line starts with •, - or \*; numbered exactly when not a bullet and the untrimmed line matches `^\d+\.\s`; each kind shows the bold rendering of its stripped line |
| MessageLayout.RenderFormattedMessage | Frontend/src/pages/ChatPage.jsx:523-563 | absent or empty content gives `null`; otherwise one block per kept line, in order |
| MessageLayout.ParagraphsAreTheNonBlankLines | Frontend/src/pages/ChatPage.jsx:527 | the kept lines are exactly the non-blank lines of the split, each as often as before, and contain no newline |
| MessageLayout.FilterKeepingAll | Frontend/src/pages/ChatPage.jsx:527 | a filter that keeps everything changes nothing |
| MessageLayout.NoBlankLinesKeepsEveryLine | Frontend/src/pages/ChatPage.jsx:527 | content without blank lines keeps every line in order, and joining them gives the content back |
| MessageLayout.BulletCheckedFirst | Frontend/src/pages/ChatPage.jsx:533-546 | "\* 1. step" counts as a bullet, not as a numbered item |
| MessageLayout.NumberedItemExample | Frontend/src/pages/ChatPage.jsx:546-549 | "1. Breathe" is not a bullet but a numbered item, and its stripped text is "Breathe" |
| MessageLayout.IndentedBulletKeepsMarker | Frontend/src/pages/ChatPage.jsx:534-540 | "  - item" is a bullet, but stripping leaves it unchanged, because stripping applies to the untrimmed line |
| MessageLayout.IndentedNumberIsParagraph | Frontend/src/pages/ChatPage.jsx:546 | " 1. step" is a plain paragraph |
| Transcript.Assemble | Frontend/src/pages/ChatPage.jsx:129-145 | the loop's result is the final text over results from `resultIndex` on when that is non-empty, and the interim text otherwise |
| Transcript.FinalNonEmptyIff | Frontend/src/pages/ChatPage.jsx:133-145 | the final text is non-empty exactly when some result in range is final |
| Transcript.FinalEndsWithSpace | Frontend/src/pages/ChatPage.jsx:137-138 | a non-empty final text ends with the space appended after each final result |
| Transcript.InterimOnlyWithoutFinals | Frontend/src/pages/ChatPage.jsx:143 | with some final result the transcript is the final text; with none, it is the interim text |
| Transcript.EarlierResultsIgnored | Frontend/src/pages/CallPage.jsx:120 | results before `resultIndex` do not affect the transcript |
| ChatPage.ShownAll | Frontend/src/pages/ChatPage.jsx:329 | the listed messages are the server's, one for one, in order |
| ChatPage.TextRequest | Frontend/src/pages/ChatPage.jsx:313-337 | nothing is sent exactly when the input is blank; otherwise the typed message with isVoice false |
| ChatPage.VoiceRequest | Frontend/src/pages/ChatPage.jsx:432-473 | nothing is sent exactly when the transcript is blank; otherwise an empty message, isVoice true, and the transcript as transcription |
| ChatPage.BlankTextNeverSent | Frontend/src/pages/ChatPage.jsx:313 | a blank input changes nothing |
| ChatPage.BlankTranscriptNeverSent | Frontend/src/pages/ChatPage.jsx:413-421 | a blank captured transcript sends nothing; the timer only ends recording and voice mode |
| ChatPage.StopActsOnlyWhileRecording | Frontend/src/pages/ChatPage.jsx:403-428 | `stopRecording` does nothing unless recording; when recording, it schedules exactly one timer holding the current transcript |
| ChatPage.ToggleOnStartsListening | Frontend/src/pages/ChatPage.jsx:360-401 | turning voice mode on from idle starts a fresh recording with an empty transcript |
| ChatPage.StopTimerEndsVoiceMode | Frontend/src/pages/ChatPage.jsx:412-424 | after a stop timer the page is neither recording nor in voice mode, whatever the request did |
| ChatPage.FailureKeepsOptimisticMessage | Frontend/src/pages/ChatPage.jsx:318-350 | a rejected request leaves the optimistic message listed after the earlier ones, keeps the chat, clears the input and ends loading |
| ChatPage.ServerAnswerIsListed | Frontend/src/pages/ChatPage.jsx:324-340 | a server answer replaces the list with the chat's stored messages; a new chat becomes the current one |
| ChatPage.OfflineFirstMessage | Frontend/src/pages/ChatPage.jsx:324-329 | a first message sent while offline opens a local chat listing the typed text and then the greeting |
| ChatPage.OfflineVoiceListsTranscript | Frontend/src/pages/ChatPage.jsx:453-462 | an offline voice turn lists the transcript itself as the user's message and clears the transcript |
| ChatPage.OfflineReplyReplacesList | Frontend/src/pages/ChatPage.jsx:332-338 | an offline chat's answer keeps the id and lists only the stand-in turn |
| ChatPage.NewChatCreatesOnNextSend | Frontend/src/pages/ChatPage.jsx:277-281 | a new chat empties the list and forgets the current chat, so the next message creates a chat; nothing else changes |
| ChatPage.DeleteResetsOnlyCurrent | Frontend/src/pages/ChatPage.jsx:283-303 | a delete resets the page as a new chat does exactly when it succeeded on the current chat; otherwise the page is unchanged |
| ChatPage.LoadChatTargetsNextSend | Frontend/src/pages/ChatPage.jsx:256-275 | a loaded chat's stored messages are listed and the next message goes to it; a failed load resets the page as a new chat does, and the next message creates one |
| ChatPage.ChatScreen.constructor | Frontend/src/pages/ChatPage.jsx:72-83 | the page starts with empty input and transcript, no messages, no chat, and nothing recording or loading |
| ChatPage.ChatScreen.OnResult | Frontend/src/pages/ChatPage.jsx:129-146 | the new state is `ChatPage.Heard` of the assembled transcript: it fills both the transcript and the input box, and nothing else changes |
| ChatPage.ChatScreen.OnError | Frontend/src/pages/ChatPage.jsx:148-155 | the new state is `ChatPage.RecognitionFailed` of the old one: recording and voice mode end |
| ChatPage.ChatScreen.HandleSendMessage | Frontend/src/pages/ChatPage.jsx:312-351 | the request made is `TextRequest` of the input, and the new state is `ChatPage.SendText` of the old one |
| ChatPage.ChatScreen.ToggleVoiceMode | Frontend/src/pages/ChatPage.jsx:360-428 | the new state is `ChatPage.Toggle` of the old one: start recording when entering voice mode, otherwise stop recording |
| ChatPage.ChatScreen.RestartTimerFired | Frontend/src/pages/ChatPage.jsx:382-386 | the new state is `ChatPage.RestartFired` of the old one: a pending restart resumes recording |
| ChatPage.ChatScreen.HandleNewChat | Frontend/src/pages/ChatPage.jsx:277-281 | the new state is `ChatPage.StartNewChat` of the old one |
| ChatPage.ChatScreen.HandleDeleteChat | Frontend/src/pages/ChatPage.jsx:283-303 | the new state is `ChatPage.DeletedChat` of the old one for the target and whether the delete resolved |
| ChatPage.ChatScreen.LoadChat | Frontend/src/pages/ChatPage.jsx:256-275 | the new state is `ChatPage.LoadedChat` of the old one for the chat id and how `getChat` settled |
| ChatPage.ChatScreen.StopTimerFired | Frontend/src/pages/ChatPage.jsx:412-424 | the request is `ChatPage.VoiceRequest` of the oldest captured transcript, none when it is blank; the new state is `ChatPage.StopFired` of the old one |
| CallPage.FormatTimeFields | Frontend/src/pages/CallPage.jsx:616-620 | the clock is the decimal minutes, a colon, and the seconds as exactly two digits |
| CallPage.FormatTimeRoundTrip | Frontend/src/pages/CallPage.jsx:616-620 | reading the clock back, minutes·60 + seconds, gives the seconds rendered |
| CallPage.ControlAsWritten | Frontend/src/pages/CallPage.jsx:272-278 | as written: start exactly when active, AI silent, not processing and not recording; stop exactly when recording and (not active, AI speaking, or processing) |
| CallPage.Control | Frontend/src/pages/CallPage.jsx:272-278 | the same rules with mute added: never start while muted, and stop a muted microphone |
| CallPage.StartAndStopExclusive | Frontend/src/pages/CallPage.jsx:272-278 | the start and stop conditions never hold together; without mute the corrected rule is the written one |
| CallPage.CallIdAsWritten | Frontend/src/pages/CallPage.jsx:659-660 | as written, the id read from the start result is always missing |
| CallPage.CallIdOf | Frontend/src/pages/CallPage.jsx:659-660 | the corrected id is that of the call started, on the server or locally |
| CallPage.ListeningKeepsInvariant | Frontend/src/pages/CallPage.jsx:114-144 | recognition events and timers keep the invariant: a turn is pending exactly while processing, and the AI never speaks with the speaker off (with the corrected reply, see Findings); the call id is unchanged |
| CallPage.TurnKeepsInvariant | Frontend/src/pages/CallPage.jsx:282-404 | the debounce, the corrected reply (current speaker flag, see Findings) and the end of playback keep the invariant and the call id |
| CallPage.ControlsKeepInvariant | Frontend/src/pages/CallPage.jsx:477-587 | mute, speaker and end keep the invariant and the id; the start of the call keeps the invariant exactly when no turn awaits its reply |
| CallPage.LateStartReleasesProcessing | Frontend/src/pages/CallPage.jsx:656-670 | a start that settles while a turn awaits its reply clears processing under it, breaking the invariant, so a substantial transcript is ready for a second turn |
| CallPage.EarlyEndUndoneByStart | Frontend/src/pages/CallPage.jsx:656-670 | ending the call while it connects sends no end request, and the start settling afterwards makes the call active again with its id |
| CallPage.DoubleStartEndsOnlyLast | Frontend/src/pages/CallPage.jsx:197-202 | with the two mount starts and the corrected id, ending the page asks the backend to end only the call whose start settled last |
| CallPage.DoubleStartNeverEndedAsWritten | Frontend/src/pages/CallPage.jsx:414-419 | as written, neither of the two calls started on mount is ever ended on the backend |
| CallPage.ResultsIgnoredWhileAiSpeaks | Frontend/src/pages/CallPage.jsx:115-130 | results arriving while the AI speaks change nothing; otherwise the assembled transcript replaces the last one |
| CallPage.SubstantialIsNotBlank | Frontend/src/pages/CallPage.jsx:286-290 | a transcript longer than ten characters once trimmed is not blank |
| CallPage.DebounceGuard | Frontend/src/pages/CallPage.jsx:285-316 | the debounce does nothing unless active, idle, the AI is silent, and the trimmed transcript has more than ten characters. Otherwise it starts processing, stops listening, lists the user's words and clears the transcript |
| CallPage.TurnListsUserThenAi | Frontend/src/pages/CallPage.jsx:306-329 | a whole turn lists exactly the two messages the call client reports, user then AI, the latter with the generated reply; it ends idle with the transcript cleared |
| CallPage.PlaybackRule | Frontend/src/pages/CallPage.jsx:332-398 | with the corrected reply, the AI speaks exactly when the audio URL is non-empty, the speaker is on when the reply arrives and the audio could be played; processing always ends |
| CallPage.AudioEndRule | Frontend/src/pages/CallPage.jsx:975-994 | the end of playback silences the AI and re-arms listening exactly when the call is active and not listening |
| CallPage.EndCallRule | Frontend/src/pages/CallPage.jsx:477-507 | ending stops listening and playback and sets status ended; the backend is asked to end the call exactly when an id is known |
| CallPage.StartedCallNeverEndedAsWritten | Frontend/src/pages/CallPage.jsx:656-670 | as written, ending a started call never sends the backend's end request |
| CallPage.StartedCallIsEnded | Frontend/src/pages/CallPage.jsx:477-507 | with the corrected id, ending after one start asks the backend to end exactly that call; of the two calls started on mount only the last is ended (`CallPage.DoubleStartEndsOnlyLast`) |
| CallPage.MuteUndoneAsWritten | Frontend/src/pages/CallPage.jsx:527-551 | as written, once muting stops listening, the effect schedules a restart and the microphone comes back on while muted |
| CallPage.MuteIsKept | Frontend/src/pages/CallPage.jsx:237-279 | with the corrected rule the control effect never schedules a start for a muted microphone and stops one that is on, a second run of the effect then changes nothing, and muting from a listening call leaves nothing for the effect to do |
| CallPage.SpeakerOffIgnoredAsWritten | Frontend/src/pages/CallPage.jsx:330 | as written, turning the speaker off while a reply is awaited leaves the reply playing: the AI speaks with the speaker off and the invariant breaks |
| CallPage.SpeakerOffSilencesReply | Frontend/src/pages/CallPage.jsx:330 | deciding on the current flag, a reply after the speaker was turned off stays silent and processing ends |
| CallPage.CallScreen.OnResult | Frontend/src/pages/CallPage.jsx:114-130 | keeps the invariant; the new state is `CallPage.Heard` of the assembled transcript, so results are dropped while the AI speaks |
| CallPage.CallScreen.OnError | Frontend/src/pages/CallPage.jsx:133-144 | keeps the invariant; the new state is `CallPage.RecognitionFailed` of the old one, which ends recording |
| CallPage.CallScreen.ControlEffect | Frontend/src/pages/CallPage.jsx:237-279 | the decision is the corrected `CallPage.Control` of the current flags (mute included, see Findings); the invariant is kept and the state follows `CallPage.ControlStep` |
| CallPage.CallScreen.StartTimerFired | Frontend/src/pages/CallPage.jsx:245-249 | keeps the invariant; the new state is `CallPage.StartFired` of the old one, which consumes a pending start and sets recording |
| CallPage.CallScreen.DebounceTimerFired | Frontend/src/pages/CallPage.jsx:282-316 | keeps the invariant; the new state is `CallPage.DebounceFired` of the old one, whose guard `CallPage.DebounceGuard` states |
| CallPage.CallScreen.ReplyArrived | Frontend/src/pages/CallPage.jsx:318-398 | keeps the invariant; the new state is `CallPage.Reply` of the old one, whose messages and playback `CallPage.TurnListsUserThenAi` and `CallPage.PlaybackRule` state |
| CallPage.CallScreen.PlaybackEnded | Frontend/src/pages/CallPage.jsx:975-995 | keeps the invariant; the new state is `CallPage.AudioEnded` of the old one, which `CallPage.AudioEndRule` states |
| CallPage.CallScreen.RearmTimerFired | Frontend/src/pages/CallPage.jsx:984-991 | keeps the invariant; the new state is `CallPage.RearmFired` of the old one, which consumes a pending re-arm and sets recording |
| CallPage.CallScreen.HandleToggleMute | Frontend/src/pages/CallPage.jsx:527-551 | keeps the invariant; the new state is `CallPage.ToggleMute` of the old one: unmuting an idle active call starts listening, and muting while listening stops it |
| CallPage.CallScreen.HandleToggleSpeaker | Frontend/src/pages/CallPage.jsx:554-587 | keeps the invariant; the new state is `CallPage.ToggleSpeaker` of the old one: turning the speaker off while the AI speaks silences it and resumes listening in an active call |
| CallPage.CallScreen.HandleEndCall | Frontend/src/pages/CallPage.jsx:477-525 | the end request is the current call id if there is one; the new state is `CallPage.EndCall` of the old one |
| CallPage.CallScreen.HandleStartCall | Frontend/src/pages/CallPage.jsx:656-670 | the new state is the corrected `CallPage.StartCall` of the old one (see Findings): whatever the status, the call becomes active with the id of the call started and processing ends; the invariant is kept exactly when no turn awaits its reply |
| CallPage.CallScreen.constructor | Frontend/src/pages/CallPage.jsx:72-84 | the page starts connecting, unmuted, speaker on, with no call id, no messages, and the invariant holding |

## Left out

- Network, database, Firebase and the LLM/TTS providers are outside the model; their answers are oracle parameters.
- Sockets, call-history reloads (`loadChatHistory`, `loadCallHistory`), navigation and snackbars are plumbing with no state the core reads. `loadChat` is modelled; the socket's `message-update` event that also calls it is not.
- The client `getChat`/`deleteChat`/`getCall`/`deleteCall` wrappers return the payload or rethrow; they have no decision to model.
- The `_id`/`__v` bookkeeping of Mongoose is not modelled. An id in a request is cast as an ObjectId is: 24 hex digits in either case, looked up by their lower-case form. New ids are parameters, already in that lower-case form. Mongoose's lenient casts are reduced to a small cast table, and request bodies whose strings are not strings are not modelled.
- String lengths count characters, while JavaScript counts UTF-16 code units. `Trim` uses the whitespace class of the language, with no Unicode normalisation.
- The server sort's order among chats with equal `updatedAt` is not pinned down: any order the insertion sort gives is accepted.
- The outer `catch` of the auth middleware (500) only catches failures of code that cannot fail in the model.
- Concurrent requests on one conversation are not modelled. Each React handler runs as one step, so state changes made during an `await` are not interleaved. The closures that hold old state are not modelled either: a handler reads current state. The exceptions are the 300 ms stop timer of the chat page, which keeps the transcript it was scheduled with, and the call page's speaker flag, whose stale read is listed under Findings (CallPage.jsx:330).
- The recognizer's `onend` handlers are left out. On the chat page it runs with the flags of the first render. On the call page it only calls `start()` on the recognizer and changes no state cell.
- Exceptions from `recognition.start()`/`stop()` (for example "already started") are not modelled; starting always succeeds.
- The browser is assumed to support speech recognition and to have the audio element mounted. This means `useState(useState(null))` (CallPage.jsx:82) and the missing-`audioRef` path are not modelled.
- The call duration interval and `formatDate` are left out. `formatTime` is modelled on its own.
- Revoking blob URLs, `audio.onPlay`, `audio.onError` and the speech-synthesis fallback's own end event are left out. The latter behaves like `onEnded`.
- CallPage.CallScreen.ReplyArrived: the page class runs the corrected `CallPage.Reply`, which decides playback on the current speaker flag. The reply as written (CallPage.jsx:330) is `CallPage.ReplyAsWritten`, which uses the flag of the render that scheduled the debounce.
- CallPage.CallScreen.ReplyArrived: `canSpeak` folds "`play()` resolved" and "the browser offered speech synthesis after a failed `play()`" into one input.
- The `catch` of client `sendVoiceMessage` is not modelled: the functions it calls never throw, so it cannot run. The same holds for the `catch` of `handleStartCall` and of `processTranscript`: their client calls never reject.
- The server voice path (Backend/controllers/call.controller.js:169-230) and the browser voice path (Frontend/src/services/callService.js:128-168) are modelled separately. The call page uses only the browser path.
- Completion.Llm: a completion reply whose `choices[0].message.content` is missing or not a string is not modelled. `getAIResponse` and the client `generateAIResponse` would pass that value on unchanged: the server's save then fails the `required` check on the message content and the handler answers 500, and in the browser the call client goes on with an undefined reply. `generateChatTitle` throws on it and falls back to "New Conversation".
- CallPage.CallScreen.ControlEffect: the page class runs the corrected control rule `CallPage.ControlStep`, which takes `isMuted` into account. The effect as written (CallPage.jsx:272-278) is `CallPage.ControlStepAsWritten`; the two are compared by `CallPage.MuteUndoneAsWritten` and `CallPage.MuteIsKept`.
- CallPage.CallScreen.HandleStartCall: the page class keeps the corrected call id `CallPage.CallIdOf` (`call._id`). The handler as written (CallPage.jsx:656-670) is `CallPage.StartCallAsWritten`, which keeps no id, so ending the call never reaches the backend; see `CallPage.StartedCallNeverEndedAsWritten`.
- CallPage.CallScreen.HandleStartCall: the two identical mount effects (CallPage.jsx:197-202 and 414-419) each start a call; the model is the environment calling `HandleStartCall` once per settled start, in either order. Neither the handler nor the model checks the status, so a late start undoes an early end (`CallPage.EarlyEndUndoneByStart`) and clears processing under a pending turn (`CallPage.LateStartReleasesProcessing`).
- CallPage.CallScreen.HandleStartCall: the `setIsProcessing(true)` before the `await` is not modelled. Both mount starts set it while the call is still connecting, and in that state no guard or rule reads the flag, since each of them also requires an active call.
- CallPage.LateStartReleasesProcessing: the session holds one pending turn, so the overlapping second turn that a late start allows is not modelled; a second debounce replaces the pending words.
- CallPage.MuteIsKept: only the control effect is corrected. The re-arm timer after playback, turning the speaker off while the AI speaks, and a start timer scheduled before the mute still set `isRecording` on a muted call, as the source does. The corrected effect re-runs whenever `isRecording` changes and stops the microphone again, so it is on only from that event until the effect runs.
- The `handleNewChat` drawer close and the snackbars and history reload of `handleDeleteChat` are left out; their state resets are modelled.
- UserRoutes.UpdateTwice: applies only to bodies that leave `uid` as it is. A PUT that changes the uid moves the user, and the repeated PUT then answers 404.

## Findings

| source | as written | input that shows it | evidently intended | confidence | as-written member | corrected member |
|---|---|---|---|---|---|---|
| Frontend/src/pages/CallPage.jsx:659-660 | `setCurrentCallId(callDetails.callId)`, but `startCall` resolves `{success, call}`, so the call id stays unset and `handleEndCall` (504-507) never calls `endCall` | any start of a call, server or local, followed by ending the call | keep `callDetails.call._id`, so that ending the call ends that call on the backend; since the two mount effects (197-202, 414-419) start two calls, this ends only the one whose start settles last | not executed | CallPage.StartedCallNeverEndedAsWritten | CallPage.StartedCallIsEnded |
| Frontend/src/pages/CallPage.jsx:272-278 | the control effect ignores `isMuted`: after muting stops recognition (542-549), the effect sees an active, idle call that is not recording and restarts listening 300 ms later | an active call, AI silent, not processing, listening; press mute | the control effect never starts a muted microphone and stops one that is on, as the "Microphone is muted" label (885) shows | not executed | CallPage.MuteUndoneAsWritten | CallPage.MuteIsKept |
| Frontend/src/pages/CallPage.jsx:330 | `processTranscript` decides playback on `isSpeakerOn` from the render that scheduled the 1.5 s debounce, and the effect's dependencies (406) leave the speaker out, so turning the speaker off while a reply is awaited does not stop it from playing | an active call with the speaker on and a substantial transcript; the debounce fires; press the speaker button before the reply arrives; the reply has audio | a reply that arrives after the speaker was turned off stays silent, as `toggleSpeaker` (554-587) silences one that is already playing | not executed | CallPage.SpeakerOffIgnoredAsWritten | CallPage.SpeakerOffSilencesReply |
