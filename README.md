# Nova chat components — a Dafny model

This project models the logic inside the React components of the "Nova"
chat demo:

- the two chat screens (`NovaChat` and `AdvancedNovaChat`): an ordered chain of keyword tests over the lower-cased message picks a canned reply, then a mood and a confidence; the screens also hold the message list, the typing indicator and the statistics;
- the chat input box (`ChatInput`): the trim-and-send guard;
- the message bubble's small markdown renderer (`ChatBubble`): bold, italic, numbered list items and line breaks, written as the regular expressions they are;
- the conversation history panel (`ConversationHistory`): save, delete, case-insensitive search and plain-text export;
- the analytics panel (`ConversationAnalytics`): counts, the average confidence and the mood distribution;
- the typewriter effect (`TypingSimulator`);
- the personality sliders and badge (`PersonalityControls`, `AIPersonalityCore`);
- the avatar's mood colours and energy bands (`HolographicAvatar`).

Pure helpers are modelled as functions and lemmas. Component state that the
source updates in place is modelled as classes with `modifies` clauses:
`NovaChat.Chat`, `AdvancedNovaChat.Chat`, `ChatInput.Input`,
`ConversationHistory.History`, `TypingSimulator.Simulator`,
`AIPersonalityCore.Core` and `HolographicAvatar.Avatar`. Some things become
parameters:

- every value `Math.random()` returns is a parameter in `[0, 1)`;
- every `Date.now()`-derived id and timestamp is a parameter;
- every elapsed time is a parameter.

Each timer or interval that fires is one method call.

Things that follow from the code as written:

- In `AdvancedNovaChat` the mood-detection block is dead: every branch of the reply chain overwrites both locals it sets (`DetectionIsOverwritten`).
- Keywords match as substrings, so "THIS" gets the greeting reply because it includes "hi" (`ThisHitsHi`).
- The `'New Conversation'` fallback title can never be used, because the title always ends in `...`.

Module layout:

- `Wrappers`, `JsMath`, `Text` and `Messages` are the shared vocabulary: `Option`, `Math.floor`/`round`/`min`/`max`, and ASCII `toLowerCase`, `trim`, `includes`, `slice` and `join`.
- `KeywordRules` is the reference meaning of an if-chain of `includes` tests: the first rule that fires wins.
- Each component has its own module.

## Model

| member | source | states |
|---|---|---|
| JsMath.RandomIndex | src/components/NovaChat.tsx:84 | `Math.floor(r * n)` for a draw in `[0, 1)` is an index inside a pool of `n`, and the draw falls in its cell |
| JsMath.Round | src/components/PersonalityControls.tsx:70 | `Math.round` is the nearest integer, with halves rounded up |
| JsMath.Min | src/components/AdvancedNovaChat.tsx:136 | `Math.min` is one of its arguments and at most both |
| JsMath.Max | src/components/ConversationAnalytics.tsx:36 | `Math.max` is one of its arguments and at least both |
| Text.ContainsIff | src/components/NovaChat.tsx:44 | `Contains`, the model of `includes`, holds exactly when the needle occurs at some position |
| Text.ContainsEmpty | src/components/ConversationHistory.tsx:84-87 | every string includes the empty string |
| Text.NotContainsLonger | src/components/AdvancedNovaChat.tsx:55 | a string never includes a longer one |
| Text.ContainsMiddle | src/components/NovaChat.tsx:44 | a string includes whatever appears in it |
| Text.FirstCharDiffers | src/components/AdvancedNovaChat.tsx:55 | a string does not start with a needle whose first character differs |
| Text.LowerChar | src/components/NovaChat.tsx:41 | ASCII `toLowerCase` of one character: upper-case letters move down by 32, the rest stay |
| Text.ToLower | src/components/NovaChat.tsx:41 | `toLowerCase` keeps the length and leaves no upper-case letter |
| Text.ToLowerIdempotent | src/components/NovaChat.tsx:41 | lower-casing twice is lower-casing once |
| Text.ToLowerOfLower | src/components/NovaChat.tsx:41 | a string without upper-case letters is its own lower case |
| Text.LeadingBlank | src/components/ChatInput.tsx:21 | the white-space run `trim` strips at the front |
| Text.TrailingBlank | src/components/ChatInput.tsx:21 | the white-space run `trim` strips at the back |
| Text.Trim | src/components/ChatInput.tsx:20-21 | `trim` is the middle slice of its input: not blank at either end, and empty exactly for a blank input |
| Text.TrimIdempotent | src/components/ChatInput.tsx:21 | trimming twice is trimming once |
| Text.Take | src/components/ConversationHistory.tsx:53 | `slice(0, n)` is a prefix of length `min(n, length)` |
| Text.JoinSnoc | src/components/ConversationHistory.tsx:72-74 | one more part adds the separator and that part at the end of `join` |
| Text.JoinLength | src/components/ConversationHistory.tsx:72-74 | `Join`, the model of `join`, is as long as its parts plus one separator between each two |
| Text.JoinEnds | src/components/ConversationHistory.tsx:72-74 | `join` starts with the first part and ends with the last |
| Messages.MoodName | src/components/AdvancedNovaChat.tsx:24 | every mood literal is non-empty |
| Messages.MoodNameInjective | src/components/AdvancedNovaChat.tsx:24 | distinct moods have distinct literals |
| Messages.UserMessage | src/components/NovaChat.tsx:89-94 | the user's message carries the text, is marked as the user's and has no mood, confidence or time |
| Messages.AssistantMessage | src/components/NovaChat.tsx:99-104 | a plain reply is the assistant's, carries the text and has no mood, confidence or time |
| ChatInput.Submission | src/components/ChatInput.tsx:18-24 | a submit sends exactly when the buffer is not blank and the input is enabled, and what it sends is the trimmed buffer, non-empty and not blank at either end |
| ChatInput.SendButtonMatchesGuard | src/components/ChatInput.tsx:61 | `SendButtonDisabled`, the button's `disabled` expression, holds exactly when a submit would send nothing |
| ChatInput.Input.constructor | src/components/ChatInput.tsx:16 | the buffer starts empty |
| ChatInput.Input.OnChange | src/components/ChatInput.tsx:40 | typing replaces the buffer |
| ChatInput.Input.HandleSubmit | src/components/ChatInput.tsx:18-24 | the result is the submission of the old buffer; the buffer is cleared exactly when something was sent |
| ChatInput.Input.HandleKeyPress | src/components/ChatInput.tsx:26-31 | Enter without Shift submits (`SubmitsOnKey`, the key test of lines 26-27); every other key sends nothing and keeps the buffer |
| KeywordRules.AnyContainsIff | src/components/NovaChat.tsx:44 | a left-to-right disjunction of `includes` tests holds exactly when one keyword is included |
| KeywordRules.FirstMatch | src/components/NovaChat.tsx:44-85 | an if-chain gives an outcome exactly when some rule fires, and it is the outcome of the first rule that fires |
| KeywordRules.FirstMatchIsFirst | src/components/NovaChat.tsx:44-85 | the first rule to fire decides, whatever the later rules say |
| KeywordRules.FirstMatchStep | src/components/NovaChat.tsx:44-85 | the head rule decides when it fires; otherwise the rest of the chain does |
| KeywordRules.AnyContains5 | src/components/NovaChat.tsx:52 | a literal keyword list means the plain disjunction of its `includes` tests (one to five keywords) |
| NovaChat.ReplyText | src/components/NovaChat.tsx:45-85 | every canned reply is a non-empty literal |
| NovaChat.Choose | src/components/NovaChat.tsx:40-86 | the branch taken is a literal; the fallback picks pool entry `floor(r * 5)` |
| NovaChat.Reply | src/components/NovaChat.tsx:40-86 | `generateNovaResponse` returns a non-empty literal |
| NovaChat.ChooseFollowsRules | src/components/NovaChat.tsx:44-85 | the chain is the seven-rule table `NovaChat.Rules` (each rule's keywords and canned reply, in the chain's order): the reply is the first rule whose keyword the message includes, and the pool entry otherwise |
| NovaChat.IdentityBeatsCreator | src/components/NovaChat.tsx:44-50 | a message asking who Nova is and naming Tanveer gets the identity reply, because that test comes first |
| NovaChat.ChooseIgnoresCase | src/components/NovaChat.tsx:41 | a message and its lower case get the same reply |
| NovaChat.Greeting | src/components/NovaChat.tsx:30-38 | the mount greeting is the assistant's `greeting` message with the greeting text |
| NovaChat.Chat.constructor | src/components/NovaChat.tsx:16-38 | after mounting, the list holds the greeting alone and every flag is off |
| NovaChat.Chat.HandleSendMessage | src/components/NovaChat.tsx:88-111 | the user's message is appended, typing turns on and one reply is scheduled for that text |
| NovaChat.Chat.ReplyTimerFires | src/components/NovaChat.tsx:99-110 | exactly one assistant reply to the captured text is appended, typing turns off, and single flight is kept |
| NovaChat.Chat.HandleVoiceToggle | src/components/NovaChat.tsx:113-117 | listening flips; nothing else changes |
| NovaChat.Chat.PressVoiceButton | src/components/NovaChat.tsx:162-166 | the voice button, disabled while typing, toggles listening exactly when no reply is pending, and keeps single flight |
| NovaChat.Chat.Submit | src/components/NovaChat.tsx:156-160 | with the input disabled while typing, nothing is sent during a pending reply and nothing changes; otherwise the trimmed buffer becomes the next user message, the chat is typing with that text as the one pending reply, and the buffer is cleared; a submit that sends nothing keeps the buffer |
| AdvancedNovaChat.ReplyText | src/components/AdvancedNovaChat.tsx:55-95 | every canned reply is a non-empty literal |
| AdvancedNovaChat.DetectMood | src/components/AdvancedNovaChat.tsx:41-50 | the detected mood is neutral exactly when none of the twelve mood keywords is included |
| AdvancedNovaChat.Decide | src/components/AdvancedNovaChat.tsx:55-95 | the chain always selects a literal reply |
| AdvancedNovaChat.DecideBounds | src/components/AdvancedNovaChat.tsx:55-95 | every branch leaves a non-neutral mood and a confidence in `[0.75, 0.98]` |
| AdvancedNovaChat.Generate | src/components/AdvancedNovaChat.tsx:34-99 | the response text is a non-empty literal, the mood is never neutral, the confidence lies in `[0.75, 0.98]`, and the processing time is the elapsed time plus less than a second |
| AdvancedNovaChat.DecideFollowsRules | src/components/AdvancedNovaChat.tsx:55-95 | the chain is the seven-rule table `AdvancedNovaChat.Rules` (each rule's keywords and decision, in the chain's order), with the thinking fallback at confidence 0.75 |
| AdvancedNovaChat.DetectionIsOverwritten | src/components/AdvancedNovaChat.tsx:38-95 | the result does not depend on the detected mood or the initial confidence |
| AdvancedNovaChat.LowerThis | src/components/AdvancedNovaChat.tsx:35 | "THIS" lower-cases to "this" |
| AdvancedNovaChat.ThisKeywords | src/components/AdvancedNovaChat.tsx:55-82 | "this" includes "hi" and none of the other short keywords |
| AdvancedNovaChat.ThisHitsHi | src/components/AdvancedNovaChat.tsx:76-81 | substring matching sends "THIS" to the greeting branch (happy, 0.92) |
| AdvancedNovaChat.UpdateStats | src/components/AdvancedNovaChat.tsx:131-137 | one more message processed; the new average is the midpoint of the old average and the new time; knowledge grows by less than 50; creativity grows by at most 4 and stays capped at 100 |
| AdvancedNovaChat.AverageBetween | src/components/AdvancedNovaChat.tsx:134 | the new average lies between the old average and the new processing time |
| AdvancedNovaChat.Greeting | src/components/AdvancedNovaChat.tsx:149-160 | the greeting is the assistant's, excited, with confidence 0.98 and no processing time |
| AdvancedNovaChat.ReplyMessage | src/components/AdvancedNovaChat.tsx:116-124 | the reply message carries the response's text, mood literal, confidence and processing time |
| AdvancedNovaChat.Chat.constructor | src/components/AdvancedNovaChat.tsx:20-160 | after mounting: the greeting alone, mood excited, the initial statistics |
| AdvancedNovaChat.Chat.HandleSendMessage | src/components/AdvancedNovaChat.tsx:101-111 | the user's message is appended, typing turns on, the mood becomes thinking, one reply is scheduled, the statistics are untouched |
| AdvancedNovaChat.Chat.ReplyTimerFires | src/components/AdvancedNovaChat.tsx:114-138 | exactly one reply carrying the response's mood and confidence is appended; the current mood becomes the response's; the statistics take its processing time; single flight, the creativity cap and a non-negative average are kept |
| AdvancedNovaChat.Chat.HandleVoiceToggle | src/components/AdvancedNovaChat.tsx:141-146 | listening flips, and the mood becomes focused only when listening turns on |
| AdvancedNovaChat.Chat.PressVoiceButton | src/components/AdvancedNovaChat.tsx:242-246 | the voice button, disabled while typing, toggles exactly when no reply is pending, so the mood stays thinking while a reply is outstanding |
| AdvancedNovaChat.Chat.Submit | src/components/AdvancedNovaChat.tsx:236-239 | nothing is sent while a reply is pending and nothing changes; otherwise the trimmed buffer becomes the next user message, the chat is typing with that text as the one pending reply, the mood becomes thinking and the buffer is cleared; a submit that sends nothing keeps the buffer |
| ChatBubble.FindClose | src/components/ChatBubble.tsx:14 | the closing delimiter the lazy `(.*?)` finds lies inside the text |
| ChatBubble.FindCloseSpec | src/components/ChatBubble.tsx:14 | the lazy match is the first occurrence of the delimiter on the current line, and there is none exactly when no line-local occurrence exists |
| ChatBubble.Span | src/components/ChatBubble.tsx:20 | a greedy class run is maximal |
| ChatBubble.LastOnLine | src/components/ChatBubble.tsx:20 | the backtracked end of `(.+)` is the last non-terminator before the line end |
| ChatBubble.ListItem | src/components/ChatBubble.tsx:20 | a list match found at a line start is a match of `^\d+\.\s+(.+)$` |
| ChatBubble.ListItemComplete | src/components/ChatBubble.tsx:20 | whenever the pattern matches at a line start, the matcher finds an item, and its content starts no earlier than that match's content (the greedy `\s+` takes all the whitespace after the dot) |
| ChatBubble.DotIsFirstNonDigit | src/components/ChatBubble.tsx:20 | the digit run of a match ends at its dot |
| ChatBubble.Newlines | src/components/ChatBubble.tsx:23 | no `\n` is left after the line-break pass, and text without one is unchanged |
| ChatBubble.Render | src/components/ChatBubble.tsx:12-26 | the rendered HTML holds no `\n` |
| ChatBubble.PlainFront | src/components/ChatBubble.tsx:14-17 | text without the delimiter's first character passes through a replacement pass unchanged, ahead of the rest |
| ChatBubble.PairsPlain | src/components/ChatBubble.tsx:14-17 | text without the delimiter is left unchanged by the pass |
| ChatBubble.CloseAfter | src/components/ChatBubble.tsx:14 | on one line, the lazy match closes at the first following delimiter |
| ChatBubble.NoCloseAcrossLine | src/components/ChatBubble.tsx:14 | `.` does not cross a line break, so no closing delimiter is found past one |
| ChatBubble.PairFront | src/components/ChatBubble.tsx:14-17 | for `ReplacePairs`, the global lazy replace that `Bold` (`**`, line 14) and `Italic` (`*`, line 17) instantiate: a delimited one-line span becomes open tag, content, close tag |
| ChatBubble.BoldSpan | src/components/ChatBubble.tsx:14 | `**x**` becomes `<strong>x</strong>` |
| ChatBubble.ItalicSpan | src/components/ChatBubble.tsx:17 | `*x*` becomes `<em>x</em>` |
| ChatBubble.TwoBoldSpans | src/components/ChatBubble.tsx:14 | the global flag replaces every pair, each with the shortest content |
| ChatBubble.StrayDelimiter | src/components/ChatBubble.tsx:14-17 | a lone delimiter is left as it is |
| ChatBubble.BoldNotAcrossLines | src/components/ChatBubble.tsx:14 | a `**` pair split by a line break is not made bold |
| ChatBubble.ItalicNotAcrossLines | src/components/ChatBubble.tsx:17 | a `*` pair split by a line break is not made italic |
| ChatBubble.ListPassPlain | src/components/ChatBubble.tsx:20 | a line that is not a list item passes unchanged |
| ChatBubble.LineFront | src/components/ChatBubble.tsx:20 | `^` matches again after each line break (multiline flag) |
| ChatBubble.ListLine | src/components/ChatBubble.tsx:20 | `n.` followed by white space and one line of content becomes a list `div` around exactly that content |
| ChatBubble.ListItemIs | src/components/ChatBubble.tsx:20 | the matcher's item is given by the three greedy runs |
| ChatBubble.ListPassItem | src/components/ChatBubble.tsx:20 | in `ListPass`, the global replace of line 20, a matched item is replaced by the list `div` around its content, and matching continues after it |
| ChatBubble.ListLineParts | src/components/ChatBubble.tsx:20 | the three runs of a list line end at the dot, at the content and at the line end |
| ChatBubble.SpanExact | src/components/ChatBubble.tsx:20 | a run of exactly `k` matching characters followed by a non-match has span `k` |
| ChatBubble.ListAcrossLineBreak | src/components/ChatBubble.tsx:20 | `\s+` also consumes line breaks, so "1.\nfoo" becomes one list item |
| ChatBubble.RenderPlain | src/components/ChatBubble.tsx:12-26 | one line of plain text renders as itself |
| ChatBubble.RenderBold | src/components/ChatBubble.tsx:12-26 | a bold span renders as `<strong>` and is not then taken for italics |
| ChatBubble.RenderListItem | src/components/ChatBubble.tsx:12-26 | `n. x` renders as exactly one list `div` around `x` |
| ChatBubble.ListTagsOneLine | src/components/ChatBubble.tsx:20 | the list tags contain no line break |
| ChatBubble.StarFree | src/components/ChatBubble.tsx:14-17 | text without `*` skips both emphasis passes |
| ChatBubble.LacksJoin | src/components/ChatBubble.tsx:23 | a concatenation lacks a character exactly when both parts do |
| ConversationHistory.Filter | src/components/ConversationHistory.tsx:66 | `filter` keeps, in order, exactly the elements the test accepts, each as often as it occurs |
| ConversationHistory.SubsequenceIn | src/components/ConversationHistory.tsx:66 | a filtered list holds only elements of the original |
| ConversationHistory.FilterAll | src/components/ConversationHistory.tsx:66 | a test every element passes keeps the whole list |
| ConversationHistory.FilterSame | src/components/ConversationHistory.tsx:84-87 | tests that agree on every element filter alike |
| ConversationHistory.FilterTwice | src/components/ConversationHistory.tsx:66 | filtering is idempotent |
| ConversationHistory.Title | src/components/ConversationHistory.tsx:53 | the title is the first 50 characters of the first message followed by `...`, so the fallback is unreachable |
| ConversationHistory.NewConversation | src/components/ConversationHistory.tsx:51-57 | a saved conversation holds the current messages, their title, the id and the two separate clock readings as its dates |
| ConversationHistory.WithoutId | src/components/ConversationHistory.tsx:66 | delete keeps exactly the conversations with another id, in order and with their multiplicities |
| ConversationHistory.DeleteAbsent | src/components/ConversationHistory.tsx:65-69 | deleting an absent id changes nothing |
| ConversationHistory.DeleteIdempotent | src/components/ConversationHistory.tsx:65-69 | deleting twice is deleting once |
| ConversationHistory.Search | src/components/ConversationHistory.tsx:84-87 | the listed conversations are exactly the stored ones satisfying `Matches`: their title or some message includes the term, ignoring case, in order and with their multiplicities |
| ConversationHistory.EmptySearchKeepsAll | src/components/ConversationHistory.tsx:84-87 | an empty search lists every conversation |
| ConversationHistory.SearchIgnoresCase | src/components/ConversationHistory.tsx:84-87 | the term's case does not matter |
| ConversationHistory.ExportLine | src/components/ConversationHistory.tsx:73 | each message exports as `You: text` or `Nova: text` |
| ConversationHistory.ExportLines | src/components/ConversationHistory.tsx:72-73 | one export line per message, in order |
| ConversationHistory.ExportShape | src/components/ConversationHistory.tsx:72-74 | `ExportContent`, the lines joined by a blank line, starts with the first message's line and ends with the last one's, with one blank-line separator between each two |
| ConversationHistory.ExportSnoc | src/components/ConversationHistory.tsx:72-74 | one more message adds a blank line and its line |
| ConversationHistory.ExportEmpty | src/components/ConversationHistory.tsx:72-74 | no messages export as the empty text |
| ConversationHistory.ExportFileName | src/components/ConversationHistory.tsx:80 | the file name is `nova-conversation-`, then the first ten characters of the date (all of a shorter one), then `.txt` |
| ConversationHistory.History.constructor | src/components/ConversationHistory.tsx:37-38 | the panel starts with no conversations and an empty search |
| ConversationHistory.History.SaveCurrentConversation | src/components/ConversationHistory.tsx:48-63 | with no messages nothing happens; otherwise exactly one conversation is appended and `onSaveConversation` is called |
| ConversationHistory.History.DeleteConversation | src/components/ConversationHistory.tsx:65-69 | the stored list loses exactly the conversations with that id |
| ConversationHistory.History.SetSearchTerm | src/components/ConversationHistory.tsx:122 | the search box holds the typed term; the list is untouched |
| ConversationHistory.History.Filtered | src/components/ConversationHistory.tsx:84-87 | the shown list is a subsequence of the stored one holding exactly the matching conversations, each as often as stored |
| ConversationHistory.History.Load | src/components/ConversationHistory.tsx:138 | loading hands over the messages of a stored conversation |
| ConversationAnalytics.CountsPartition | src/components/ConversationAnalytics.tsx:30-32 | `UserCount` and `AiCount`, the two `isUser` filters' lengths, add up to the total |
| ConversationAnalytics.ConfidenceSumBounds | src/components/ConversationAnalytics.tsx:34-36 | with confidences in `[0, 1]`, `ConfidenceSum`, the sum over assistant messages with a confidence, lies between 0 and the assistant count |
| ConversationAnalytics.AverageConfidenceBounds | src/components/ConversationAnalytics.tsx:34-36 | `AverageConfidence`, the sum over the assistant count, lies in `[0, 1]`, and is 0 when there are no assistant messages |
| ConversationAnalytics.SkippedMessage | src/components/ConversationAnalytics.tsx:35 | a user message, or a reply without a confidence or with confidence 0, adds nothing to the sum |
| ConversationAnalytics.ConfidencePercent | src/components/ConversationAnalytics.tsx:83 | the confidence percentage lies in `0..100` |
| ConversationAnalytics.MoodCountAtMostAi | src/components/ConversationAnalytics.tsx:38-39 | `MoodCount`, the number of assistant messages with a mood, is at most the number of replies |
| ConversationAnalytics.HasKeyIff | src/components/ConversationAnalytics.tsx:41 | a key is in the record exactly when some entry holds it |
| ConversationAnalytics.DistinctKeysIff | src/components/ConversationAnalytics.tsx:41 | the record's keys are pairwise distinct |
| ConversationAnalytics.Bump | src/components/ConversationAnalytics.tsx:41 | counting one more reply of mood `k` raises that key's count by one, keeps the other counts and key order, adds a new key last with count 1, and keeps keys distinct and counts positive |
| ConversationAnalytics.Distribution | src/components/ConversationAnalytics.tsx:38-43 | the distribution has distinct keys and positive counts; each key's count (`Lookup`, `MoodTally`) is the number of replies with that mood; the counts add up to the replies with a mood |
| ConversationAnalytics.EntryAtMostTotal | src/components/ConversationAnalytics.tsx:104 | no count exceeds the total |
| ConversationAnalytics.EmptyIffZero | src/components/ConversationAnalytics.tsx:100 | a record of positive counts is empty exactly when its total is 0 |
| ConversationAnalytics.MoodPanelShown | src/components/ConversationAnalytics.tsx:100 | the mood panel shows exactly when some reply carries a mood |
| ConversationAnalytics.DistributionTotal | src/components/ConversationAnalytics.tsx:38-43 | the distribution counts every reply with a mood, and no more than the replies |
| ConversationAnalytics.BarWidthsInRange | src/components/ConversationAnalytics.tsx:111 | every bar of the mood panel has a width (`BarWidth`, count over replies as a percentage) in `(0, 100]` percent, and the division is by a positive count |
| ConversationAnalytics.PercentOfWhole | src/components/ConversationAnalytics.tsx:111 | a positive part of a whole is more than 0 and at most 100 percent |
| TypingSimulator.Step | src/components/TypingSimulator.tsx:21-25 | a tick reveals one more character while any remain, and stands still at the end; the shown text stays a prefix |
| TypingSimulator.TicksFromStart | src/components/TypingSimulator.tsx:20-31 | `Ticks`, `n` interval ticks: after them the first `min(index + n, length)` characters are shown |
| TypingSimulator.FullReveal | src/components/TypingSimulator.tsx:20-31 | `length` ticks from the start show the whole text, which then stays |
| TypingSimulator.CursorUntilComplete | src/components/TypingSimulator.tsx:28-29 | the cursor shows exactly until completion, and completion means the whole text is shown |
| TypingSimulator.SpuriousCompletionScenario | src/components/TypingSimulator.tsx:20-36 | a simulator that has typed "abc" in full and is then given "ab" reports completion at the change, while "abc" is still displayed, and then shows nothing |
| TypingSimulator.CorrectedScenario | src/components/TypingSimulator.tsx:20-36 | with the reset first, the same change arms the timer instead, and completion comes only once "ab" is shown in full |
| TypingSimulator.Simulator.constructor | src/components/TypingSimulator.tsx:17-18 | the state starts empty at index 0 |
| TypingSimulator.Simulator.RunEffect | src/components/TypingSimulator.tsx:20-31 | the timer is armed exactly while characters remain; `onComplete` runs otherwise, and then only with the whole text shown |
| TypingSimulator.Simulator.TimerFires | src/components/TypingSimulator.tsx:22-25 | the timer reveals one more character and keeps the state consistent |
| TypingSimulator.Simulator.ChangeTextAsWritten | src/components/TypingSimulator.tsx:20-36 | a text change reports completion (`StaleCompletion`) exactly when the old index is at least the new length, then resets |
| TypingSimulator.Simulator.ChangeText | src/components/TypingSimulator.tsx:33-36 | a text change resets the reveal and reports no completion |
| PersonalityControls.TraitOrderComplete | src/components/PersonalityControls.tsx:6-12 | the five keys are listed once each |
| PersonalityControls.NamesDistinct | src/components/PersonalityControls.tsx:27-33 | distinct traits have distinct names and labels |
| PersonalityControls.TraitColor | src/components/PersonalityControls.tsx:35-40 | green above 0.8, cyan in `(0.6, 0.8]`, purple in `(0.4, 0.6]`, pink at or below 0.4, each both ways |
| PersonalityControls.BoundariesGoDown | src/components/PersonalityControls.tsx:35-40 | the thresholds 0.8, 0.6 and 0.4 fall in the lower bucket |
| PersonalityControls.TraitColorMonotone | src/components/PersonalityControls.tsx:35-40 | a higher value never gets a lower bucket |
| PersonalityControls.Percent | src/components/PersonalityControls.tsx:70 | the percentage of a value in `[0, 1]` lies in `0..100` |
| PersonalityControls.SliderValue | src/components/PersonalityControls.tsx:78-80 | every slider position lies in `[0, 1]` |
| PersonalityControls.PercentOfSlider | src/components/PersonalityControls.tsx:70-80 | the percentage of slider position `n` reads back `n` |
| PersonalityControls.Rows | src/components/PersonalityControls.tsx:60-70 | one row (`RowFor`) per trait in declaration order, each with that trait's value (`Get`), colour and label (`Label`) |
| PersonalityControls.SliderChange | src/components/PersonalityControls.tsx:75-77 | a slider reports its own trait and the slider's first value |
| PersonalityControls.ChangeReportsRowTrait | src/components/PersonalityControls.tsx:60-77 | row `i`'s slider reports the `i`-th trait |
| AIPersonalityCore.Values | src/components/AIPersonalityCore.tsx:55 | the traits are listed in declaration order |
| AIPersonalityCore.InitialTraitsInRange | src/components/AIPersonalityCore.tsx:18-24 | every initial trait lies in `[0, 1]` |
| AIPersonalityCore.TraitColorsAgree | src/components/AIPersonalityCore.tsx:40-45 | `AIPersonalityCore.TraitColor`, the badge's colour copy, agrees with the sliders' for every value |
| AIPersonalityCore.Jitter | src/components/AIPersonalityCore.tsx:31-33 | an activity value lies within 0.1 of its trait |
| AIPersonalityCore.Activity | src/components/AIPersonalityCore.tsx:30-35 | a tick yields one activity value per trait, in order, each within 0.1 of it |
| AIPersonalityCore.BarValue | src/components/AIPersonalityCore.tsx:63-65 | a bar shows its activity value when there is one and it is not 0, and its trait otherwise |
| AIPersonalityCore.FirstRenderShowsTraits | src/components/AIPersonalityCore.tsx:26 | before the first tick every bar shows its trait |
| AIPersonalityCore.BarsNearTraits | src/components/AIPersonalityCore.tsx:63 | after a tick, a bar (`BarHeight`) stays within 2 px of its trait's height and is never flat |
| AIPersonalityCore.ShortName | src/components/AIPersonalityCore.tsx:58 | a bar label is the first four letters of the trait name |
| AIPersonalityCore.ProcessingLine | src/components/AIPersonalityCore.tsx:72-76 | the processing line shows exactly while active, with the current mood |
| AIPersonalityCore.Core.constructor | src/components/AIPersonalityCore.tsx:18-26 | the initial traits and no activity |
| AIPersonalityCore.Core.IntervalTick | src/components/AIPersonalityCore.tsx:28-38 | a tick recomputes the activity from the unchanged traits |
| AIPersonalityCore.Core.Bar | src/components/AIPersonalityCore.tsx:63 | a bar shows its trait until the first tick |
| HolographicAvatar.MoodProp | src/components/HolographicAvatar.tsx:13 | the mood defaults to `neutral` |
| HolographicAvatar.MoodColor | src/components/HolographicAvatar.tsx:31-39 | happy, thinking and excited have their own colours; focused and every other mood get `#00D4FF` |
| HolographicAvatar.MoodGradient | src/components/HolographicAvatar.tsx:41-49 | each named mood has its gradient, every other mood the cosmic default |
| HolographicAvatar.ColorsAgree | src/components/HolographicAvatar.tsx:31-39 | two moods share a colour exactly when they are equal or both in the focused/default group |
| HolographicAvatar.NeutralLikeFocused | src/components/HolographicAvatar.tsx:13-47 | the default neutral avatar has focused's colour but a gradient of its own |
| HolographicAvatar.GradientsDistinct | src/components/HolographicAvatar.tsx:41-49 | two moods share a gradient exactly when they are equal or both unnamed |
| HolographicAvatar.Energy | src/components/HolographicAvatar.tsx:21-25 | the energy lies in `[0.8, 1.0)` while speaking or listening, and in `[0.3, 0.5)` otherwise |
| HolographicAvatar.EnergyBandCovered | src/components/HolographicAvatar.tsx:21-25 | every value of the band is the energy of some draw |
| HolographicAvatar.BorderClass | src/components/HolographicAvatar.tsx:129-135 | listening's classes, else speaking's, else the idle classes |
| HolographicAvatar.ListeningTakesPrecedence | src/components/HolographicAvatar.tsx:129-135 | while listening and speaking, the border is listening's |
| HolographicAvatar.StreamsMatchBorder | src/components/HolographicAvatar.tsx:178 | the data streams, the glowing border and the high energy band go together, each exactly while listening or speaking |
| HolographicAvatar.Avatar.constructor | src/components/HolographicAvatar.tsx:10-16 | the props as given and energy 0.5 |
| HolographicAvatar.Avatar.SetProps | src/components/HolographicAvatar.tsx:18-29 | new props keep the energy until the next tick |
| HolographicAvatar.Avatar.Tick | src/components/HolographicAvatar.tsx:18-26 | a tick draws the energy from the band of the current props and keeps it in `[0.3, 1.0)` |

## Left out

- Strings are sequences of characters. JavaScript's UTF-16 code units, and therefore the length of text with astral characters, are not modelled.
- `toLowerCase` is modelled for ASCII letters only; other letters keep their case. (`trim` and `\s` use the full ECMAScript white-space and line-terminator set.)
- Numbers are exact reals and integers, so floating-point rounding, `NaN` and `Infinity` are not modelled.
- Timer delays, `setTimeout`/`setInterval` scheduling, `Date.now()` and `new Date()` become parameters or method calls: ids, timestamps and elapsed times are parameters.
- The order in which `Math.random()` draws are taken is fixed by parameter position.
- `localStorage` and JSON persistence of the history, and the `Blob`/`URL.createObjectURL` download of an export, are not part of this model; the list and the exported text are.
- Auto-scrolling, `console.log`, the history and analytics `isOpen` toggles and the analytics session-duration string are not modelled.
- The Slider, Button and voice-button components are not part of this model; only the props they are given are.
- The `reactions` field of messages is not modelled; nothing in the modelled components reads it.
- `HolographicAvatar`: the `brainWave` angle, its `% 2π` update and every trigonometric position are floating-point drawing and are not modelled.
- `ConversationAnalytics.Distribution`: the model is a list of entries in insertion order, not a plain JavaScript object. `Object.keys` would list integer-like mood strings first. A mood named like a property every object inherits from `Object.prototype` (`toString`, `constructor`, `__proto__`, ...) would be counted wrongly by the source: `acc[m] || 0` finds the inherited value, and `__proto__` sets the prototype instead of adding a key. The model counts such names like any other. Every mood that reaches the panel is one of the `Messages.MoodName` literals, none of which is integer-like or inherited.
- `ConversationAnalytics.Bump`: the "+1 for key k" holds for the model's entry list; for the inherited property names above it is not what the source's object does.
- `ChatBubble.Render`: the list bullet is kept as the three characters the source file holds (`â€¢`), not as the bullet they were meant to encode.
- `ChatBubble.RenderPlain`: requires one line without `\r`, U+2028 or U+2029, not only without `\n`, because those characters also start a new line for `^`.
- `ConversationHistory.ExportLine`, `AIPersonalityCore.BarValue`, `HolographicAvatar.MoodColor` and `HolographicAvatar.MoodGradient` are case tables; their contracts list the cases, and the lemmas beside them state what the tables mean.
- `AIPersonalityCore.Core.Bar`: only the before-the-first-tick case is in the contract; `BarsNearTraits` states the case after a tick.

## Findings

| source | as written | input that shows it | evidently intended | confidence | as-written member | corrected member |
|---|---|---|---|---|---|---|
| src/components/TypingSimulator.tsx:20-36 | when `text` changes, the first effect runs on the index left over from the old text before the reset effect clears it, so `onComplete` fires while the old text is still displayed and none of the new text has been typed | "abc" fully typed, then the text becomes "ab" | `onComplete` only once the new text is fully shown | medium; not executed | TypingSimulator.SpuriousCompletionScenario | TypingSimulator.Simulator.ChangeText |
