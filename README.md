# Travel concierge chat: a Dafny model of the turn handler and the keyword classifier

The travel concierge is a single-page chat window. It answers travel questions by matching keywords
in the user's message against a fixed, ordered list of topics and returning a canned reply with
feature tags. This project models its core, the file `src/App.js`:

- **context extraction** (`TripContext`, `context.dfy`). The message is lower-cased, then:
  - the first gazetteer name (in list order) that occurs in it as a substring becomes the trip
    destination;
  - budget vocabulary ("budget", "$", "cheap", "expensive") sets the budget field to "mentioned";
  - every other field of the trip context is kept as it was.
- **the response classifier** (`Classifier` and `ClassifierProps`, `classifier.dfy`). An
  `if / else if` chain picks one of eight categories: weather, culture, budget, language,
  planning, destination overview, help, or the general fallback. The category fixes:
  - the reply text, with the destination found in this same message spliced into the keyword
    templates;
  - the feature tags.

  The chain is also stated as a rule table, and the two are proved to agree on every message.
- **the turn handler** (`Chat`, `chat.dfy`). The class `ChatSession` holds the transcript, the
  text box, the pending flag and the trip context. Sending:
  - ignores blank input (JavaScript `trim` semantics);
  - otherwise appends the user's message, then exactly one assistant message (the reply, or the
    error message tagged `error` when producing the reply throws);
  - clears the text box and the pending flag.

  The transcript invariant (it opens with the greeting; ids count up from 1; user and assistant
  messages alternate; only assistant messages carry tags) is kept by every send. From it follows
  that there is one assistant message per user message besides the greeting.
- **worked examples** (`Scenarios`, `scenarios.dfy`). Concrete messages and the replies and
  context updates they get: priority between keyword lists, a destination overview, the help
  summary, the fallback, and the two budget vocabularies that disagree.

Supporting modules:
- `Wrappers` (`wrappers.dfy`): `Option`.
- `Text` (`text.dfy`):
  - ASCII case mapping;
  - `includes` as `Contains`, with its characterisation by an occurrence index;
  - `String.prototype.trim` over the ECMAScript WhiteSpace and LineTerminator characters;
  - capitalisation of the first letter.

Two points about the code that the model keeps:
- The help reply lists six capabilities (src/App.js:86-91).
- The overview branch and the ` for X` / ` in X` fragments of the keyword replies use the
  destination found in the current message, not the one stored from earlier turns
  (src/App.js:60, 79).

## Model

| member | source | states |
|---|---|---|
| Text.ToLower | src/App.js:36 | the lower-cased message has the same length as the message, and each character is the character mapped to lower case |
| Text.ToLowerConcat | src/App.js:36 | lower-casing a concatenation lower-cases each part |
| Text.ContainsIff | src/App.js:43 | `includes` holds exactly when the word occurs at some index of the message |
| Text.ContainsInConcat | src/App.js:43 | a message containing a word still contains it with any text added before and after |
| Text.ContainedCharsOccur | src/App.js:59 | each character of a contained word occurs in the message |
| Text.NotContainedAcrossSplit | src/App.js:59 | a word is not contained in `a + b` when `a` lacks its first character and `b` its second |
| Text.ContainsAny | src/App.js:59 | a chain of `includes` tests joined by `\|\|` holds exactly when some word of the list is contained |
| Text.NoneContainedIfCharsMissing | src/App.js:59-99 | no word of a list is contained when each word has a character the message lacks |
| Text.NoneContainedOutside | src/App.js:59-99 | the same, when the message's characters are bounded by an alphabet |
| Text.TrimStart | src/App.js:105 | the result is a suffix of the input, everything dropped is whitespace, and the result does not start with whitespace |
| Text.TrimEnd | src/App.js:105 | the result is a prefix of the input, everything dropped is whitespace, and the result does not end with whitespace |
| Text.TrimEmptyIffBlank | src/App.js:105 | trimming gives the empty string exactly when every character is whitespace |
| Text.TrimmedIsEmpty | src/App.js:105 | the blank-input test answers true exactly when the input is all whitespace |
| Text.Capitalize | src/App.js:80 | the first character is upper-cased, the rest is unchanged, and the length is kept |
| TripContext.FirstContained | src/App.js:43 | `find` gives a name of the list that the message contains, or nothing exactly when it contains none |
| TripContext.FirstContainedIsEarliest | src/App.js:43 | the first name in list order that the message contains is the one found, whatever later names also occur |
| TripContext.FirstContainedHasEarliestIndex | src/App.js:43 | the name found sits at an index before which the message contains no name |
| TripContext.EarliestIndex | src/App.js:43 | gives that index |
| TripContext.ExtractContext | src/App.js:39-51 | the copy-then-overwrite extraction gives the found destination and the merged context |
| TripContext.DestinationsNonEmpty | src/App.js:42 | every gazetteer name is non-empty, so a found name is never the unset value |
| TripContext.MergeIsNonDestructive | src/App.js:39-51 | dates, preferences and the current trip are kept; the destination changes only to a found name; the budget is "mentioned" exactly when this message mentions a budget or it already was |
| TripContext.MergeKeepsDestinationSet | src/App.js:44-46 | a destination once set is never cleared by a later message |
| TripContext.MergeStoresGazetteerNames | src/App.js:42-46 | the stored destination is always empty or a gazetteer name |
| TripContext.ParisianMatchesParis | src/App.js:43 | matching is substring containment: "parisian" yields paris |
| TripContext.ParisBeatsFrance | src/App.js:42-43 | with two names in the message, the earlier gazetteer entry wins |
| TripContext.TokyoBeatsJapan | src/App.js:42-43 | "japan, maybe tokyo" yields tokyo, which the gazetteer lists first |
| TripContext.DollarAndExpensiveMarkBudget | src/App.js:49-51 | "$" and "expensive" mark the budget |
| TripContext.MoneyAndCostDoNotMarkBudget | src/App.js:49-51 | "money" and "cost" do not mark the budget |
| ClassifierProps.ClassifyIsFirstMatch | src/App.js:59-99 | the chain picks a category exactly when its test holds and no test of higher priority does |
| ClassifierProps.FirstRuleIsEarliest | src/App.js:59-99 | the rule table selects the category of its earliest rule that holds |
| ClassifierProps.FirstRuleFallsBack | src/App.js:96-99 | when no rule holds, the table gives the fallback |
| ClassifierProps.ClassifyAgreesWithRules | src/App.js:59-99 | the `if / else if` chain and the rule table agree on every message |
| ClassifierProps.WeatherWordsWin | src/App.js:59-62 | a message with a weather word always gets the weather tags, whatever else it mentions |
| ClassifierProps.OverviewExactly | src/App.js:79-82 | the overview is chosen exactly when no keyword test holds and a destination was found in this message |
| ClassifierProps.OverviewOpening | src/App.js:80 | the overview opens with the destination, first letter upper-cased, then " is an amazing choice!" |
| ClassifierProps.OverviewReply | src/App.js:79-82 | an overview reply is the overview text of the destination found, with the overview tags |
| ClassifierProps.GeneralExactly | src/App.js:96-99 | the fallback is chosen exactly when no keyword test holds, no destination is found and no help phrase occurs |
| ClassifierProps.MentionIsSpliced | src/App.js:60 | a keyword template with a destination is the template without one, with " for "/" in " and the name inserted right after the lead |
| ClassifierProps.KeywordReply | src/App.js:59-78 | a keyword reply is its template filled with the destination found in this message |
| ClassifierProps.BulletsNameEveryCapability | src/App.js:86-91 | the bullet list names every capability |
| ClassifierProps.HelpNamesEveryCapability | src/App.js:83-95 | the help reply names every capability |
| Chat.TurnPreservesWellFormed | src/App.js:104-139 | a send keeps the transcript well formed |
| Chat.CountFromAppend | src/App.js:114 | message counts add up over concatenation |
| Chat.CountFromPair | src/App.js:114-136 | the counts of a two-message append |
| Chat.OneReplyPerTurn | src/App.js:104-139 | an accepted send adds exactly one user and one assistant message; a blank one adds none |
| Chat.RepliesMatchRequests | src/App.js:104-139 | in a well-formed transcript there is exactly one assistant message per user message, besides the greeting |
| Chat.ChatSession.constructor | src/App.js:5-22 | the session starts with the greeting alone, an empty text box and the initial trip context |
| Chat.ChatSession.SetInputText | src/App.js:295 | the text box takes the typed text, and the session stays valid |
| Chat.ChatSession.GenerateAIResponse | src/App.js:32-102 | the reply is the classifier's reply to the lower-cased message, and the context becomes the merge of the old context with what the message mentions |
| Chat.ChatSession.SendMessage | src/App.js:104-139 | blank input changes nothing; otherwise the user's message and one assistant message (the reply, or the error message) are appended, the text box is cleared, the context is merged unless the reply threw, and the session stays valid |
| Chat.ChatSession.Accept | src/App.js:107-139 | the accepted part of a send: the two messages appended, with ids one and two past the transcript length, the text box cleared and the pending flag cleared again |
| Scenarios.WeatherMentioned | src/App.js:59 | any message containing "weather" is classified as weather |
| Scenarios.MarkerMentioned | src/App.js:49 | any message containing a budget marker marks the budget |
| Scenarios.WeatherBeatsCheap | src/App.js:49-62 | "what's the weather and is it cheap?" gets the weather reply, and the context records the budget mention |
| Scenarios.GoingLacksRain | src/App.js:59 | "i'm going to tokyo in march" does not contain "rain", though it has all four letters |
| Scenarios.TokyoIsOverview | src/App.js:42-82 | "i'm going to tokyo in march" matches no keyword list and finds tokyo, so it gets the overview |
| Scenarios.TokyoReply | src/App.js:79-81 | its reply carries the overview tags and opens with "Tokyo is an amazing choice!" |
| Scenarios.LowerGoingToTokyo | src/App.js:36 | the example "I'm going to Tokyo in March" lower-cases to "i'm going to tokyo in march" |
| Scenarios.GoingToTokyo | src/App.js:36-81 | "I'm going to Tokyo in March" as typed (the example of line 312) is lower-cased and then gets the overview of Tokyo |
| Scenarios.HelpClassified | src/App.js:59-95 | a message spelt only with the letters of "help" and containing "help" misses every earlier test and gets the help branch |
| Scenarios.HelpRequest | src/App.js:83-95 | "help" gets the capability summary |
| Scenarios.EmptyMessageIsGeneral | src/App.js:96-99 | the empty message matches nothing and gets the fallback |
| Scenarios.DollarIsGeneral | src/App.js:59-99 | "is $200 enough?" matches no list of the chain and gets the fallback |
| Scenarios.DollarIsNotABudgetQuestion | src/App.js:49-70 | "$" marks the budget in the context but does not select the budget reply |
| Scenarios.MoneyIsABudgetQuestion | src/App.js:49-70 | "money" selects the budget reply but does not mark the budget |

## Left out

- Rendering (JSX, styling, icons, the sidebar), `scrollToBottom` and its `useEffect`: presentation with no logic to model.
- The simulated delay (`setTimeout` of 1 to 3 seconds, with `Math.random`): time and randomness. A send is modelled as one atomic step.
- Timestamps (`new Date()`): a clock. `Message` has no timestamp field.
- React's state-setter semantics: asynchronous batching, `prev => …` updaters and stale closures. The model applies each update at once, in source order.
- The send button and text box being disabled while a reply is pending (lines 300 and 305), and the Enter key handler: UI wiring. The model instead requires a valid session, which has no reply pending, before each send.
- `Text.ToLower`: maps ASCII letters only. JavaScript's `toLowerCase` also maps other Unicode letters (for example U+0130 and U+212A). The gazetteer and keywords are ASCII, so only messages with such letters can be matched differently.
- Chat.ChatSession.SendMessage: the exception of `generateAIResponse` is the parameter `failure`, because nothing in the core can throw. It is taken to happen before the context is written, so on failure the context is left unchanged.
- The context fields `dates`, `preferences` and `currentTrip`: kept, but never set, as in the source.
- `api/index.py` is not part of this model. It is a separate service that the chat window does not call.
