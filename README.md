# CareerMate conversation core in Dafny

CareerMate is a Streamlit chat app. It is a profession-aware assistant that
talks to a chat-completion model. On the command `/brief` it fetches recent
news headlines (the news provider is asked for three) and up to three
upcoming events for the user's profession and city, and asks the model for a
Korean daily briefing. This
project models the orchestration in `streamlit_app.py`:

- `text.dfy` (module `Text`): the Python string operations the app relies
  on. These are `str.strip()` with Python's whitespace set, `lower()`,
  `startswith` and `join`. `EndsWith` is a helper for stating where the
  prompts end; the app itself does not call `endswith`.
- `routing.dfy` (module `Routing`): the `/brief` test on line 167. A
  reference characterisation says it is "the first non-space characters
  spell /brief in any case".
- `payload.dfy` (module `Payload`): the two external-data helpers
  `_query_news` and `_query_events`. This covers their early returns, the
  request parameters they send and the extraction from the decoded JSON
  reply. Any failure degrades the whole result to the empty list, as the
  `except` branches do.
  - The decoded JSON is an abstract `Json` datatype.
  - The HTTP reply is a parameter: `Failed` (network error, non-2xx status,
    undecodable body) or `Body(json)`.
- `prompts.dfy` (module `Prompts`): the base system prompt
  (`build_system_prompt`) and the briefing context text. Each is built by
  an imperative method that appends clauses. Each method is proved equal to
  a function that lays the clauses side by side. Lemmas say which clauses
  appear, in what order, and where each one sits.
- `conversation.dfy` (module `Conversation`): the session transcript
  `st.session_state.messages` as the class `ChatSession`.
  - The constructor writes the system prompt once, on the first run.
  - `Step` handles one rerun with a user input. It appends the user turn,
    then for `/brief` a system turn with the briefing context, then the
    model's answer.
  - `Step` returns the request handed to the chat-completion client.
  - `Visible` is what the display loop shows, that is, every turn but the
    system ones.
  - The ghost history of exchanges explains the transcript. The class
    invariant says the transcript is always the base prompt followed by the
    turns of those exchanges.

Streamlit re-runs the whole script on every interaction and re-reads the
sidebar each time. The model follows that:

- `Step` receives the settings current at that moment: the keys, the
  profession and the location.
- The base system prompt is fixed when the session is created.
- The briefing context is built from fresh fetches made with the settings
  of the step that asks for it. The app caches those fetches, so it can
  instead reuse an earlier result (see "## Left out").

The current date, the two provider replies and the model's streamed answer
are parameters.

## Model

| member | source | states |
|---|---|---|
| Text.IsSpace | streamlit_app.py:167 | definition: the characters Python's `str.isspace()` accepts, which `strip()` removes |
| Text.TrimStart | streamlit_app.py:167 | the left strip keeps a suffix of the input |
| Text.TrimStartSpec | streamlit_app.py:167 | everything dropped by the left strip is whitespace, and what remains does not start with whitespace |
| Text.TrimEnd | streamlit_app.py:167 | the right strip keeps a prefix of the input |
| Text.TrimEndSpec | streamlit_app.py:167 | everything dropped by the right strip is whitespace, and what remains does not end with whitespace |
| Text.Strip | streamlit_app.py:167 | definition: `strip()` as the right strip of the left strip; what each drops and keeps is stated by TrimStartSpec and TrimEndSpec |
| Text.Lower | streamlit_app.py:167 | definition: `lower()` character by character, ASCII letters only (see "## Left out"); StartsWithLowerIff states its effect on the command test |
| Text.Join | streamlit_app.py:174 | definition: `sep.join(xs)`, the items with one separator between neighbours; JoinSnoc states the order |
| Text.StartsWithAppend | streamlit_app.py:172-181 | a concatenation starts with its first part |
| Text.StartsWithPrefix | streamlit_app.py:172-181 | a text starting with a + b starts with a |
| Text.JoinSnoc | streamlit_app.py:174 | joining one more item appends exactly one separator and that item, so the items appear in input order |
| Routing.IsBriefing | streamlit_app.py:167 | definition: the input, stripped and lower-cased, starts with "/brief"; BriefingIffCommandAfterSpaces gives an independent description |
| Routing.StartsWithLowerIff | streamlit_app.py:167 | the lower-cased text starts with "/brief" iff its first six characters spell the command in any case |
| Routing.TrimEndKeepsCommand | streamlit_app.py:167 | stripping trailing whitespace never changes whether the text spells the command |
| Routing.BriefingIffCommandAfterSpaces | streamlit_app.py:167 | an input is a briefing request iff, after its leading whitespace, it spells "/brief" in any case |
| Routing.RoutesFrom | streamlit_app.py:167 | an input whose first non-space character is at k is a briefing request iff the text from k spells the command |
| Routing.UpperCaseBriefing | streamlit_app.py:167 | "  /BRIEF now" is a briefing request: surrounding spaces, upper case and trailing text are accepted |
| Routing.CommandIsBriefing | streamlit_app.py:167 | the bare command "/brief" is a briefing request |
| Routing.GreetingIsPlainChat | streamlit_app.py:167 | "hello" is plain chat |
| Routing.CommandMidTextIsPlainChat | streamlit_app.py:167 | the command counts only at the start of the input |
| Payload.Display | streamlit_app.py:63 | definition: the text a JSON string or scalar shows in an f-string; arrays and objects count as malformed (see "## Left out") |
| Payload.Field | streamlit_app.py:63 | a subscript succeeds exactly on an object holding the key, and yields that key's value |
| Payload.MapAll | streamlit_app.py:62-65 | mapping succeeds iff every element maps, with one result per element in order, each the element's own image |
| Payload.NewsRequestFor | streamlit_app.py:46-57 | no request iff the news key is empty; otherwise the query is the profession, or "career" when the profession is empty, the language is "ko,en", the order is "publishedAt", the page size is 3 and the key is the news key |
| Payload.Articles | streamlit_app.py:64 | definition: what `data.get("articles", [])` iterates over, with None where the expression or the first subscript of an element raises |
| Payload.NewsOf | streamlit_app.py:63 | an article becomes an item iff it is an object with a displayable title, a url and a source object with a displayable name, and the item carries exactly those values |
| Payload.ExtractNews | streamlit_app.py:62-65 | definition: the comprehension over the articles, None when any article raises; NewsAllOrNothing states its outcome |
| Payload.OneArticle | streamlit_app.py:46-65 | with a news key, a reply listing one complete article gives exactly that article's item |
| Payload.FetchNews | streamlit_app.py:46-68 | no key or a failed reply gives no news; any news returned is exactly the extraction of the reply body |
| Payload.NewsAllOrNothing | streamlit_app.py:62-68 | every article of a well-formed body becomes its own item in order, and a single malformed article empties the result |
| Payload.EventsRequestFor | streamlit_app.py:71-84 | no request iff the events key or the location is empty; otherwise the query is the profession, or "networking" when the profession is empty, the address is the location, the token is the events key and the venue is expanded |
| Payload.Take | streamlit_app.py:90 | the slice [:n] is the prefix of length min(len, n) |
| Payload.FirstEvents | streamlit_app.py:90 | at most three events are looked at |
| Payload.StartDate | streamlit_app.py:95 | a start.local string gives its first ten characters: a prefix of length ten when it is at least that long, the whole string otherwise; any other value is malformed |
| Payload.VenueName | streamlit_app.py:96 | a missing venue or a venue without a name gives "", a venue object with a name gives that name's text, and a venue that is not an object raises |
| Payload.EventOf | streamlit_app.py:91-98 | an event becomes an item iff it is an object with a displayable name.text, a url, a start.local string and a venue that does not raise, and the item carries exactly those values |
| Payload.ExtractEventsSpec | streamlit_app.py:89-99 | definition: the loop's outcome as a function, None when any of the first three events raises; EventsFirstThree states it |
| Payload.ExtractEvents | streamlit_app.py:89-99 | the loop appends one item per listed event, in order, and raises at the first malformed one |
| Payload.FetchEvents | streamlit_app.py:71-102 | no key, no location or a failed reply gives no events; at most three are returned, exactly the extraction of the body |
| Payload.QueryEvents | streamlit_app.py:71-102 | the request sent and the events returned are those of the reference functions |
| Payload.EventsFirstThree | streamlit_app.py:89-102 | the events of a well-formed body are its first three in order, and one malformed event among them empties the result |
| Prompts.BuildSystemPrompt | streamlit_app.py:114-129 | the appended text is the identity, profession, location and guidance clauses side by side, each optional clause present only when given |
| Prompts.PromptEnds | streamlit_app.py:116-128 | the prompt opens with the identity sentence including the date and closes with the guidance |
| Prompts.PromptLayout | streamlit_app.py:116-128 | the profession sentence quoting the profession sits right after the identity, then the location sentence, then the guidance fills the rest; an absent clause takes no room |
| Prompts.ProfessionAfterIdentity | streamlit_app.py:121-122 | with a profession, the text after the identity sentence starts with the profession sentence |
| Prompts.LocationAfterIdentity | streamlit_app.py:121-124 | without a profession, the text after the identity sentence starts with the location sentence and not with a profession sentence |
| Prompts.LeadsDiffer | streamlit_app.py:122-124 | the profession and location sentences cannot both start the same text |
| Prompts.NewsLine | streamlit_app.py:174 | definition: the line `- title (source)` of one item |
| Prompts.EventLine | streamlit_app.py:177 | definition: the line `- start name @ venue` of one event |
| Prompts.NewsLines | streamlit_app.py:174 | one line per news item, in order, each formatted from that item |
| Prompts.EventLines | streamlit_app.py:176-178 | one line per event, in order, each formatted from that event |
| Prompts.BuildBriefingContext | streamlit_app.py:172-181 | the appended text is the header, the news section, the events section, the no-data marker and the instruction side by side, each section present only in its case |
| Prompts.BriefingEnds | streamlit_app.py:172-181 | the context opens with the header and closes with the instruction |
| Prompts.SectionAfterHeader | streamlit_app.py:172-180 | right after the header comes the news heading iff there is news; without news, the events heading iff there are events; with neither, the no-data marker |
| Prompts.SectionAfterNews | streamlit_app.py:175-180 | right after the news section comes the events heading iff there are events, and the no-data marker when there is neither |
| Prompts.NoDataIffEmpty | streamlit_app.py:173-181 | after the events section comes the no-data marker iff there is neither news nor events; with either, the instruction follows directly |
| Prompts.InstructionIsNoMarker | streamlit_app.py:179-181 | the closing instruction does not start with the no-data marker |
| Prompts.OneHeadlineContext | streamlit_app.py:172-181 | with one headline and no events the context is exactly the header, the news heading, that headline's line and the instruction |
| Prompts.HeadingsDiffer | streamlit_app.py:174-180 | the news heading, events heading and no-data marker cannot start the same text |
| Prompts.InstructionIsNoHeading | streamlit_app.py:179-181 | the closing instruction does not start with the events heading |
| Prompts.NewsSectionSnoc | streamlit_app.py:174 | one more news item adds exactly its own line at the end of the news section |
| Prompts.EventsSectionSnoc | streamlit_app.py:176-178 | one more event adds exactly its own line at the end of the events section |
| Conversation.Visible | streamlit_app.py:150-154 | the display loop shows at most the transcript's turns; VisibleDropsSystem, VisibleKeepsConversation and VisibleAppend state which and in what order |
| Conversation.VisibleDropsSystem | streamlit_app.py:150-154 | the page shows no system turn, and only turns of the transcript |
| Conversation.VisibleKeepsConversation | streamlit_app.py:150-154 | every non-system turn of the transcript is shown |
| Conversation.VisibleAppend | streamlit_app.py:150-154 | what is shown of a + b is what is shown of a followed by what is shown of b, so order is kept |
| Conversation.Dialogue | streamlit_app.py:159-200 | the visible conversation has two turns per handled input |
| Conversation.RecordedSnoc | streamlit_app.py:159-200 | appending an exchange the app can produce keeps every recorded exchange one the app can produce |
| Conversation.VisibleTurns | streamlit_app.py:150-200 | the page never shows a briefing context: what it shows of the handled inputs is exactly inputs and answers alternating |
| Conversation.CountAppend | streamlit_app.py:159-200 | turn counts add up over concatenation |
| Conversation.SingleTurn | streamlit_app.py:150-154 | a single turn is shown iff it is not a system turn |
| Conversation.BlockShape | streamlit_app.py:159-200 | one input adds one user turn and one assistant turn, and a system turn only for a briefing; the page shows the first and the last |
| Conversation.TurnCounts | streamlit_app.py:159-200 | across the handled inputs every input is answered exactly once, and the number of system turns is the number of briefings |
| Conversation.Augmentation | streamlit_app.py:167-184 | a briefing context is added exactly when the input is a /brief command |
| Conversation.FetchNewsAndEvents | streamlit_app.py:106-108 | both fetches run for the current profession and location |
| Conversation.Augment | streamlit_app.py:167-181 | for /brief it fetches and writes the briefing context of the reference function, and otherwise nothing |
| Conversation.ChatSession.constructor | streamlit_app.py:144-147 | a new session holds only the system prompt built from the date, profession and location, and the page shows nothing |
| Conversation.ChatSession.Step | streamlit_app.py:156-200 | with no model key (the script stops at lines 35-37) or an empty input nothing changes; otherwise the user turn, the briefing context exactly for /brief and the answer are appended, the model gets the transcript up to the context with streaming on, the page gains exactly the input and the answer, and the transcript invariant holds |
| Conversation.ChatSession.Record | streamlit_app.py:162-200 | the turns of one handled input are appended, the page gains the input and the answer, and the transcript invariant holds |
| Conversation.AppendExchange | streamlit_app.py:159-200 | appending an exchange's turns extends the history by it, and the page gains exactly its input and answer |
| Conversation.TranscriptShape | streamlit_app.py:144-200 | every transcript the app builds starts with the base prompt, has as many answers as inputs, and shows exactly the alternation of inputs and answers |
| Conversation.FirstBriefingShape | streamlit_app.py:145-200 | a briefing handled on a fresh transcript leaves exactly the base prompt, the input, the context and the answer, and the model was sent the first three |
| Conversation.OneHeadlineBriefing | streamlit_app.py:167-181 | a /brief with a news key, no events key and a reply carrying one complete article adds a context listing exactly that headline and no events |
| Conversation.BriefingScenario | streamlit_app.py:144-200 | a fresh session given "/brief", one complete article and no events key ends with four turns: the base prompt, the command, a context listing exactly that headline, and the answer; the model is sent the first three and the page shows only the command and the answer |

## Left out

- Page layout is not modelled: title, markdown, chat bubbles, spinners, the footer and the `st.warning` messages on a failed fetch.
- Sidebar input and environment variables are not modelled. The keys, profession and location are the `Settings` parameter of each step.
- `st.cache_data` on `fetch_news_and_events` is not modelled, and every briefing fetches afresh. The app's cache is keyed by profession and location only, so it returns an earlier result for the same pair even after a key was added or removed, and it also keeps the empty result of a failed fetch. The model does not capture this reuse.
- Networking is not modelled: HTTP, timeouts, `raise_for_status` and JSON decoding. Each reply is a parameter that either failed or carries the decoded JSON.
- The clock is not modelled. The date in the system prompt is a parameter. The Eventbrite date-range parameters are not part of `EventsRequest`, since they depend only on the clock.
- The chat-completion call and streaming are not modelled. The reply is an opaque string handed to `Step`.
- Conversation.ChatSession.Step: always appends an answer. If the model call raises, the source leaves the user turn (and any briefing context) without an answer, and this is not modelled.
- Conversation.ChatSession.Step: appends the turns of one input in a single update, while the source appends them one at a time. The only read of the transcript between those appends is the chat request, which the model captures as the transcript up to the context (`sent`); the final transcript is the same.
- Text.Lower: only ASCII letters are lower-cased. This does not change the `/brief` decision. The only non-ASCII characters whose Python lower case contains ASCII letters are U+0130, which lowers to "i" followed by a combining dot, and the Kelvin sign, which lowers to "k". Neither can complete the prefix "/brief".
- Payload.NewsOf: a title or source name that is a JSON array or object is treated as malformed. Python would format it with `repr()`, and this is not modelled.
- Payload.EventOf: the same treatment applies to an event name, start date or venue name that is an array or object.
- Payload.StartDate: a `start.local` that is a JSON array would be sliced as a list. This is treated as malformed.
- The code's behaviour is kept for a venue that is present but not an object (`null`, say) makes `.get` raise, which empties the whole events list; only a missing venue or a missing name defaults to "" (`Payload.VenueName`).
- The app does not cut the news list to three; only the request asks the provider for three, so `Payload.FetchNews` returns every article of the reply.
