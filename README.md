# Family activity finder: the recommendation service

This project models the core of the family activity finder's back end, the
module `server/services/claudeService.js`, and proves properties of it.
The module has four parts:

- It builds a prompt from five search criteria: city, kids' ages,
  availability, maximum distance and free-form preferences.
- It talks to a language model in a loop of at most five requests. Each
  time the model's reply holds tool-use blocks, the loop answers every one
  of them with canned search results. Only the block's type is tested
  (`claudeService.js:251`): a tool use is answered as a `web_search` call
  whatever its name, so the model's `Block.ToolUse` carries a name that
  nothing reads.
- It parses the model's final free text into activity records. Each record
  has an emoji, a title, a description, a location and a distance.
- It returns at most five of those records.

Strings are sequences of UTF-16 code units (`Text.Str`), as JavaScript
stores them. The pin glyph U+1F4CD is therefore a surrogate pair, and the
"longer than 20" test counts code units. `Text` models the `String.prototype`
methods the service uses: `trim`, `split`, `includes`, `startsWith` and
`replace`. Each one is a function with lemmas. The location pattern that
`match` applies is `ActivityParser.PinRegexMatch`, and `Array.prototype.slice`
is `Recommendations.Take`.

Modules:

- `Text`: strings and the built-in string methods.
- `ActivityParser`: `parseActivities`, in imperative form.
  - `ParseActivities` is a `for` loop over the lines. It keeps one mutable
    "current record" object of class `ActivityRecord`.
  - The method is proved against `Parse`, a fold of `Step` over the trimmed
    lines. In that fold a record is identified by the index of the title
    line that opened it.
  - The method's contract gives the value of every returned object. It also
    states which positions hold the same object.
  - That aliasing is real in the source. A line that contains `**` but
    splits into fewer than three parts pushes the current record again
    without opening a new one. Later lines then update one object that sits
    at two positions.
- `ParserReference`: an independent definition of the parser's result.
  - Every trimmed line is classified on its own, as a title, a lone marker,
    a description, a place or other.
  - The records are then read off block by block. Each title line's record
    carries its block's descriptions, joined with single spaces, and the
    last place line of the block. It appears once, plus once more per lone
    marker in the block.
  - `ParseMatchesReference` proves the single pass equal to this definition.
- `WebSearch`: `performWebSearch`. A case-sensitive substring test chooses
  one of three canned listings, and a header quotes the query. Reading a
  result back gives back the query and the listing.
- `Prompt`: `buildPrompt`, the template literal as fixed fragments
  interleaved with the five criteria. Each criterion appears twice.
- `Recommendations`: `getActivityRecommendations`.
  - The model endpoint is a `Model` object. Its `respond` field is an
    arbitrary function from the messages sent to the reply, and its `sent`
    field logs every request.
  - `Handle` is one iteration of the loop on values: a transport error or
    a reply without tool uses stops the conversation with an outcome, and
    a reply with tool uses continues it with one more tool round.
  - `Converse` gives, as values, the requests the loop sends and how the
    conversation ends. It is written for any `Handling`: how a reply's
    tool uses are answered and how a final reply is read. The service's
    own handling is `Service`: `ToolResults` answers, and `Recommendation`
    reads the first five parsed records.
  - The methods `GetActivityRecommendations` and `Conversation` are proved
    to send exactly those requests and to end that way. `Turn` is one
    iteration, proved to do what `Handle` says.

## Model

| member | source | states |
|---|---|---|
| Text.Trim | server/services/claudeService.js:52 | `trim` never lengthens a line; `TrimSplits` gives its exact shape |
| Text.SplitOn | server/services/claudeService.js:47 | `split` always gives at least one part, even for the empty text; `SplitOnJoin` shows nothing is lost |
| Text.ContainsOccurs | server/services/claudeService.js:55 | `includes` is true exactly when the pattern occurs at some index of the text |
| Text.StartsWithRest | server/services/claudeService.js:86 | `startsWith` is true exactly when the text is the prefix followed by some rest |
| Text.TrimSplits | server/services/claudeService.js:52 | `trim` removes white space only at the ends: the line is leading white space, then the trimmed text, then trailing white space, and the trimmed text neither starts nor ends with white space |
| Text.TrimIgnoresPadding | server/services/claudeService.js:64-65 | trimming a part ignores any white space around it |
| Text.SplitOnJoin | server/services/claudeService.js:47 | `split('\n')` loses nothing: joining the lines with a line feed gives back the response text |
| Text.SplitOnPartsFree | server/services/claudeService.js:62 | no part of `split('**')` contains `**` |
| Text.SplitOnLeftmost | server/services/claudeService.js:62 | every cut is at the leftmost occurrence of the separator, so with `SplitOnJoin` and `SplitOnPartsFree` the parts are fixed even for a self-overlapping separator: `a***b` on `**` gives `a` and `*b` |
| Text.SplitOnContains | server/services/claudeService.js:62-63 | a split has at least two parts exactly when the separator occurs |
| Text.ReplaceFirst | server/services/claudeService.js:93 | `replace` with a string pattern leaves a string without the pattern unchanged, and replaces a leading occurrence |
| ActivityParser.ActivityRecord.constructor | server/services/claudeService.js:67-73 | a new record holds the given emoji and title, with empty description, location and distance |
| ActivityParser.PinIsRoundPushpin | server/services/claudeService.js:77 | the pin glyph is the UTF-16 encoding of U+1F4CD |
| ActivityParser.PinRegexMatch | server/services/claudeService.js:87 | the location pattern matches only a line that contains the bullet |
| ActivityParser.LazyGroupEnd | server/services/claudeService.js:87 | the lazy venue group ends where the white space after it reaches the bullet, and it crosses no line terminator |
| ActivityParser.PinLineWithBullet | server/services/claudeService.js:86-90 | on a one-line pin line, the location is the trimmed text between the glyph and the first bullet, and the distance is the trimmed rest |
| ActivityParser.PinLineWithoutBullet | server/services/claudeService.js:91-101 | a pin line without a bullet gives the trimmed rest of the line as the location, and exactly "Distance not specified" as the distance |
| ActivityParser.PinFields | server/services/claudeService.js:87-101 | a pin line without a bullet gives the trimmed line with its first pin removed as the location, and "Distance not specified" as the distance |
| ActivityParser.Parse | server/services/claudeService.js:45-112 | as many records as the pass pushes, the final push of the current record included |
| ActivityParser.Titled | server/services/claudeService.js:55-75 | the title branch keeps the state consistent: every record it pushes or makes current has a value and was opened by this line or an earlier one |
| ActivityParser.Described | server/services/claudeService.js:77-83 | the description branch changes only the current record's description: no record is pushed or opened, every other record keeps its value, and the current record keeps its other fields |
| ActivityParser.Located | server/services/claudeService.js:86-102 | the location branch changes only the current record's location and distance: no record is pushed or opened, every other record keeps its value, and the current record keeps its other fields |
| ActivityParser.Pushed | server/services/claudeService.js:57-59 | pushing appends the current record, if any, and changes nothing else |
| ActivityParser.Step | server/services/claudeService.js:51-104 | one iteration keeps the state consistent: every pushed record and the current record has a value and was opened by this line or an earlier one |
| ActivityParser.OpenRecord | server/services/claudeService.js:55-75 | on objects, the title branch mirrors `Titled`, and a new record is a fresh object |
| ActivityParser.AppendDescription | server/services/claudeService.js:79-83 | on objects, the description update mirrors `Described` |
| ActivityParser.SetLocation | server/services/claudeService.js:86-102 | on objects, the location update mirrors `Located` |
| ActivityParser.ParseLine | server/services/claudeService.js:52-103 | one iteration on objects mirrors `Step` |
| ActivityParser.ParseActivities | server/services/claudeService.js:45-112 | the returned objects hold exactly the records of `Parse`, in order, and two positions hold the same object exactly when the same title line opened it |
| ActivityParser.MirroredResult | server/services/claudeService.js:106-111 | after the final push, the objects show the state's values in order, with aliasing by origin |
| ParserReference.ClassifyBranches | server/services/claudeService.js:55-86 | a trimmed line is a title exactly when `**` splits it into 3 or more parts, and a lone marker when into 2; it is a description exactly when it is longer than 20 units with no `**` and no leading pin, and a place exactly when it has a leading pin and no `**` |
| ParserReference.Classified | server/services/claudeService.js:47-52 | one classification per line, of that line trimmed |
| ParserReference.LastTitle | server/services/claudeService.js:57-74 | the index of the last title line, with no title line after it |
| ParserReference.Reference | server/services/claudeService.js:45-112 | the reference is empty exactly when no line is a title line, and every record's title starts with `<strong>` |
| ParserReference.TracksFlushed | server/services/claudeService.js:106-111 | after the final push, the records of a state that tracks the lines are exactly the reference |
| ParserReference.ParseMatchesReference | server/services/claudeService.js:45-112 | the single pass returns exactly the records of the block-by-block reference |
| ParserReference.ReferenceEmpty | server/services/claudeService.js:45-112 | the reference is empty exactly when no line is a title line |
| ParserReference.ReferenceTitles | server/services/claudeService.js:62-73 | without lone markers, there is one record per title line, in order, with that line's emoji and its title in strong tags |
| ParserReference.ParseEmpty | server/services/claudeService.js:106-111 | `parseActivities` returns no record exactly when no trimmed line is a title line |
| ParserReference.NoMarkerNoRecords | server/services/claudeService.js:55 | a text none of whose trimmed lines contains `**` gives no records |
| ParserReference.ParseTitles | server/services/claudeService.js:62-73 | without lone markers, the records match the title lines one for one: emoji, and title wrapped in `<strong>` |
| WebSearch.ChooseListingCases | server/services/claudeService.js:121-192 | the museum listing exactly when the query contains both "San Francisco" and "museum"; otherwise the outdoor listing exactly when it contains "Golden Gate Park" or "outdoor"; otherwise the general one |
| WebSearch.Header | server/services/claudeService.js:122 | the header is the query quoted between fixed opening and closing text |
| WebSearch.PerformWebSearch | server/services/claudeService.js:115-195 | every search result starts with the header that quotes the query |
| WebSearch.ListingOfResult | server/services/claudeService.js:121-194 | a search result ends with the chosen listing and with no other |
| WebSearch.ReadSearchResult | server/services/claudeService.js:115-195 | the query and the chosen listing can be read back from every search result |
| WebSearch.CaseSensitive | server/services/claudeService.js:121 | the test is case-sensitive: "SAN FRANCISCO MUSEUM" gets the general listing |
| Prompt.BuildPrompt | server/services/claudeService.js:8-43 | the prompt is as long as its fixed fragments plus each criterion twice, and begins with the opening paragraph and the "Family Details" heading, then the location line and the ages line |
| Prompt.InterleaveLength | server/services/claudeService.js:8-43 | interpolation adds exactly the lengths of the values |
| Prompt.InterleaveSlot | server/services/claudeService.js:8-43 | each interpolated value stands at its offset: after the fragments and values before it |
| Prompt.PromptSlots | server/services/claudeService.js:12-25 | each of the five criteria appears in the prompt twice, once in the family details and once in the search strategy, at its offset |
| Recommendations.ErrorMessage | server/services/claudeService.js:308-313 | a transport error is rethrown with its own message; the iteration error's message names the limit of five |
| Recommendations.Model.constructor | server/services/claudeService.js:4-6 | a new client has sent nothing |
| Recommendations.Model.Create | server/services/claudeService.js:222-242 | each request is logged and answered by the model's response function |
| Recommendations.ToolUses | server/services/claudeService.js:250-251 | only tool-use blocks are collected |
| Recommendations.ToolResults | server/services/claudeService.js:250-264 | one tool result at most per block, and every result is a tool-result block; `ToolResultsAnswerUses` pairs them with the uses |
| Recommendations.FinalText | server/services/claudeService.js:283-289 | a reply with no text blocks gives the empty text |
| Recommendations.Recommendation | server/services/claudeService.js:283-304 | at most five records: all those parsed from the reply's text when there are no more than five, otherwise exactly five |
| Recommendations.Round | server/services/claudeService.js:266-280 | a tool round appends exactly two messages to the conversation: the reply as an assistant message, then the tool results as a user message |
| Recommendations.Take | server/services/claudeService.js:304 | `slice(0, 5)`: at most five records, all of them when there are no more than five, each in its place |
| Recommendations.ToolResultsAnswerUses | server/services/claudeService.js:250-264 | the tool results answer the tool uses one for one, in block order, each with the search for its query under its id |
| Recommendations.NeedsToolUseIffUses | server/services/claudeService.js:247-264 | the flag is set exactly when the reply has a tool-use block |
| Recommendations.Handle | server/services/claudeService.js:219-305 | one iteration goes on exactly when the reply is not an error and holds a tool use, and then extends the conversation by two messages keeping the rest; it never stops with the max-iterations error |
| Recommendations.Converse | server/services/claudeService.js:215-308 | at least one and at most five requests are sent, and the first is the initial messages |
| Recommendations.ConverseRounds | server/services/claudeService.js:266-280 | every request after the first extends the one before with a tool round answering its reply, which asked for the tool |
| Recommendations.ConverseGrowth | server/services/claudeService.js:266-280 | the k-th request holds 2k more messages than the first |
| Recommendations.ConverseExhausted | server/services/claudeService.js:308 | the max-iterations error is raised exactly when all five requests were sent and every reply asked for the tool |
| Recommendations.ConverseLast | server/services/claudeService.js:283-313 | a transport error of the last request is passed on as is; recommendations are read from the last reply, which asked for no tool; for the service, that is the first five records parsed from its text |
| Recommendations.RecommendedBound | server/services/claudeService.js:299-304 | a conversation that recommends returns at most five records |
| Recommendations.ConverseEnd | server/services/claudeService.js:283-308 | the last reply decides the outcome: its transport error, its records, or, when it asked for the tool, the max-iterations error after the fifth request |
| Recommendations.ConverseStep | server/services/claudeService.js:218-308 | at each iteration of the conversation, a stop ends it there with that outcome; going on makes the next request, or after the fifth raises the max-iterations error |
| Recommendations.AnswerTools | server/services/claudeService.js:247-264 | the loop over the blocks computes the tool-use flag and the tool results of the reply |
| Recommendations.CollectText | server/services/claudeService.js:283-289 | the loop over the blocks concatenates the texts of the text blocks |
| Recommendations.Recommend | server/services/claudeService.js:283-304 | the returned objects hold the first five records parsed from the reply's text |
| Recommendations.Turn | server/services/claudeService.js:219-305 | one iteration sends the messages once, and returns the next messages when `Handle` goes on, or reports the outcome `Handle` stops with |
| Recommendations.Conversation | server/services/claudeService.js:215-308 | the loop sends exactly the requests of the conversation and ends as it does: with a transport error, the max-iterations error, or the records |
| Recommendations.GetActivityRecommendations | server/services/claudeService.js:197-314 | from the prompt's single text message, the requests sent are exactly those of the conversation, and the result is its failure or its records |

## Left out

- Logging through `console.log`, `console.warn` and `console.error` is not modelled. It has no effect on results. This includes the warning when fewer than five records were parsed.
- Asynchrony is not modelled. `await` is sequential composition here.
- The Anthropic SDK, the API key from the environment and the network are not modelled. The model endpoint is the `Model` oracle: any function from the messages sent to a reply or a transport error. Every error the SDK raises is that transport error, and the `catch` rethrows it unchanged.
- The request's model name, `max_tokens` value and tool schema are not modelled. They are constant, and nothing the service computes depends on them.
- Every tool-use block carries a string `query`. In the source, a tool use without `input.query` makes `query.includes` (`claudeService.js:121`) throw a `TypeError`, which the `catch` at `claudeService.js:310-313` rethrows, so the whole call fails. The model cannot produce that failure.
- WebSearch.PerformWebSearch: each canned listing body is cut after its first heading. The choice between listings, the header and the read-back are complete. The remaining prose is fixed text that nothing depends on.
- Prompt.BuildPrompt: the template's fixed prose is shortened. The opening paragraph and the "Family Details" heading are kept in full, followed by the words on each interpolation line. The "Please use the web search tool" paragraph and the `**Search Strategy:**` heading before the numbered steps are left out, and so are the closing paragraph and the output-format and requirements sections. The order, count and placement of the interpolated criteria are exact.
- ActivityParser.PinLineWithBullet: the lemma requires a line without line terminators, since `.` in the pattern stops at one. `split('\n')` leaves carriage returns and U+2028/U+2029 in a line. Such lines are modelled by `PinRegexMatch` but not summarised by this lemma.
- The Express server, its routes and the front end are not part of this model.
