# biz-finder market analysis, modelled in Dafny

biz-finder answers a market question such as "coffee shops in Brooklyn" with
a competitor analysis. `POST /analyze` does four things:

1. It asks Yelp's AI chat API which businesses match.
2. When the chat reply names businesses only by id, it fetches their details.
3. It fetches up to three reviews per business.
4. It has Gemini write an analysis, which it merges with the Yelp data into
   one JSON response.

The Gemini service also answers follow-up questions about an analysis and
suggests the next question to ask.

This project models that core:

- the Yelp adapter (`YelpChat`);
- the Gemini analysis with its reply recovery (`Gemini`, `JsonRecovery`);
- the follow-up answer and the suggested question (`FollowUp`);
- the `/analyze` handler (`AnalyzeHandler`).

Supporting modules hold strings (`Text`), JavaScript values and plain objects
with their key order (`JsValues`), the records (`Records`) and `Option`/`Result`
(`Outcomes`).

Every remote exchange is a function parameter of the model:

- the chat POST;
- the business and review GETs;
- Gemini's `generateContent`;
- `JSON.parse`.

A parameter returns either the response or the error. Loops that build a
result step by step are methods with invariants. Each method is proved equal
to a specification function, and lemmas state the source's promises about
those functions.

## Model

| member | source | states |
|---|---|---|
| YelpChat.BuildPayload | services/yelp-ai-chat.js:9-21 | the query is passed through; each of locale, latitude and longitude is the caller's value when truthy, else en_US / 40.7128 / -74.0060, so all three are truthy; `chat_id` is present exactly when the caller's is truthy |
| YelpChat.BuildPayloadIdempotent | services/yelp-ai-chat.js:9-21 | feeding a payload's own context back in yields the same payload |
| YelpChat.MergedBusinessesAppend | services/yelp-ai-chat.js:34-42 | the merged business list of two result runs is the concatenation of their merged lists |
| YelpChat.MergedBusinessesAt | services/yelp-ai-chat.js:35-41 | result `i` contributes its businesses in place, between those of the results before and after it |
| YelpChat.MergedBusinessesMember | services/yelp-ai-chat.js:34-42 | a business is in the merged list iff some result contributes it (its `search_results.businesses`, else its own `businesses`) |
| YelpChat.MergedBusinessesEmpty | services/yelp-ai-chat.js:34-42 | the merged list is empty iff no result contributes a business |
| YelpChat.TaggedIds | services/yelp-ai-chat.js:45-52 | at most one id per tag, and no collected id is empty |
| YelpChat.TaggedIdsMember | services/yelp-ai-chat.js:45-52 | an id is collected iff some tag has type `business` and carries that id in its meta |
| YelpChat.Normalize | services/yelp-ai-chat.js:31-62 | the chat id and the raw answer pass through; a missing `response` gives no businesses, no ids and an empty reply; a missing text, result list or tag list empties just that part; a present text is the reply; at most one id per tag, none empty |
| YelpChat.QueryYelpAI | services/yelp-ai-chat.js:7-68 | posts the payload built from the query and context; a failed POST becomes the single error "Failed to query Yelp AI Chat API", a successful one the normalised reply |
| YelpChat.FetchedDetails | services/yelp-ai-chat.js:70-90 | never more businesses than ids |
| YelpChat.FetchedDetailsAppend | services/yelp-ai-chat.js:73-85 | fetching `a + b` yields the details of `a` followed by those of `b` |
| YelpChat.FetchedDetailsMember | services/yelp-ai-chat.js:73-85 | a business is returned iff the GET of some id succeeded with it; failed ids are skipped |
| YelpChat.FetchedDetailsAllSucceed | services/yelp-ai-chat.js:73-85 | when every GET succeeds, the result lists one business per id, in id order |
| YelpChat.FetchBusinessDetails | services/yelp-ai-chat.js:70-90 | the loop returns exactly `FetchedDetails` of the ids |
| YelpChat.FirstOccurrences | services/yelp-ai-chat.js:95-111 | the stored keys are the ids without repeats |
| YelpChat.StoredMapShape | services/yelp-ai-chat.js:93-111 | the reviews object has one key per distinct id, in first-seen order; each value is the response's `reviews`, or `[]` when the GET failed |
| YelpChat.ReviewsResult | services/yelp-ai-chat.js:92-117 | any failure is the TypeError of the final count; on success every key is an input id holding what its GET gave: its `reviews`, or `[]` for a failed GET |
| YelpChat.Unwrapped | services/yelp-ai-chat.js:113-116 | once no stored value is missing, the same keys map to the same review lists |
| YelpChat.ReviewsResultShape | services/yelp-ai-chat.js:92-117 | `fetchReviews` rejects iff some successful response lacks `reviews` (the count's TypeError); otherwise it holds every id, `[]` for failed GETs and the API's list for the rest |
| YelpChat.FetchReviews | services/yelp-ai-chat.js:92-117 | the loop and count return exactly `ReviewsResult` of the ids |
| YelpChat.CollectReviews | services/yelp-ai-chat.js:93-111 | the loop builds exactly `StoredMap` of the ids |
| Gemini.Summarize | services/gemini.js:11-19 | a business summary keeps id, name, rating, review count, price and url, and its category text contains every category title |
| Gemini.Summaries | services/gemini.js:11-19 | one summary per business, in order: entry `i` summarises business `i` |
| Gemini.BuildReviewSection | services/gemini.js:22-34 | the nested loops build exactly `ReviewSectionOf` |
| Gemini.AppendBlock | services/gemini.js:26-32 | appends one business's block: its name header and review lines, or nothing when it has no review |
| Gemini.AppendReviewLines | services/gemini.js:29-31 | appends the numbered lines of a review list |
| Gemini.BlocksStep | services/gemini.js:25-33 | the business blocks grow one business at a time |
| Gemini.ReviewLinesStep | services/gemini.js:29-31 | the review lines grow one review at a time, numbered from 1 |
| Gemini.ReviewSectionOf | services/gemini.js:22-34 | the section is empty iff the reviews object has no keys; otherwise it starts with the "Customer Reviews" header |
| Gemini.Blocks | services/gemini.js:25-33 | the business blocks are empty iff no listed business has a review |
| Gemini.BusinessBlock | services/gemini.js:26-32 | a business's block is empty iff it has no review; otherwise it opens with the business's name line |
| Gemini.ReviewLine | services/gemini.js:30 | a review line starts with "Review" and the 1-based number, quotes the review text and ends with a line feed |
| Gemini.ReviewSectionQuotesEveryReview | services/gemini.js:25-33 | every review of every listed business appears quoted in the section, under its business's name |
| Gemini.SectionContainsBlock | services/gemini.js:25-33 | every business with a review has its block in the section |
| Gemini.PromptFor | services/gemini.js:22-67 | the prompt carries the query, the chat reply and one summary per business; it asks for personas extracted from reviews iff the reviews object has a key, otherwise for an empty `personas` array |
| Gemini.AnalyzeResults | services/gemini.js:6-173 | a failed model call is "Failed to generate market analysis"; otherwise the result is the reply decoded by `DecodeAnalysis` |
| Gemini.RecoverAnalysis | services/gemini.js:107-167 | strip fences, extract, parse, repair and re-parse, then default personas: exactly `DecodeAnalysis` |
| JsonRecovery.StripFences | services/gemini.js:108-111 | no code fence survives the cleaning; a reply without backticks is only trimmed |
| JsonRecovery.NoFenceAfterRemoval | services/gemini.js:110 | deleting every "```" leaves none, even where removals join backticks |
| JsonRecovery.FencedPayloadCleansLikeBare | services/gemini.js:108-111 | a payload wrapped in a ```json fence cleans to the same text as the bare payload |
| JsonRecovery.FirstIndex | services/gemini.js:114 | the first occurrence of a character, or none |
| JsonRecovery.LastIndex | services/gemini.js:114 | the last occurrence of a character, or none |
| JsonRecovery.ExtractObject | services/gemini.js:114-121 | a match exists iff some `{` precedes some `}`; the match is a slice of the text that starts with `{` and ends with `}` |
| JsonRecovery.CloserRun | services/gemini.js:143 | matches whitespace followed by `}` or `]` |
| JsonRecovery.DropTrailingCommasMatchesSpec | services/gemini.js:143 | the scanning rewrite equals the reference rewrite "delete each comma followed by whitespace and a closer" |
| JsonRecovery.DropTrailingCommasDeletesOnlyThoseCommas | services/gemini.js:143 | the trailing-comma rewrite deletes commas and nothing else |
| JsonRecovery.SpecDeletesOnlyCommas | services/gemini.js:143 | the reference rewrite changes nothing but commas |
| JsonRecovery.TrailingCommaBeforeCloserDropped | services/gemini.js:143 | a comma before whitespace and a closer is removed, and the whitespace and closer are kept |
| JsonRecovery.DropTrailingCommas | services/gemini.js:143 | the text never grows, and text without a comma is kept |
| JsonRecovery.QuoteBareKeysOnlyAddsQuotes | services/gemini.js:144 | quoting bare keys only inserts double quotes |
| JsonRecovery.QuoteKeyAtOnlyAddsQuotes | services/gemini.js:144 | one key rewrite only inserts double quotes |
| JsonRecovery.QuoteBareKeys | services/gemini.js:144 | the text never shrinks, and text without `{` or `,` is kept |
| JsonRecovery.BareKeyQuoted | services/gemini.js:144 | a bare word key after `{` or `,` and optional white space gets double quotes, and the rest of the text is rewritten on its own |
| JsonRecovery.QuoteSingleValuesKeepsText | services/gemini.js:145 | requoting single-quoted values changes only quotes and layout |
| JsonRecovery.RequoteAtKeepsText | services/gemini.js:145 | one value rewrite changes only quotes and layout |
| JsonRecovery.QuoteSingleValues | services/gemini.js:145 | text without a colon is kept |
| JsonRecovery.SingleQuotedValueRequoted | services/gemini.js:145 | a single-quoted value after a colon and optional white space becomes `: "…"`, and the rest of the text is rewritten on its own |
| JsonRecovery.Repair | services/gemini.js:142-145 | text with no comma, brace or colon is kept |
| JsonRecovery.RepairKeepsOpeningBrace | services/gemini.js:142-145 | a repaired object still opens with `{` |
| JsonRecovery.QuoteBareKeysKeepsPlainText | services/gemini.js:144 | text without `{` or `,` is left alone by key quoting |
| JsonRecovery.QuoteSingleValuesKeepsPlainText | services/gemini.js:145 | text without `'` is left alone by value requoting |
| JsonRecovery.QuotedKeysKept | services/gemini.js:144 | an object whose only key is already quoted is left alone |
| JsonRecovery.TrailingCommaObjectRepaired | services/gemini.js:142-145 | `{"k":"v",}` repairs to `{"k":"v"}` |
| JsonRecovery.TrailingCommaBodyRepaired | services/gemini.js:142-145 | a single-member object with a trailing comma loses the comma |
| JsonRecovery.EnsurePersonas | services/gemini.js:160-163 | `personas` becomes truthy (`[]` if it was falsy); every other key is unchanged and no key is lost |
| JsonRecovery.DecodeAnalysis | services/gemini.js:107-172 | succeeds iff an object is extracted and it or its repair parses; a success always has truthy personas; the first parse's object is used when it parses, otherwise the repaired text's; every failure is "Failed to generate market analysis" |
| JsonRecovery.FencedReplyDecodesLikeBare | services/gemini.js:107-167 | a fenced reply decodes exactly like the bare payload |
| FollowUp.MarkerRun | services/gemini.js:302 | the longest prefix of marker characters `[\d\-\*•.\s]` |
| FollowUp.CleanLine | services/gemini.js:302 | the line is its leading marker run, then the cleaned item, then trailing white space only; the item never starts with a marker character |
| FollowUp.CleanLineTrims | services/gemini.js:302 | the cleaned item is the `trim` of the text after the marker run |
| FollowUp.CleanLineIdempotent | services/gemini.js:302 | cleaning an item twice is cleaning it once |
| FollowUp.CleanItems | services/gemini.js:301-302 | never more items than lines; each item is non-empty and starts with no marker |
| FollowUp.CleanList | services/gemini.js:300-302 | each listed move or risk is non-empty and starts with no marker |
| FollowUp.CleanItemsAppend | services/gemini.js:301-302 | the filter-map works line by line: the items of `a + b` are those of `a` then those of `b` |
| FollowUp.CleanItemsOfLine | services/gemini.js:301-302 | a single line yields its cleaned text when it is kept (non-blank, and list-like or longer than 20 code units, and non-empty after cleaning), otherwise nothing |
| FollowUp.CleanListItemsAreSingleLines | services/gemini.js:301-308 | no item spans a line break |
| FollowUp.FirstParagraph | services/gemini.js:293-296 | the fallback insight is empty or starts with a non-space |
| FollowUp.FirstNonBlank | services/gemini.js:293-296 | the result is trimmed, and empty iff every paragraph is blank |
| FollowUp.FirstNonBlankIsFirst | services/gemini.js:293-296 | the result is the trimmed text of the first non-blank paragraph |
| FollowUp.InsightOf | services/gemini.js:289-297 | the insight is trimmed, and it is empty without a matched section only when the whole text is blank |
| FollowUp.ListOf | services/gemini.js:299-309 | no section gives no items; every item is non-empty, starts with no marker and spans no line break |
| FollowUp.FallbackAnswer | services/gemini.js:278-323 | the recovered structure has an insight or a move whenever the text is not blank, and its moves and risks are clean items |
| FollowUp.FallbackKeepsFoundStructure | services/gemini.js:289-323 | the found sections are returned as found exactly when there is an insight or a move; otherwise the answer is the trimmed text alone |
| FollowUp.BlankParagraphsOnly | services/gemini.js:293-296 | no non-blank paragraph means the whole text is blank |
| FollowUp.RecoverStructure | services/gemini.js:278-323 | the plain-text recovery returns exactly `FallbackAnswer` |
| FollowUp.SuggestedQuestion | services/gemini.js:331-359 | fails (TypeError) iff the summary is truthy and not a string; otherwise yields a non-empty question |
| FollowUp.GenerateFollowUpQuestion | services/gemini.js:331-359 | the question list is built in source order and its first entry is exactly `SuggestedQuestion` |
| FollowUp.SuggestedQuestionNamesTopPersona | services/gemini.js:337-339 | with at least one persona, the suggestion names the first persona |
| FollowUp.PriceText | services/gemini.js:188 | the price itself when it is a non-empty string, `N/A` when it is missing or empty |
| FollowUp.Find | services/gemini.js:198 | `find` returns the first business with the id, or none iff no business has it |
| FollowUp.FirstThree | services/gemini.js:201 | a prefix of the reviews of length min(3, count): all of them when there are three or fewer |
| FollowUp.ContextOf | services/gemini.js:180-221 | building the context fails (TypeError from `businesses.find`) iff businesses are missing while the reviews object has a key |
| FollowUp.BuildContext | services/gemini.js:180-221 | the step-by-step context text is exactly `ContextOf` |
| FollowUp.AppendCompetitors | services/gemini.js:185-191 | appends the numbered competitor lines when there are businesses |
| FollowUp.AppendInsights | services/gemini.js:194-207 | appends the review insights, and fails exactly where `ContextOf` does |
| FollowUp.AppendInsightBlocks | services/gemini.js:196-205 | appends one insight block per review key, in key order |
| FollowUp.AppendInsightBlock | services/gemini.js:197-204 | appends a business's name and up to three review snippets, when both exist |
| FollowUp.AppendPersonas | services/gemini.js:210-221 | appends the persona section when there are personas |
| FollowUp.AppendPersonaEntries | services/gemini.js:212-220 | appends the numbered persona entries in order |
| FollowUp.AppendPersonaEntry | services/gemini.js:213-219 | appends one persona's name line, goals line and pain-points line |
| FollowUp.PersonaNamesInContext | services/gemini.js:210-221 | every persona's name appears in the context |
| FollowUp.EntriesNamePersona | services/gemini.js:212-220 | the persona entries name every persona |
| FollowUp.DecodeAnswer | services/gemini.js:253-323 | an extracted object that parses is the answer as it is, with no repair and no defaults; a reply with no object is recovered from its text by the section matches; a recovered answer of a non-blank reply has an insight or a move |
| FollowUp.DecodeAnswerNeverRepairs | services/gemini.js:259-323 | an extracted object that does not parse is not repaired: the plain-text recovery runs on the raw reply |
| FollowUp.AnswerFollowUpQuestion | services/gemini.js:175-329 | fails with "Failed to answer follow-up question" when the context cannot be built or the model call fails; otherwise returns the decoded answer |
| AnalyzeHandler.ErrorBody | server.js:26 | an error body has only the key `error`, holding the message |
| AnalyzeHandler.NotFoundBody | server.js:46-49 | the 404 body has `error` then `yelp_response`, holding the chat reply |
| AnalyzeHandler.MergeResponse | server.js:68-73 | the response has the analysis's keys, with `yelp_insight`, `chat_id` and `reviews` set from discovery and the review fetch |
| AnalyzeHandler.MergeKeepsKeyOrder | server.js:68-73 | the analysis's keys come first in their order, followed by at most three added keys |
| AnalyzeHandler.Discover | server.js:33-36 | discovery posts the query with en_US and New York City's coordinates and no chat id; a failed POST is the single discovery error; an answer is the normalised reply, keeping its chat id and raw body |
| AnalyzeHandler.Competitors | server.js:39-43 | the discovered businesses are kept when there are any or there is no id; otherwise the list is the records fetched for the ids, failed fetches dropped, so no longer than the id list |
| AnalyzeHandler.AnalysisOf | server.js:56-61 | a failed model call, like every failure, is "Failed to generate market analysis"; a model reply is decoded by `DecodeAnalysis` with its repair step; a success lists personas |
| AnalyzeHandler.AfterCompetitors | server.js:53-84 | reviews are fetched for `business_ids`; a failed review fetch is a 500 "Failed to analyze market opportunity." before any analysis; a failed analysis is the same 500 after it; when both succeed the answer is 200 with the analysis merged with the Yelp fields and the reviews |
| AnalyzeHandler.AfterDiscovery | server.js:39-84 | the status is 200, 404 or 500; it is 404 iff no competitor was found, and then the body carries the chat reply and the run stops after the details fallback; the calls are the details fallback followed by at most the review fetch and the analysis |
| AnalyzeHandler.DetailCallsAfterDiscovery | server.js:41-43 | details are fetched iff discovery returned no businesses but some ids, and then for exactly those ids |
| AnalyzeHandler.ReviewCallsAfterDiscovery | server.js:53 | reviews are fetched only for discovery's `business_ids` |
| AnalyzeHandler.AnalyzeOutcome | server.js:22-85 | the status is 200, 400, 404 or 500; it is 400 iff the query is falsy, and then nothing is called; every 500 carries the generic error; any other request starts with discovery |
| AnalyzeHandler.HandleAnalyze | server.js:22-85 | the handler's response and call sequence are exactly `AnalyzeOutcome` |
| AnalyzeHandler.AnalyzeCompetitors | server.js:39-84 | the steps after discovery are exactly `AfterDiscovery` |
| AnalyzeHandler.RequestAnalysis | server.js:53-84 | the review fetch, the analysis and the merge are exactly `AfterCompetitors` |
| AnalyzeHandler.DetailsFetchedOnlyWithoutBusinesses | server.js:41-43 | a details fetch implies a truthy query, a successful discovery without businesses, and the discovered ids |
| AnalyzeHandler.DetailsFetchedIffNoBusinesses | server.js:39-43 | after a successful discovery, details are fetched iff it returned ids but no businesses |
| AnalyzeHandler.NotFoundCarriesReply | server.js:45-50 | a 404 means discovery succeeded but left no competitor, and the body carries its conversational reply |
| AnalyzeHandler.NotFoundStopsEarly | server.js:45-50 | after a 404 only discovery and the details fallback have run: no reviews and no analysis |
| AnalyzeHandler.ReviewsRequestedForBusinessIds | server.js:53 | any review fetch is for discovery's `business_ids` |
| AnalyzeHandler.SuccessMergesAnalysis | server.js:53-79 | a 200 means reviews and analysis both succeeded, and the body is the analysis merged with the Yelp fields |
| AnalyzeHandler.SuccessWhenEveryStepSucceeds | server.js:22-79 | a non-empty query whose discovery, competitor list, review fetch and analysis all succeed is answered 200 with the merged analysis |
| AnalyzeHandler.SuccessListsPersonas | server.js:68-79 | every 200 response has a truthy `personas` |
| Text.TrimIdempotent | services/gemini.js:111 | trimming twice is trimming once |
| Text.JoinSplitOn | services/gemini.js:293 | splitting on a separator and joining back gives the original text |
| Text.SplitLinesLosesOnlyLineFeeds | services/gemini.js:301 | splitting on runs of line feeds loses the line feeds and nothing else |
| Text.SplitLinesHaveNoLineFeed | services/gemini.js:301 | no piece of the split contains a line feed |
| Text.NatToStringRoundTrip | services/gemini.js:30 | the decimal review number reads back as the number |
| Text.Utf16Prefix | services/gemini.js:202 | the snippet is a prefix of the text of at most 150 UTF-16 code units; the whole text when it fits; otherwise the longest such prefix, one more character would exceed the limit |
| Text.IndexOf | services/gemini.js:293 | the first occurrence of the separator, or none |

## Left out

- The network is not modelled. The chat POST, the business and review GETs and Gemini's `generateContent` are function parameters. The same id therefore always gets the same answer within one model run.
- `JSON.parse` is a parameter from text to an optional object. Its grammar is not modelled. Only what the code does with its result is.
- The three section-header regular expressions of the plain-text fallback (services/gemini.js:285-287) are not modelled. Their matches are an input, `sections`. The splitting, filtering and cleaning of the matched text is modelled.
- The fixed prompt wording is not modelled. `AnalysisPrompt` and `FollowUpPrompt` keep only the data parts: the query, the chat reply, the business projection, the review section, the context and the question.
- Console logging is not modelled.
- Express plumbing is not modelled: CORS, static files and the listener. The request body is reduced to its `query` field.
- JSON serialisation of the response is not modelled. `MergeResponse` keeps `chat_id` even when it is `undefined`, which `res.json` would drop.
- `raw_response` is carried in `YelpResult.raw` but no property is stated about it.
- How a value prints inside a template literal (`${v}`) is a parameter `show`. The business rating's number formatting is not modelled.
- Number truthiness treats every non-zero number as truthy. NaN is not modelled.
- Key order of JavaScript plain objects is insertion order. The rule that puts integer-like keys first is not modelled.
- `toLowerCase` in `generateFollowUpQuestion` is modelled on ASCII letters only. No non-ASCII case mapping can create the searched words.
- Text.Utf16Prefix: when the 150-unit cut falls inside a surrogate pair, the model drops the whole character. JavaScript would keep a lone high surrogate. Strings here are sequences of characters, so they cannot hold a lone surrogate.
- YelpChat.ReviewsResultShape: the total count at services/yelp-ai-chat.js:113 is modelled only through the TypeError it raises when a stored value is missing (undefined or null). The count itself is only logged. A `reviews` value that is present but not an array is not modelled: a string or an object does not throw there, and would be stored and passed on as it is.
- `answerFollowUpQuestion` and `generateFollowUpQuestion` are modelled as service functions. No route in server.js calls them.
- A persona's `goals`/`painPoints` that are present but not arrays are not modelled. Records hold typed fields.
- Gemini.Summarize: a business always has a list of categories, each with a title. The TypeError that `b.categories.map(c => c.title)` raises (services/gemini.js:17) is not modelled: a business with no `categories`, or with a null category, makes `analyzeResults` fail with "Failed to generate market analysis" (services/gemini.js:171), and `/analyze` then answers 500 (server.js:81-84). For such input the model instead builds a summary, and `AnalysisOf` and `AfterCompetitors` can answer 200.
- FollowUp.AppendInsightBlock: a review always has a `text`. The TypeError of `review.text.substring` on a review without text (services/gemini.js:202) is not modelled: in the source it makes `answerFollowUpQuestion` fail with its generic message.
