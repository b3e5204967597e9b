# Government-scheme assistant: the MasterAgent dialogue core in Dafny

This project models the conversational core of a government-scheme assistant
for farmers and small businesses (MSMEs). The core has four parts.

- **Session store** (`src/services/state_service.py`): one `ConversationContext` object per session id. It also pages through a session's scheme list, three schemes per page.
- **Data model** (`src/models/schemas.py`): the `Scheme` record, the conversation context with its history and interview fields, and the `QueryResponse` a turn returns.
- **Category configuration** (`config/categories.py`): two categories, FARMER and MSME, each with a display name and a list of lower-case keywords.
- **MasterAgent** (`src/agents/master_agent.py`): it handles one user turn of a session. It records the message, then takes the first branch that applies:
  1. the eligibility interview in progress;
  2. a question about a specific scheme (the scheme-inquiry gate, then the reference resolver);
  3. "show more" paging;
  4. otherwise keyword classification, when no category is set yet (UNCLEAR asks the user to clarify), and then a search through the category's agent.

How the model is laid out:

- Each step is a function on context values: modules `Dialogue`, `Interview`, `Resolver`, `Classifier` and `Rendering`.
- The session store is a class whose context objects are changed in place: `StateService.StateService` over `Schemas.ConversationContext`.
- `Master.MasterAgent` performs `process` in place on that store. Its `Process` method is proved to leave the store holding exactly the context value that `Dialogue.Turn` computes from the old one, with no other session touched.
- The properties of a turn are lemmas about `Dialogue.Turn` and its parts. Examples: the dispatch order, the pagination invariant, when the category may change, and how the history grows.

Where the documented behaviour and the code differ, the model follows the code:

- A scheme number or ordinal word picks from the **current page**, not from the full list (`src/agents/master_agent.py:170-172`, `:180-182`; `Resolver.DigitPicksFromPage`).
- The last resort is the last discussed scheme, and only while the current page is non-empty. It is never "the first scheme of the list", because `hasattr(context, 'last_discussed_scheme')` always holds for the declared field (`:195-201`).
- The interview flag is set when eligibility is first asked about (`:247-251`). A start word only triggers the first question. A reply at counter 0 without a start word leaves the flag set, so the next message is again handled as an interview reply.
- The generic question derivation can produce five questions, not at most four (`Interview.GenericFiveQuestions`). The question-5 exclusion rule then applies to generic schemes as well.
- `shown_schemes` is `(page + 1) * 3`, which can exceed the total (`Dialogue.ShownMayExceedTotal`).
- A search that finds nothing, or whose agent raises, skips `set_schemes` (`:111-113`). The response is still paginated (`:117`), so it lists the current page of the list stored by an earlier search, under the agent's text or the error text (`Dialogue.FailedSearchShowsOldPage`, `Dialogue.SearchErrorKeepsList`).

Regular expressions:

- `re.search(r'(?:scheme|number|option)?\s*([1-9])', q)` is modelled as "the leftmost digit 1-9 of `q`" (`Resolver.LeftmostDigit`). Both the optional prefix and the spaces are digit-free. The match at the first position where one exists therefore captures the first digit 1-9 at or after that position. Every digit is itself a match position, so that digit is the leftmost digit of the string.
- The gate's `\b(scheme|number|option)\s*[1-9]` and `\b(first|second|third|1st|2nd|3rd)\b` are written out with ASCII `\w` and `\s` (`Resolver.NumberPattern`, `Resolver.OrdinalPattern`).

## Model

| member | source | states |
|---|---|---|
| `Text.Lower` | src/agents/master_agent.py:121 | lower-casing keeps the length of the query and leaves no upper-case letter |
| `Text.LowerIdempotent` | src/agents/master_agent.py:296 | lower-casing the already lower-cased query again, as the interview handler does, changes nothing |
| `Text.NatToStringDigits` | src/agents/master_agent.py:331 | a question number renders as decimal digits with no leading zero (except 0 itself) |
| `Text.NatToStringValue` | src/agents/master_agent.py:331 | reading the rendered digits back as a decimal number gives the question number again |
| `Categories.CategoryIds` | config/categories.py:107-109 | the ids are FARMER then MSME, and looking each one up finds the configured entry at its own position |
| `Categories.CategoryIdsAre` | config/categories.py:55-84 | no id is configured twice |
| `Categories.Find` | config/categories.py:111-113 | dictionary lookup: no result exactly when no entry has the id; otherwise an entry of the table with that id |
| `Categories.GetCategoryConfig` | config/categories.py:111-113 | absent exactly for ids that are not configured; otherwise the configured entry with that id |
| `Categories.AllKeywords` | config/categories.py:122-124 | the pairs are (FARMER, its 21 keywords) then (MSME, its 21 keywords), and each list is the one configured for its id |
| `Categories.CategoryDescriptionsLines` | config/categories.py:115-120 | the description text is one line per category, FARMER's then MSME's, separated by a newline |
| `Categories.CategoryNames` | src/agents/master_agent.py:439 | the names are "Farmer & Agriculture" then "MSME & Business", each the configured name of the id at the same position |
| `Categories.KeywordsAreLowerCase` | config/categories.py:60-80 | every configured keyword is lower case, so testing it against the lower-cased query is a case-insensitive match |
| `Categories.KeywordMatchIgnoresCase` | src/agents/master_agent.py:419-424 | a keyword written in the query in any letter case is found in the lower-cased query |
| `Schemas.HistoryTextSnoc` | src/models/schemas.py:33-35 | an empty history renders as ""; appending a message appends exactly its "role: content" line after a newline |
| `Schemas.HistoryTextLines` | src/models/schemas.py:33-35 | every history entry's "role: content" line occurs in the history text |
| `Schemas.ConversationContext.constructor` | src/models/schemas.py:13-26 | a new context holds the session id and every other field at its declared default |
| `Schemas.ConversationContext.AddMessage` | src/models/schemas.py:30-31 | exactly one {role, content} entry is appended at the end; nothing else changes |
| `Schemas.ConversationContext.GetHistoryText` | src/models/schemas.py:33-35 | the text is empty for an empty history and contains every entry's "role: content" line |
| `Schemas.NewContext` | src/models/schemas.py:13-26 | the default context value, with no contract of its own: the session id and every field at its declared default; ConversationContext.constructor and StateService.GetOrCreate produce it |
| `Schemas.WithMessage` | src/models/schemas.py:30-31 | add_message on a value, with no contract of its own: one entry appended; TurnHistory and ConversationContext.AddMessage state its use |
| `Schemas.HistoryText` | src/models/schemas.py:33-35 | get_history_text on a value, with no contract of its own; HistoryTextSnoc and HistoryTextLines state its properties |
| `StateService.CurrentPage` | src/services/state_service.py:23-27 | the page holds min(3, what remains) schemes, the ones at offsets page*3 onward in list order, and is empty past the end |
| `StateService.HasMore` | src/services/state_service.py:29-31 | has_more_schemes on a value, with no contract of its own; HasMoreIffNextPageNonEmpty states what it means |
| `StateService.Advance` | src/services/state_service.py:33-36 | the page next_page leaves behind, with no contract of its own; AdvanceSteps and ShownFromIsSuffix state its properties |
| `StateService.FirstPage` | src/services/state_service.py:23-27 | page 0 is the first min(N, 3) schemes in their original order |
| `StateService.HasMoreIffNextPageNonEmpty` | src/services/state_service.py:29-31 | "has more" holds exactly when the next page would not be empty |
| `StateService.ValidPageNonEmpty` | src/services/state_service.py:23-27 | under the pagination invariant, a non-empty list always shows a non-empty page |
| `StateService.AdvanceSteps` | src/services/state_service.py:33-36 | next_page moves forward one page exactly when more remain; otherwise it is a no-op, so it is idempotent once exhausted; it keeps the pagination invariant |
| `StateService.ShownFromIsSuffix` | src/services/state_service.py:23-36 | paging on with next_page until nothing remains shows every remaining scheme exactly once, in order; from page 0 that is the whole list |
| `StateService.TenSchemesExample` | src/services/state_service.py:29-36 | with ten schemes, pages 0 to 2 have more to come, page 3 holds the last scheme, and further requests stay on page 3 |
| `StateService.StateService.constructor` | src/services/state_service.py:6-7 | the store starts with no sessions |
| `StateService.StateService.NoSharedContexts` | src/services/state_service.py:9-12 | two different session ids never share a context object |
| `StateService.StateService.GetOrCreate` | src/services/state_service.py:9-12 | returns the stored context, unchanged, for a known id; otherwise stores a fresh default context under the id; other sessions are untouched |
| `StateService.StateService.UpdateCategory` | src/services/state_service.py:14-16 | the session (created if missing) gets the category; every other field and every other session is unchanged |
| `StateService.StateService.SetSchemes` | src/services/state_service.py:18-21 | the session's list is replaced and its page reset to 0; nothing else changes |
| `StateService.StateService.GetCurrentSchemes` | src/services/state_service.py:23-27 | the session's current page of schemes; the store changes only by creating a missing session |
| `StateService.StateService.HasMoreSchemes` | src/services/state_service.py:29-31 | whether a page follows the session's current one; the store changes only by creating a missing session |
| `StateService.StateService.NextPage` | src/services/state_service.py:33-36 | the session's page advances by one when more remain and stays otherwise; nothing else changes |
| `StateService.StateService.DeleteSession` | src/services/state_service.py:38-40 | the session is gone, the others are kept, and deleting an unknown id is a no-op |
| `Classifier.Score` | src/agents/master_agent.py:424 | a category's score is at most its number of keywords, and is 0 exactly when none of them occurs in the query |
| `Classifier.Scores` | src/agents/master_agent.py:422-425 | one score per configured category, in configuration order; a category scores 0 exactly when none of its keywords occurs in the query, and never more than its number of keywords |
| `Classifier.FirstMaxIndexSpec` | src/agents/master_agent.py:427-430 | the chosen index has the maximal score, and every earlier index scores strictly less (Python's max returns the first maximum) |
| `Classifier.Classify` | src/agents/master_agent.py:415-435 | UNCLEAR exactly when no category has a keyword in the lower-cased query; otherwise FARMER or MSME |
| `Classifier.ClassifySpec` | src/agents/master_agent.py:415-435 | UNCLEAR exactly when every category scores 0; otherwise a category with a positive maximal score, before which every category scores less |
| `Classifier.SingleCategoryWins` | src/agents/master_agent.py:423-432 | a query with keywords of exactly one category is classified into that category |
| `Classifier.NoKeywordIsUnclear` | src/agents/master_agent.py:433-435 | a query with no keyword of any category is UNCLEAR |
| `Classifier.ClassifyIgnoresCase` | src/agents/master_agent.py:419 | classification does not depend on letter case |
| `Classifier.ClassifyIntent` | src/agents/master_agent.py:415-435 | the scoring loop returns the classification above; the history argument plays no part |
| `Resolver.IsSchemeInquiry` | src/agents/master_agent.py:119-144 | the gate itself, with no contract of its own: a stored scheme's name, a numbered reference, an ordinal word or an inquiry phrase in the lower-cased query; NumberPatternHasDigit, OrdinalPatternHasOrdinal and ShowMoreIsNoInquiry state its properties |
| `Resolver.FirstOrdinalFound` | src/agents/master_agent.py:176-184 | when some ordinal word of the map occurs in the query, the ordinal search finds an entry |
| `Resolver.NumberPatternHasDigit` | src/agents/master_agent.py:138-139 | a query admitted by a numbered reference always has a digit 1-9 for the resolver's number step |
| `Resolver.OrdinalPatternHasOrdinal` | src/agents/master_agent.py:140-141 | a query admitted by an ordinal word always gives the resolver's ordinal step an ordinal |
| `Resolver.ShowMoreIsNoInquiry` | src/agents/master_agent.py:119-144 | the phrase "show more" is no scheme inquiry unless a stored scheme's name occurs in it |
| `Resolver.LeftmostDigitSpec` | src/agents/master_agent.py:167-169 | a digit is captured exactly when the query has a digit 1-9, and it is the leftmost one |
| `Resolver.PickNumber` | src/agents/master_agent.py:168-173 | a number selects exactly when it lies in 1..page length, and then selects that position of the page |
| `Resolver.OrdinalBreakUnobservable` | src/agents/master_agent.py:176-184 | stopping at the first ordinal word found, even when it is out of range, selects the same as the first in-range ordinal would |
| `Resolver.FirstNamed` | src/agents/master_agent.py:187-192 | no result exactly when no scheme name occurs in the query; otherwise the first scheme of the full list whose name does |
| `Resolver.Resolve` | src/agents/master_agent.py:160-201 | each step decides only when the earlier ones found nothing: an in-range digit picks that position of the current page; otherwise an ordinal picks as OrdinalPick does; otherwise the first scheme of the full list named in the query; otherwise the last discussed scheme when the page is not empty. It fails exactly when number, ordinal and name all fail and either nothing was discussed or the page is empty |
| `Resolver.DigitPicksFromPage` | src/agents/master_agent.py:167-173 | an in-range digit selects from the current page, whatever else the query says |
| `Resolver.NameMentionResolves` | src/agents/master_agent.py:187-192 | a query naming a stored scheme always resolves |
| `Resolver.SchemeTwoExample` | src/agents/master_agent.py:167-173 | "scheme 2" on a three-scheme page selects the second scheme |
| `Resolver.FirstOneExample` | src/agents/master_agent.py:176-184 | "the first one" selects the first scheme of a non-empty page |
| `Resolver.SelectScheme` | src/agents/master_agent.py:160-201 | the selection code computes exactly the resolution Resolve defines |
| `Resolver.FindOrdinal` | src/agents/master_agent.py:176-184 | the ordinal loop selects what the ordinal rule prescribes |
| `Resolver.FindNamed` | src/agents/master_agent.py:187-192 | the name loop selects the first scheme of the full list named in the query |
| `Interview.Questions` | src/agents/master_agent.py:337-378 | 1 to 5 questions: the farmer checklist for farmer names, the MSME list for business names, otherwise the generic list or the two fallbacks; five only for farmer names or all five generic cues |
| `Interview.GenericQuestions` | src/agents/master_agent.py:358-369 | the generic branch, with no contract of its own: one question per cue found, in the source's order; Questions and GenericFiveQuestions state its bounds |
| `Interview.GenericFiveQuestions` | src/agents/master_agent.py:358-369 | a scheme that is neither farmer nor business, with all five cues, gets five generic questions |
| `Interview.Judge` | src/agents/master_agent.py:395-411 | a "yes" to question 5 means ineligible, and only that does; otherwise eligible exactly when yes-answers >= questions - 1; a single question is always passed |
| `Interview.HandleAnswer` | src/agents/master_agent.py:293-335 | a step changes only the interview fields and keeps the counter within the question count. At 0, a non-start reply changes nothing and a start word asks question 1. At N > 0 the reply is stored under N, then question N+1 (its number and text) is asked, or the verdict on the stored answers resets flag and counter |
| `Interview.StartInterview` | src/agents/master_agent.py:248-251 | the start of a check, with no contract of its own: flag on, scheme pinned, answers cleared, counter 0; SchemeDetailsSpec and CompleteInterview state what follows from it |
| `Interview.AskNext` | src/agents/master_agent.py:314-335 | the next question or the verdict, with no contract of its own; HandleAnswer's contract states each case it produces (question N+1 of the list, or the verdict) |
| `Interview.DetermineEligibility` | src/agents/master_agent.py:380-413 | the verdict step, with no contract of its own: Judge's rule on the stored answers, flag and counter reset; Judge and CompleteInterview state its properties |
| `Interview.RunFrom` | src/agents/master_agent.py:306-335 | from question k on, one answer per turn asks the remaining questions in order and ends with the verdict on all the answers |
| `Interview.CompleteInterview` | src/agents/master_agent.py:293-335 | a start reply plus one answer per question asks each question once, in order, then gives the verdict on exactly those answers (stored under 1..n) and resets flag and counter |
| `Interview.AnswerMapSpec` | src/agents/master_agent.py:308-309 | after n answers, keys 1..n are present, each holding its answer, and no other key is |
| `Interview.FarmerVerdict` | src/agents/master_agent.py:395-411 | for a farmer scheme: ineligible exactly when the fifth answer says yes; eligible when only it says no and the four others say yes |
| `Interview.FiveAnswerVerdict` | src/agents/master_agent.py:395-411 | the same verdict rule for any five-question interview |
| `Interview.FourYeses` | src/agents/master_agent.py:385 | four stored yes-answers give a yes count of at least four |
| `Interview.FarmerEligibleExample` | src/agents/master_agent.py:337-413 | yes, yes, yes, yes, no on a farmer scheme is eligible |
| `Rendering.ShortDescription` | src/agents/master_agent.py:526-529 | at most 150 characters; a short text is kept, a longer one keeps its first 147 characters followed by "..." |
| `Rendering.ShortDescriptionIdempotent` | src/agents/master_agent.py:526-529 | shortening a short description changes nothing |
| `Rendering.BriefListing` | src/agents/master_agent.py:518-536 | an empty page gives the fixed "couldn't find" text; otherwise each scheme's entry, numbered from 1 in page order, occurs in the listing |
| `Rendering.FormatBrief` | src/agents/master_agent.py:518-536 | the formatting loop produces the listing described above |
| `Rendering.FormatSchemesBrief` | src/agents/master_agent.py:518-536 | the brief listing, with no contract of its own; BriefListing states its properties and FormatBrief computes it |
| `Rendering.ListingText` | src/agents/master_agent.py:497-506 | the paginated response's text, with no contract of its own; ListingHint states its properties |
| `Rendering.ListingHint` | src/agents/master_agent.py:497-506 | the response contains the listing, and the "show more" hint whenever more schemes remain |
| `Rendering.ClarifyNamesEveryCategory` | src/agents/master_agent.py:437-441 | the clarifying question offers every configured category by its display name |
| `Rendering.SchemeRepliesOpenWithName` | src/agents/master_agent.py:242-291 | every reply about a scheme starts with that scheme's name in bold |
| `Dialogue.FirstWithId` | src/agents/master_agent.py:59-62 | no result exactly when no scheme has the id; otherwise the first scheme of the list with that id |
| `Dialogue.PinnedScheme` | src/agents/master_agent.py:52-62 | the scheme an interview is about, with no contract of its own: the last discussed scheme, else the first with the pinned id; PinnedIgnoresHistory and InterviewHandledFirst state its properties |
| `Dialogue.InterviewTurn` | src/agents/master_agent.py:64-76 | the interview branch, with no contract of its own; InterviewTurnFrame states its properties |
| `Dialogue.SchemeDetails` | src/agents/master_agent.py:232-291 | _generate_scheme_details, with no contract of its own; SchemeDetailsSpec states each of its cases |
| `Dialogue.Paginated` | src/agents/master_agent.py:488-516 | _create_paginated_response on a value, with no contract of its own: the current page, has-more, total and shown count; ListingHint and ShownMayExceedTotal state its properties |
| `Dialogue.ShowMore` | src/agents/master_agent.py:477-486 | _handle_show_more on a value, with no contract of its own; ShowMoreSteps states its properties |
| `Dialogue.Converse` | src/agents/master_agent.py:86-117 | classification when no category is set, then the search step, with no contract of its own; ConverseSpec states its properties |
| `Dialogue.Classified` | src/agents/master_agent.py:86-117 | the turn of a session with no category, with no contract of its own; ClassifiedCases states its two outcomes |
| `Dialogue.RouteToAgent` | src/agents/master_agent.py:443-470 | FARMER and MSME pass on their own agent's reply unchanged; an exception becomes "I encountered an error while searching for schemes: " and its text, any other category the "I'm sorry" text with the category, both with no schemes |
| `Dialogue.Route` | src/agents/master_agent.py:107-117 | a non-empty result becomes the list at page 0, an empty one keeps list and page; the agent's text is appended to the history and nothing else changes; the response lists the current page of the list now stored, under that text |
| `Dialogue.FailedSearchShowsOldPage` | src/agents/master_agent.py:107-117 | a search that finds nothing keeps list and page, records its text last, and answers with the page that was current before |
| `Dialogue.SearchErrorKeepsList` | src/agents/master_agent.py:463-470 | when the category's agent raises, the history gains the error text with the exception's message, the list and page stay, and the response is the old current page under that text |
| `Dialogue.Turn` | src/agents/master_agent.py:44-117 | one turn, with no contract of its own: the user message is recorded, then the turn is dispatched; TurnCases, TurnHistory, TurnKeepsInvariants and the lemmas below state its properties |
| `Dialogue.Dispatch` | src/agents/master_agent.py:51-117 | the branch order, with no contract of its own: interview, inquiry, show-more, then classification and search; TurnCases states it |
| `Dialogue.ClassifiedCases` | src/agents/master_agent.py:86-105 | UNCLEAR stores and returns the clarifying question with category UNCLEAR, no schemes and zero counts; a classified category is set and searched |
| `Dialogue.PinnedIgnoresHistory` | src/agents/master_agent.py:52-62 | recording the user's message does not change which scheme the interview is about |
| `Dialogue.TurnCases` | src/agents/master_agent.py:44-117 | a turn records the query, then is an interview step, a scheme inquiry, a show-more or classification and search, each only when the earlier ones do not apply |
| `Dialogue.InterviewTurnFrame` | src/agents/master_agent.py:64-76 | an interview turn answers with that scheme alone and no "more", keeps the list, page, category and last discussed scheme, and adds one assistant message |
| `Dialogue.InterviewHandledFirst` | src/agents/master_agent.py:52-76 | while an interview runs and its scheme is found, every turn is an interview step, whatever the query or the show-more flag |
| `Dialogue.SchemeDetailsSpec` | src/agents/master_agent.py:232-291 | an eligibility request starts an interview for the scheme when none runs, and otherwise is exactly the step HandleAnswer takes; any other request changes nothing and is answered with the benefits if a benefit word occurs, else the application process if an apply word occurs, else the details; the list, page, category, last scheme and history stay |
| `Dialogue.SchemeInquiry` | src/agents/master_agent.py:146-230 | the inquiry branch, with no contract of its own: the resolver's choice on the current page, then the scheme details; InquiryOutcome states its properties |
| `Dialogue.InquiryOutcome` | src/agents/master_agent.py:146-230 | no schemes or no resolution changes nothing; a resolved scheme becomes the last discussed, is the only scheme in the response, and gets one assistant message; the list, page and category never change |
| `Dialogue.ShowMoreSteps` | src/agents/master_agent.py:477-486 | show-more moves one page forward exactly when more remain (otherwise nothing changes) and adds no history entry |
| `Dialogue.ShowMoreRequestPages` | src/agents/master_agent.py:79-84 | typing "show more" with the flag set, no interview running and a category and list present, turns the page |
| `Dialogue.ConverseSpec` | src/agents/master_agent.py:86-117 | the list changes (page reset to 0) only to a non-empty search result; the category changes only from unset to the classifier's answer; UNCLEAR answers "UNCLEAR" and keeps it unset; one assistant message is added |
| `Dialogue.PageMovesOnlyByShowMoreOrSearch` | src/agents/master_agent.py:44-117 | across a turn the page moves only one forward by show-more, or back to 0 with a new non-empty list |
| `Dialogue.ClassificationOnlyWhenUnset` | src/agents/master_agent.py:86-105 | a set category never changes; an unset one can only become the classifier's category |
| `Dialogue.ClassifiedCategoryAllowed` | src/agents/master_agent.py:415-435 | a classified category is always FARMER or MSME, as the context's category type demands |
| `Dialogue.TurnKeepsInvariants` | src/agents/master_agent.py:44-117 | every turn keeps the pagination invariant, the FARMER/MSME restriction on the category, and a non-empty list non-empty |
| `Dialogue.TurnHistory` | src/agents/master_agent.py:44-117 | every turn appends the user's message, then at most one assistant message, keeping all earlier entries |
| `Dialogue.ShownMayExceedTotal` | src/agents/master_agent.py:508-516 | with four schemes on their second page, one is shown yet six are reported as shown |
| `Master.FindSchemeById` | src/agents/master_agent.py:59-62 | the lookup loop returns the first scheme with the pinned id, or nothing when none has it |
| `Master.MasterAgent.constructor` | src/agents/master_agent.py:18-29 | the agent uses the given store and search agents and words its replies with the source's texts |
| `Master.MasterAgent.HandleEligibilityQuestion` | src/agents/master_agent.py:293-312 | the context and the reply become the interview step that HandleAnswer characterises |
| `Master.MasterAgent.AskNextEligibilityQuestion` | src/agents/master_agent.py:314-335 | the context moves to the next question or to the verdict, as the question list prescribes |
| `Master.MasterAgent.DetermineEligibility` | src/agents/master_agent.py:380-413 | the verdict is the rule of Judge; the flag and counter are reset and the answers kept |
| `Master.MasterAgent.GenerateSchemeDetails` | src/agents/master_agent.py:232-291 | the context and reply are those SchemeDetailsSpec characterises |
| `Master.MasterAgent.HandleSchemeInquiry` | src/agents/master_agent.py:146-230 | the session ends as InquiryOutcome describes, the response is that turn's, and the store keeps its sessions |
| `Master.MasterAgent.CreatePaginatedResponse` | src/agents/master_agent.py:488-516 | the response shows the current page, whether more remain, the total and the shown count; the store changes only by creating a missing session |
| `Master.MasterAgent.HandleShowMore` | src/agents/master_agent.py:477-486 | the session's page and the response are those ShowMoreSteps describes |
| `Master.MasterAgent.AnswerInterview` | src/agents/master_agent.py:64-76 | the session takes the interview step and its reply, as InterviewTurnFrame describes |
| `Master.MasterAgent.SearchAndRespond` | src/agents/master_agent.py:107-117 | the session and response are those of Route: a non-empty result becomes the list and the response is its first page; an empty or failed search keeps the old list and page and the response shows the old current page; the agent's text is recorded either way |
| `Master.MasterAgent.AskClarification` | src/agents/master_agent.py:90-102 | the session records the clarifying question; the response has category UNCLEAR, no schemes and zero counts |
| `Master.MasterAgent.SearchInCategory` | src/agents/master_agent.py:104-117 | the classified category is stored, then the search step runs in it |
| `Master.MasterAgent.ClassifyAndSearch` | src/agents/master_agent.py:86-117 | with no category set, the session and response are those of classification then search or clarification, as ConverseSpec describes |
| `Master.MasterAgent.InterviewScheme` | src/agents/master_agent.py:52-62 | while the interview flag is set, the last discussed scheme, else the first scheme with the pinned id; nothing when the flag is off |
| `Master.MasterAgent.Dispatch` | src/agents/master_agent.py:51-117 | after the user message is recorded, the session and response are those of the turn TurnCases describes |
| `Master.MasterAgent.RecordQuery` | src/agents/master_agent.py:47-49 | the session (created if missing) gets the user's message appended; no other session changes |
| `Master.MasterAgent.Process` | src/agents/master_agent.py:44-117 | the store ends holding exactly the turn's new context for the session and no other session changes, so every Dialogue lemma about Turn holds of process |

## Left out

- The farmer and MSME search agents (`get_farmer_response`, `get_msme_response`, the LLM and search tooling behind them) are function parameters of type `Dialogue.Agent`. They receive the query and the conversation history, the only part of the context they read. An exception they raise is the `Raised` value.
- Printing and logging are left out. So is the deprecated `_generate_conversational_intro`, which nothing calls.
- The prompt builders of `config/categories.py` are left out, as are the agent-instruction and search-tool fields of a category configuration: the dialogue core never uses them.
- `user_preferences` is left out: no part of the core reads or writes it.
- Lower-casing, `\w` and `\s` are modelled for ASCII only. Python's Unicode case mapping and character classes are not modelled.
- The page size is fixed at its default of 3 (`config/settings.py:30`). The `SCHEMES_PER_PAGE` environment override is not modelled.
- Eligibility answers stored under `"q<N>"` are stored under the number N. The encoding is one-to-one, so no lookup changes.
- `no_count` in `_determine_eligibility` is computed but never used, so it is left out.
- Converting agent results with `Scheme(**s)` is not modelled: the agents return `Scheme` values, so a malformed result dictionary cannot occur.
- The session store is one shared object, and its thread safety under concurrent requests is not modelled. Session-id generation and the HTTP transport are left out.
- `Master.MasterAgent.HandleSchemeInquiry` reads the current page once. The source calls `get_current_schemes` in each resolution step, but the session exists by then, so every call returns the same page.
- `StateService.StateService.NextPage` tests "has more" on the context it already holds. The source calls `has_more_schemes`, which repeats `get_or_create` on a session that exists at that point.
- The question list is derived once per call and passed to the interview steps. The source derives it again inside `_ask_next_eligibility_question`, but the derivation depends only on the scheme.
- A response's text is a tagged `Rendering.Reply`, and `Rendering.ReplyText` gives its exact wording. The dialogue is stated for any wording of replies (`Rendering.Wording`); `Master.MasterAgent` uses `ReplyText`.
