/** MasterAgent.process (src/agents/master_agent.py): one user turn of a session,
    as a function of the session's context value. The class in master_agent.dfy
    performs the same turn in place on the session store. */
module Dialogue {
  import opened Optional
  import opened Text
  import opened Categories
  import opened Schemas
  import opened StateService
  import opened Classifier
  import opened Resolver
  import opened Interview
  import opened Rendering

  /** QueryResponse (src/models/schemas.py); the response text is the tagged
      reply; the text stored in the history is its wording. */
  datatype QueryResponse = QueryResponse(
    sessionId: string,
    response: Reply,
    schemes: seq<Scheme>,
    hasMore: bool,
    category: Option<string>,
    totalSchemes: nat,
    shownSchemes: nat)

  /** What a category agent gives back: its text and the schemes it found, or
      the message of the exception it raised. */
  datatype SearchReply = Found(text: string, schemes: seq<Scheme>) | Raised(error: string)

  /** get_farmer_response / get_msme_response: the query and the conversation
      history so far (the only part of the context they read). */
  type Agent = (string, seq<Message>) -> SearchReply

  datatype Agents = Agents(farmer: Agent, msme: Agent)

  /** A turn's new context value and its response. */
  datatype TurnResult = TurnResult(state: ContextState, response: QueryResponse)

  /** A scheme-detail answer: the new context value and the reply. */
  datatype Handled = Handled(state: ContextState, reply: Reply)

  const EligibilityWords: seq<string> := ["eligibility", "eligible", "qualify", "can i apply", "am i eligible"]
  const BenefitWords: seq<string> := ["benefit", "advantage", "what will i get", "what do i get"]
  const ApplyWords: seq<string> := ["how to apply", "apply", "application", "process", "procedure"]

  const MoreSchemesIntro: string := "Here are more schemes:"
  const AllSeenIntro: string := "You've seen all available schemes. Is there anything else I can help you with?"
  const UnclearId: string := "UNCLEAR"

  /** The first scheme of the list with the given id. */
  function FirstWithId(schemes: seq<Scheme>, id: string): (r: Option<Scheme>)
    ensures r.None? <==> forall i :: 0 <= i < |schemes| ==> schemes[i].id != id
    ensures r.Some? ==> exists i :: 0 <= i < |schemes| && schemes[i] == r.value && r.value.id == id
                          && forall j :: 0 <= j < i ==> schemes[j].id != id
  {
    if schemes == [] then None
    else if schemes[0].id == id then Some(schemes[0])
    else
      var r := FirstWithId(schemes[1..], id);
      assert r.Some? ==> exists i :: 0 <= i < |schemes[1..]| && schemes[1..][i] == r.value && r.value.id == id
                          && forall j :: 0 <= j < i ==> schemes[1..][j].id != id;
      r
  }

  /** The scheme an interview in progress is about: the last discussed scheme,
      else the first scheme of the list whose id was pinned. */
  function PinnedScheme(st: ContextState): Option<Scheme> {
    if st.lastDiscussed.Some? then st.lastDiscussed
    else if IsSet(st.eligibilitySchemeId) then FirstWithId(st.schemes, st.eligibilitySchemeId.value)
    else None
  }

  /** The interview branch of process: the reply to the pinned scheme's
      interview, stored in the history and returned with that scheme only. */
  function InterviewTurn(id: string, st: ContextState, query: string, scheme: Scheme, render: Wording): TurnResult {
    var step := HandleAnswer(st, query, scheme, SchemeQuestions(scheme));
    var reply := Asked(step.reply);
    var st' := WithMessage(step.state, "assistant", render(reply));
    TurnResult(st', QueryResponse(id, reply, [scheme], false, st'.category, |st'.schemes|, 0))
  }

  /** _generate_scheme_details: eligibility, then benefits, then application,
      else the description. An eligibility request starts the interview, or
      answers it when one is already running. */
  function SchemeDetails(st: ContextState, queryLower: string, s: Scheme): Handled {
    if ContainsAny(queryLower, EligibilityWords) then
      if st.eligibilityInProgress then
        var step := HandleAnswer(st, queryLower, s, SchemeQuestions(s));
        Handled(step.state, Asked(step.reply))
      else Handled(StartInterview(st, s), StartCheck(s))
    else if ContainsAny(queryLower, BenefitWords) then Handled(st, Benefits(s))
    else if ContainsAny(queryLower, ApplyWords) then Handled(st, HowToApply(s))
    else Handled(st, Details(s))
  }

  /** _handle_scheme_inquiry. */
  function SchemeInquiry(id: string, st: ContextState, query: string, render: Wording): TurnResult {
    if |st.schemes| == 0 then
      TurnResult(st, QueryResponse(id, NoSchemesYet, [], false, st.category, 0, 0))
    else
      var q := Lower(query);
      var selected := Resolve(q, CurrentPage(st.schemes, st.currentPage), st.schemes, st.lastDiscussed);
      if selected.None? then
        TurnResult(st, QueryResponse(id, WhichScheme, [], false, st.category, 0, 0))
      else
        var h := SchemeDetails(st.(lastDiscussed := selected), q, selected.value);
        var st' := WithMessage(h.state, "assistant", render(h.reply));
        TurnResult(st', QueryResponse(id, h.reply, [selected.value], false, st'.category, |st'.schemes|, 0))
  }

  /** _create_paginated_response. */
  function Paginated(id: string, st: ContextState, intro: string): QueryResponse {
    var page := CurrentPage(st.schemes, st.currentPage);
    var more := HasMore(st.schemes, st.currentPage);
    QueryResponse(id, Listing(intro, page, more), page, more, st.category, |st.schemes|,
                  (st.currentPage + 1) * SchemesPerPage)
  }

  /** _handle_show_more: next page when there is one; no history entry. */
  function ShowMore(id: string, st: ContextState): TurnResult {
    var more := HasMore(st.schemes, st.currentPage);
    var st' := WithNextPage(st);
    TurnResult(st', Paginated(id, st', if more then MoreSchemesIntro else AllSeenIntro))
  }

  /** The category as an f-string renders it. */
  function CategoryText(c: Option<string>): string {
    if c.Some? then c.value else "None"
  }

  const NoCategoryPrefix: string := "I'm sorry, I don't have schemes for the category: "
  const SearchErrorPrefix: string := "I encountered an error while searching for schemes: "

  /** _route_to_agent: the farmer or MSME agent by category, whose reply is
      passed on as it is; an exception raised by the agent becomes an error
      text, and any other category a refusal text, both with no schemes. */
  function RouteToAgent(category: Option<string>, query: string, history: seq<Message>, agents: Agents): (r: SearchReply)
    ensures r.Found?
    ensures category == Some(FarmerId) && agents.farmer(query, history).Found? ==> r == agents.farmer(query, history)
    ensures category == Some(FarmerId) && agents.farmer(query, history).Raised? ==>
      r == Found(SearchErrorPrefix + agents.farmer(query, history).error, [])
    ensures category == Some(MsmeId) && agents.msme(query, history).Found? ==> r == agents.msme(query, history)
    ensures category == Some(MsmeId) && agents.msme(query, history).Raised? ==>
      r == Found(SearchErrorPrefix + agents.msme(query, history).error, [])
    ensures category != Some(FarmerId) && category != Some(MsmeId) ==>
      r == Found(NoCategoryPrefix + CategoryText(category), [])
  {
    var reply :=
      if category == Some(FarmerId) then agents.farmer(query, history)
      else if category == Some(MsmeId) then agents.msme(query, history)
      else Found(NoCategoryPrefix + CategoryText(category), []);
    match reply
    case Found(_, _) => reply
    case Raised(e) => Found(SearchErrorPrefix + e, [])
  }

  /** The search step of process: route, keep the schemes only when some were
      found (the page then restarts at 0), store the agent's text in the
      history, and answer with the current page of the list now stored. */
  function Route(id: string, st: ContextState, query: string, agents: Agents): (r: TurnResult)
    ensures var a := RouteToAgent(st.category, query, st.history, agents);
      && (|a.schemes| > 0 ==> r.state.schemes == a.schemes && r.state.currentPage == 0)
      && (|a.schemes| == 0 ==> r.state.schemes == st.schemes && r.state.currentPage == st.currentPage)
      && r.state.history == st.history + [Message("assistant", a.text)]
      && r.state.(schemes := st.schemes, currentPage := st.currentPage, history := st.history) == st
      && r.response.response.Listing? && r.response.response.intro == a.text
      && r.response.schemes == CurrentPage(r.state.schemes, r.state.currentPage)
      && r.response.hasMore == HasMore(r.state.schemes, r.state.currentPage)
      && r.response.totalSchemes == |r.state.schemes|
  {
    var r := RouteToAgent(st.category, query, st.history, agents);
    var st1 := if |r.schemes| > 0 then WithSchemes(st, r.schemes) else st;
    var st2 := WithMessage(st1, "assistant", r.text);
    TurnResult(st2, Paginated(id, st2, r.text))
  }

  /** A search that finds nothing, or whose agent raises, keeps the stored list
      and page, records the agent's text (or the error text) as the last
      history entry, and answers with the page that was current before, that
      is, with results of an earlier search. */
  lemma FailedSearchShowsOldPage(id: string, st: ContextState, query: string, agents: Agents)
    requires |RouteToAgent(st.category, query, st.history, agents).schemes| == 0
    ensures var a := RouteToAgent(st.category, query, st.history, agents); var r := Route(id, st, query, agents);
      && r.state.schemes == st.schemes && r.state.currentPage == st.currentPage
      && r.state.history[|r.state.history| - 1] == Message("assistant", a.text)
      && r.response.schemes == CurrentPage(st.schemes, st.currentPage)
      && r.response.totalSchemes == |st.schemes|
  {
  }

  /** When the category's agent raises, the turn's text is the error message
      with the exception's text, and the old list and page stay. */
  lemma SearchErrorKeepsList(id: string, st: ContextState, query: string, agents: Agents, e: string)
    requires || (st.category == Some(FarmerId) && agents.farmer(query, st.history) == Raised(e))
             || (st.category == Some(MsmeId) && agents.msme(query, st.history) == Raised(e))
    ensures var r := Route(id, st, query, agents);
      && r.state.schemes == st.schemes && r.state.currentPage == st.currentPage
      && r.state.history == st.history + [Message("assistant", SearchErrorPrefix + e)]
      && r.response.response
         == Listing(SearchErrorPrefix + e, CurrentPage(st.schemes, st.currentPage), HasMore(st.schemes, st.currentPage))
  {
    FailedSearchShowsOldPage(id, st, query, agents);
  }

  /** Classification when no category is set (UNCLEAR asks for clarification
      and leaves it unset), then the search step. */
  function Converse(id: string, st: ContextState, query: string, agents: Agents, render: Wording): TurnResult {
    if !IsSet(st.category) then Classified(id, st, query, agents, render) else Route(id, st, query, agents)
  }

  /** The turn of a session with no category yet: the classifier's category
      is set and searched, or UNCLEAR asks for clarification. */
  function Classified(id: string, st: ContextState, query: string, agents: Agents, render: Wording): TurnResult {
    match Classify(query)
    case Unclear() =>
      var st' := WithMessage(st, "assistant", render(Clarify));
      TurnResult(st', QueryResponse(id, Clarify, [], false, Some(UnclearId), 0, 0))
    case Category(c) => Route(id, st.(category := Some(c)), query, agents)
  }

  /** The two outcomes of classification: UNCLEAR stores and returns the
      clarifying question, a category is set and searched. */
  lemma ClassifiedCases(id: string, st: ContextState, query: string, agents: Agents, render: Wording)
    ensures Classify(query).Unclear? ==>
      Classified(id, st, query, agents, render)
      == TurnResult(WithMessage(st, "assistant", render(Clarify)), QueryResponse(id, Clarify, [], false, Some(UnclearId), 0, 0))
    ensures Classify(query).Category? ==>
      Classified(id, st, query, agents, render) == Route(id, st.(category := Some(Classify(query).id)), query, agents)
  {
  }

  /** The branches of process once the user message is recorded: the first
      applicable one of interview, scheme inquiry, show more, and
      classification and search. */
  function Dispatch(id: string, st: ContextState, query: string, showMore: bool, agents: Agents, render: Wording): TurnResult {
    var pinned := PinnedScheme(st);
    if st.eligibilityInProgress && pinned.Some? then InterviewTurn(id, st, query, pinned.value, render)
    else if IsSchemeInquiry(query, st.schemes) then SchemeInquiry(id, st, query, render)
    else if showMore && IsSet(st.category) && |st.schemes| > 0 then ShowMore(id, st)
    else Converse(id, st, query, agents, render)
  }

  /** process: the user message is recorded, then the turn is dispatched. */
  function Turn(id: string, st0: ContextState, query: string, showMore: bool, agents: Agents, render: Wording): TurnResult {
    Dispatch(id, WithMessage(st0, "user", query), query, showMore, agents, render)
  }

  // ---------------------------------------------------------------------------
  // Properties of a turn

  lemma PinnedIgnoresHistory(st: ContextState, role: string, content: string)
    ensures PinnedScheme(WithMessage(st, role, content)) == PinnedScheme(st)
  {
  }

  /** The dispatch order of process: interview, inquiry, show-more, then
      classification and search, each only when the earlier ones do not apply. */
  lemma TurnCases(id: string, st0: ContextState, query: string, showMore: bool, agents: Agents, render: Wording)
    ensures var st := WithMessage(st0, "user", query); var r := Turn(id, st0, query, showMore, agents, render);
      var interview := st.eligibilityInProgress && PinnedScheme(st).Some?;
      var inquiry := IsSchemeInquiry(query, st.schemes);
      var more := showMore && IsSet(st.category) && |st.schemes| > 0;
      && (interview ==> r == InterviewTurn(id, st, query, PinnedScheme(st).value, render))
      && (!interview && inquiry ==> r == SchemeInquiry(id, st, query, render))
      && (!interview && !inquiry && more ==> r == ShowMore(id, st))
      && (!interview && !inquiry && !more ==> r == Converse(id, st, query, agents, render))
  {
  }

  /** An interview turn changes only the interview fields and adds one
      assistant message. */
  lemma InterviewTurnFrame(id: string, st: ContextState, query: string, scheme: Scheme, render: Wording)
    ensures var r := InterviewTurn(id, st, query, scheme, render);
      && r.response.response.Asked? && r.response.schemes == [scheme]
      && !r.response.hasMore && r.response.shownSchemes == 0
      && r.state.schemes == st.schemes && r.state.currentPage == st.currentPage
      && r.state.category == st.category && r.state.lastDiscussed == st.lastDiscussed
      && r.state.history == st.history + [Message("assistant", render(r.response.response))]
  {
  }

  /** An interview in progress whose scheme is found takes the turn before
      anything else: the response carries exactly that scheme, no "more", and
      the list, the page, the category and the last discussed scheme stay. */
  lemma InterviewHandledFirst(id: string, st0: ContextState, query: string, showMore: bool, agents: Agents, render: Wording)
    requires st0.eligibilityInProgress && PinnedScheme(st0).Some?
    ensures var r := Turn(id, st0, query, showMore, agents, render);
      && r.response.response.Asked?
      && r.response.schemes == [PinnedScheme(st0).value]
      && !r.response.hasMore && r.response.shownSchemes == 0
      && r.state.schemes == st0.schemes && r.state.currentPage == st0.currentPage
      && r.state.category == st0.category && r.state.lastDiscussed == st0.lastDiscussed
  {
    var st := WithMessage(st0, "user", query);
    PinnedIgnoresHistory(st0, "user", query);
    TurnCases(id, st0, query, showMore, agents, render);
    InterviewTurnFrame(id, st, query, PinnedScheme(st).value, render);
  }

  /** An eligibility request about a scheme while no interview runs starts
      one for that scheme, and while one runs takes the interview's next step;
      other requests are answered without any change, by benefit words first,
      then application words, then the description. */
  lemma SchemeDetailsSpec(st: ContextState, queryLower: string, s: Scheme)
    ensures var h := SchemeDetails(st, queryLower, s);
      && (ContainsAny(queryLower, EligibilityWords) && !st.eligibilityInProgress ==>
            h.reply == StartCheck(s) && h.state == StartInterview(st, s))
      && (ContainsAny(queryLower, EligibilityWords) && st.eligibilityInProgress ==>
            var step := HandleAnswer(st, queryLower, s, SchemeQuestions(s));
            h == Handled(step.state, Asked(step.reply)))
      && (!ContainsAny(queryLower, EligibilityWords) ==> h.state == st)
      && (!ContainsAny(queryLower, EligibilityWords) && ContainsAny(queryLower, BenefitWords) ==>
            h.reply == Benefits(s))
      && ((!ContainsAny(queryLower, EligibilityWords) && !ContainsAny(queryLower, BenefitWords)
             && ContainsAny(queryLower, ApplyWords)) ==> h.reply == HowToApply(s))
      && ((!ContainsAny(queryLower, EligibilityWords) && !ContainsAny(queryLower, BenefitWords)
             && !ContainsAny(queryLower, ApplyWords)) ==> h.reply == Details(s))
      && h.state.schemes == st.schemes && h.state.currentPage == st.currentPage
      && h.state.category == st.category && h.state.lastDiscussed == st.lastDiscussed
      && h.state.history == st.history
  {
  }

  /** A scheme inquiry with no stored schemes, or one the resolver cannot
      settle, changes nothing; a resolved one makes the selected scheme the
      last discussed, adds one assistant message and answers with that scheme
      alone. The list, the page and the category never change. */
  lemma InquiryOutcome(id: string, st: ContextState, query: string, render: Wording)
    ensures var r := SchemeInquiry(id, st, query, render);
      && r.state.schemes == st.schemes && r.state.currentPage == st.currentPage
      && r.state.category == st.category
      && (|st.schemes| == 0 ==> r.state == st && r.response.response == NoSchemesYet && r.response.schemes == [])
      && (|st.schemes| > 0 ==>
            var selected := Resolve(Lower(query), CurrentPage(st.schemes, st.currentPage), st.schemes, st.lastDiscussed);
            && (selected.None? ==> r.state == st && r.response.response == WhichScheme && r.response.schemes == [])
            && (selected.Some? ==>
                  && r.state.lastDiscussed == selected
                  && r.response.schemes == [selected.value]
                  && r.response.totalSchemes == |st.schemes|
                  && !r.response.hasMore
                  && r.state.history == st.history + [Message("assistant", render(r.response.response))]))
  {
    if |st.schemes| > 0 {
      var q := Lower(query);
      var selected := Resolve(q, CurrentPage(st.schemes, st.currentPage), st.schemes, st.lastDiscussed);
      if selected.Some? {
        SchemeDetailsSpec(st.(lastDiscussed := selected), q, selected.value);
      }
    }
  }

  /** Show-more moves forward by one page exactly when more schemes remain, and
      adds nothing to the history. */
  lemma ShowMoreSteps(id: string, st: ContextState)
    ensures var r := ShowMore(id, st);
      && r.state.history == st.history && r.state.schemes == st.schemes && r.state.category == st.category
      && (HasMore(st.schemes, st.currentPage) ==>
            r.state.currentPage == st.currentPage + 1 && r.response.response.intro == MoreSchemesIntro)
      && (!HasMore(st.schemes, st.currentPage) ==> r.state == st && r.response.response.intro == AllSeenIntro)
  {
    AdvanceSteps(st.schemes, st.currentPage);
  }

  /** Typing "show more" with the show-more flag, while no interview runs and a
      category and a list are present, turns the page: the text itself is no
      scheme inquiry unless a stored scheme's name occurs in it. */
  lemma ShowMoreRequestPages(id: string, st0: ContextState, agents: Agents, render: Wording)
    requires !(st0.eligibilityInProgress && PinnedScheme(st0).Some?)
    requires !MentionsName("show more", st0.schemes)
    requires IsSet(st0.category) && |st0.schemes| > 0
    ensures Turn(id, st0, "show more", true, agents, render) == ShowMore(id, WithMessage(st0, "user", "show more"))
  {
    PinnedIgnoresHistory(st0, "user", "show more");
    ShowMoreIsNoInquiry(st0.schemes);
    TurnCases(id, st0, "show more", true, agents, render);
  }

  /** Classification and search: the list is replaced (and the page reset)
      only by a non-empty search result; the category changes only from unset
      to the classifier's answer; UNCLEAR answers with the UNCLEAR category;
      one assistant message is added. */
  lemma ConverseSpec(id: string, st: ContextState, query: string, agents: Agents, render: Wording)
    ensures var r := Converse(id, st, query, agents, render);
      && ((r.state.schemes == st.schemes && r.state.currentPage == st.currentPage)
          || (|r.state.schemes| > 0 && r.state.currentPage == 0))
      && (IsSet(st.category) ==> r.state.category == st.category)
      && (r.state.category != st.category ==>
            !IsSet(st.category) && Classify(query).Category? && r.state.category == Some(Classify(query).id))
      && (!IsSet(st.category) && Classify(query).Unclear? ==>
            r.state.category == st.category && r.response.response == Clarify
            && r.response.category == Some(UnclearId))
      && |r.state.history| == |st.history| + 1 && r.state.history[..|st.history|] == st.history
  {
  }

  /** The page moves only by show-more (one page forward, with the category
      and a non-empty list present) or back to 0 when the search stored a
      non-empty list; the list itself changes only to a non-empty search result. */
  lemma PageMovesOnlyByShowMoreOrSearch(id: string, st0: ContextState, query: string, showMore: bool, agents: Agents, render: Wording)
    ensures var r := Turn(id, st0, query, showMore, agents, render);
      && (r.state.schemes != st0.schemes ==> |r.state.schemes| > 0 && r.state.currentPage == 0)
      && (r.state.currentPage != st0.currentPage ==>
            (r.state.currentPage == 0 && |r.state.schemes| > 0)
            || (showMore && IsSet(st0.category) && |st0.schemes| > 0 && r.state.currentPage == st0.currentPage + 1))
  {
    var st := WithMessage(st0, "user", query);
    TurnCases(id, st0, query, showMore, agents, render);
    if st.eligibilityInProgress && PinnedScheme(st).Some? {
      InterviewTurnFrame(id, st, query, PinnedScheme(st).value, render);
    } else if IsSchemeInquiry(query, st.schemes) {
      InquiryOutcome(id, st, query, render);
    } else if showMore && IsSet(st.category) && |st.schemes| > 0 {
      ShowMoreSteps(id, st);
    } else {
      ConverseSpec(id, st, query, agents, render);
    }
  }

  /** Classification runs only while no category is set; otherwise the category
      becomes the classifier's answer, and UNCLEAR leaves it as it was. */
  lemma ClassificationOnlyWhenUnset(id: string, st0: ContextState, query: string, showMore: bool, agents: Agents, render: Wording)
    ensures var r := Turn(id, st0, query, showMore, agents, render);
      && (IsSet(st0.category) ==> r.state.category == st0.category)
      && (r.state.category != st0.category ==>
            !IsSet(st0.category) && Classify(query).Category? && r.state.category == Some(Classify(query).id))
  {
    var st := WithMessage(st0, "user", query);
    TurnCases(id, st0, query, showMore, agents, render);
    if st.eligibilityInProgress && PinnedScheme(st).Some? {
      InterviewTurnFrame(id, st, query, PinnedScheme(st).value, render);
    } else if IsSchemeInquiry(query, st.schemes) {
      InquiryOutcome(id, st, query, render);
    } else if showMore && IsSet(st.category) && |st.schemes| > 0 {
      ShowMoreSteps(id, st);
    } else {
      ConverseSpec(id, st, query, agents, render);
    }
  }

  /** A classified category is always one of the configured ids. */
  lemma ClassifiedCategoryAllowed(query: string)
    ensures Classify(query).Category? ==> CategoryAllowed(Some(Classify(query).id))
  {
    ClassifySpec(query);
    CategoryIdsAre();
  }

  /** Every turn keeps the pagination invariant, the category restriction, and
      a non-empty list non-empty. */
  lemma TurnKeepsInvariants(id: string, st0: ContextState, query: string, showMore: bool, agents: Agents, render: Wording)
    requires PageValid(st0.schemes, st0.currentPage) && CategoryAllowed(st0.category)
    ensures var r := Turn(id, st0, query, showMore, agents, render);
      && PageValid(r.state.schemes, r.state.currentPage)
      && CategoryAllowed(r.state.category)
      && (|st0.schemes| > 0 ==> |r.state.schemes| > 0)
  {
    var st := WithMessage(st0, "user", query);
    var r := Turn(id, st0, query, showMore, agents, render);
    PageMovesOnlyByShowMoreOrSearch(id, st0, query, showMore, agents, render);
    ClassificationOnlyWhenUnset(id, st0, query, showMore, agents, render);
    ClassifiedCategoryAllowed(query);
    if r.state.currentPage == st0.currentPage + 1 && r.state.schemes == st0.schemes {
      TurnCases(id, st0, query, showMore, agents, render);
      if st.eligibilityInProgress && PinnedScheme(st).Some? {
        InterviewTurnFrame(id, st, query, PinnedScheme(st).value, render);
      } else if IsSchemeInquiry(query, st.schemes) {
        InquiryOutcome(id, st, query, render);
      } else if showMore && IsSet(st.category) && |st.schemes| > 0 {
        ShowMoreSteps(id, st);
        AdvanceSteps(st.schemes, st.currentPage);
      } else {
        ConverseSpec(id, st, query, agents, render);
      }
    }
  }

  /** Every turn appends the user message, then at most one assistant message. */
  lemma TurnHistory(id: string, st0: ContextState, query: string, showMore: bool, agents: Agents, render: Wording)
    ensures var h := Turn(id, st0, query, showMore, agents, render).state.history;
      && |st0.history| + 1 <= |h| <= |st0.history| + 2
      && h[..|st0.history| + 1] == st0.history + [Message("user", query)]
  {
    var st := WithMessage(st0, "user", query);
    TurnCases(id, st0, query, showMore, agents, render);
    if st.eligibilityInProgress && PinnedScheme(st).Some? {
      InterviewTurnFrame(id, st, query, PinnedScheme(st).value, render);
    } else if IsSchemeInquiry(query, st.schemes) {
      InquiryOutcome(id, st, query, render);
    } else if showMore && IsSet(st.category) && |st.schemes| > 0 {
      ShowMoreSteps(id, st);
    } else {
      ConverseSpec(id, st, query, agents, render);
      var h := Converse(id, st, query, agents, render).state.history;
      assert h[..|st0.history| + 1] == h[..|st.history|][..|st0.history| + 1];
    }
  }

  /** shown_schemes counts whole pages and can exceed the total: four schemes
      on their second page report six shown. */
  lemma ShownMayExceedTotal(id: string, st: ContextState, intro: string)
    requires |st.schemes| == 4 && st.currentPage == 1
    ensures var r := Paginated(id, st, intro);
      r.totalSchemes == 4 && r.shownSchemes == 6 && |r.schemes| == 1 && !r.hasMore
  {
  }
}
