/** MasterAgent (src/agents/master_agent.py) as an object over the session
    store: each handler updates the session's context in place, and each is
    proved to do what the function of the same step in Dialogue says. */
module Master {
  import opened Optional
  import opened Text
  import opened Schemas
  import opened StateService
  import opened Classifier
  import opened Resolver
  import opened Interview
  import opened Rendering
  import opened Dialogue

  /** The loop of process that looks a pinned scheme up by its id. */
  method FindSchemeById(schemes: seq<Scheme>, id: string) returns (found: Option<Scheme>)
    ensures found == FirstWithId(schemes, id)
  {
    found := None;
    var i := 0;
    while i < |schemes|
      invariant 0 <= i <= |schemes|
      invariant FirstWithId(schemes, id) == FirstWithId(schemes[i..], id)
    {
      if schemes[i].id == id {
        found := Some(schemes[i]);
        return;
      }
      assert schemes[i..][1..] == schemes[i + 1..];
      i := i + 1;
    }
  }

  class MasterAgent {
    /** The session store every turn reads and writes. */
    const store: StateService
    /** The farmer and MSME search agents. */
    const agents: Agents
    /** The wording of the replies stored in the history: the source's texts. */
    const render: Wording

    constructor(store: StateService, agents: Agents)
      ensures this.store == store && this.agents == agents && render == ReplyText
    {
      this.store := store;
      this.agents := agents;
      render := ReplyText;
    }

    /** `ctx` is the context object the store keeps under `id`. */
    ghost predicate Holds(id: string, ctx: ConversationContext)
      reads store
    {
      store.Valid() && id in store.sessions && store.sessions[id] == ctx
    }

    /** _handle_eligibility_question. */
    method HandleEligibilityQuestion(query: string, scheme: Scheme, ctx: ConversationContext)
      returns (reply: InterviewReply)
      modifies ctx
      ensures Step(ctx.Value(), reply) == HandleAnswer(old(ctx.Value()), query, scheme, SchemeQuestions(scheme))
    {
      if ctx.currentQuestion == 0 {
        if ContainsAny(Lower(query), StartWords) {
          reply := AskNextEligibilityQuestion(scheme, ctx);
        } else {
          reply := Declined;
        }
        return;
      }
      var questionNum := ctx.currentQuestion;
      ctx.eligibilityAnswers := ctx.eligibilityAnswers[questionNum := query];
      reply := AskNextEligibilityQuestion(scheme, ctx);
    }

    /** _ask_next_eligibility_question. */
    method AskNextEligibilityQuestion(scheme: Scheme, ctx: ConversationContext) returns (reply: InterviewReply)
      modifies ctx
      ensures Step(ctx.Value(), reply) == AskNext(old(ctx.Value()), scheme, SchemeQuestions(scheme))
    {
      var questions := Questions(scheme.eligibility, scheme.name);
      if ctx.currentQuestion >= |questions| {
        reply := DetermineEligibility(scheme, ctx, questions);
        return;
      }
      var question := questions[ctx.currentQuestion];
      ctx.currentQuestion := ctx.currentQuestion + 1;
      reply := Question(ctx.currentQuestion, |questions|, question);
    }

    /** _determine_eligibility. */
    method DetermineEligibility(scheme: Scheme, ctx: ConversationContext, questions: seq<string>)
      returns (reply: InterviewReply)
      modifies ctx
      ensures Step(ctx.Value(), reply) == Interview.DetermineEligibility(old(ctx.Value()), scheme, |questions|)
    {
      var answers := ctx.eligibilityAnswers;
      var yesCount := YesCount(answers);
      ctx.eligibilityInProgress := false;
      ctx.currentQuestion := 0;
      if 5 in answers && SaysYes(answers[5]) {
        reply := Verdict(NotEligible, scheme);
      } else if yesCount >= |questions| - 1 {
        reply := Verdict(Eligible, scheme);
      } else {
        reply := Verdict(LimitedEligibility, scheme);
      }
    }

    /** _generate_scheme_details. */
    method GenerateSchemeDetails(queryLower: string, scheme: Scheme, ctx: ConversationContext) returns (reply: Reply)
      modifies ctx
      ensures Handled(ctx.Value(), reply) == SchemeDetails(old(ctx.Value()), queryLower, scheme)
    {
      if ContainsAny(queryLower, EligibilityWords) {
        if ctx.eligibilityInProgress {
          var step := HandleEligibilityQuestion(queryLower, scheme, ctx);
          return Asked(step);
        }
        ctx.eligibilityInProgress := true;
        ctx.eligibilitySchemeId := Some(scheme.id);
        ctx.eligibilityAnswers := map[];
        ctx.currentQuestion := 0;
        return StartCheck(scheme);
      }
      if ContainsAny(queryLower, BenefitWords) {
        return Benefits(scheme);
      }
      if ContainsAny(queryLower, ApplyWords) {
        return HowToApply(scheme);
      }
      return Details(scheme);
    }

    /** _handle_scheme_inquiry: the page comes from the store, the selection
        from the resolver, the answer from _generate_scheme_details. */
    method HandleSchemeInquiry(query: string, id: string, ctx: ConversationContext) returns (resp: QueryResponse)
      requires Holds(id, ctx)
      modifies store, store.sessions.Values
      ensures Holds(id, ctx) && store.sessions == old(store.sessions)
      ensures var t := SchemeInquiry(id, old(ctx.Value()), query, render);
        store.Sessions() == old(store.Sessions())[id := t.state] && resp == t.response
    {
      if |ctx.schemes| == 0 {
        UpdateSame(store.Sessions(), id);
        return QueryResponse(id, NoSchemesYet, [], false, ctx.category, 0, 0);
      }
      var queryLower := Lower(query);
      ghost var before := store.Sessions();
      var currentSchemes := store.GetCurrentSchemes(id);
      UpdateSame(before, id);
      var selected := SelectScheme(queryLower, currentSchemes, ctx.schemes, ctx.lastDiscussed);
      if selected.None? {
        return QueryResponse(id, WhichScheme, [], false, ctx.category, 0, 0);
      }
      label Selected:
      ctx.lastDiscussed := selected;
      var reply := GenerateSchemeDetails(queryLower, selected.value, ctx);
      ctx.AddMessage("assistant", render(reply));
      store.OthersUnchanged@Selected(id);
      resp := QueryResponse(id, reply, [selected.value], false, ctx.category, |ctx.schemes|, 0);
    }

    /** _create_paginated_response: the current page, whether more remain, and
        the counts, all read from the store. */
    method CreatePaginatedResponse(id: string, intro: string) returns (resp: QueryResponse)
      requires store.Valid()
      modifies store
      ensures store.Valid() && id in store.sessions
      ensures id in old(store.sessions) ==> store.sessions == old(store.sessions)
      ensures store.Sessions() == old(store.Sessions())[id := Lookup(old(store.Sessions()), id)]
      ensures resp == Paginated(id, Lookup(old(store.Sessions()), id), intro)
    {
      var ctx := store.GetOrCreate(id);
      ghost var created := store.Sessions();
      var currentSchemes := store.GetCurrentSchemes(id);
      var more := store.HasMoreSchemes(id);
      UpdateSame(created, id);
      resp := QueryResponse(id, Listing(intro, currentSchemes, more), currentSchemes, more,
                            ctx.category, |ctx.schemes|, (ctx.currentPage + 1) * SchemesPerPage);
    }

    /** _handle_show_more. */
    method HandleShowMore(id: string) returns (resp: QueryResponse)
      requires store.Valid() && id in store.sessions
      modifies store, store.sessions.Values
      ensures store.Valid() && store.sessions == old(store.sessions)
      ensures var t := ShowMore(id, old(store.Sessions())[id]);
        store.Sessions() == old(store.Sessions())[id := t.state] && resp == t.response
    {
      ghost var before := store.Sessions();
      var more := store.HasMoreSchemes(id);
      UpdateSame(before, id);
      var intro;
      if more {
        store.NextPage(id);
        intro := MoreSchemesIntro;
      } else {
        intro := AllSeenIntro;
      }
      ghost var after := store.Sessions();
      resp := CreatePaginatedResponse(id, intro);
      UpdateSame(after, id);
    }

    /** The interview branch of process: the pinned scheme's interview step,
        its reply stored as the assistant message. */
    method AnswerInterview(query: string, id: string, ctx: ConversationContext, scheme: Scheme)
      returns (resp: QueryResponse)
      requires Holds(id, ctx)
      modifies store, store.sessions.Values
      ensures Holds(id, ctx) && store.sessions == old(store.sessions)
      ensures var t := InterviewTurn(id, old(ctx.Value()), query, scheme, render);
        store.Sessions() == old(store.Sessions())[id := t.state] && resp == t.response
    {
      label Asking:
      var step := HandleEligibilityQuestion(query, scheme, ctx);
      var reply := Asked(step);
      ctx.AddMessage("assistant", render(reply));
      store.OthersUnchanged@Asking(id);
      resp := QueryResponse(id, reply, [scheme], false, ctx.category, |ctx.schemes|, 0);
    }

    /** The search step of process: _route_to_agent, set_schemes when schemes
        came back, the agent's text into the history, then the page. */
    method SearchAndRespond(query: string, id: string, ctx: ConversationContext) returns (resp: QueryResponse)
      requires Holds(id, ctx)
      modifies store, store.sessions.Values
      ensures Holds(id, ctx) && store.sessions == old(store.sessions)
      ensures var t := Route(id, old(ctx.Value()), query, agents);
        store.Sessions() == old(store.Sessions())[id := t.state] && resp == t.response
    {
      var result := RouteToAgent(ctx.category, query, ctx.history, agents);
      if |result.schemes| > 0 {
        store.SetSchemes(id, result.schemes);
      }
      ghost var st1 := ctx.Value();
      label Stored:
      ctx.AddMessage("assistant", result.text);
      store.OthersUnchanged@Stored(id);
      UpdateTwice(old(store.Sessions()), id, st1, ctx.Value());
      ghost var answered := store.Sessions();
      resp := CreatePaginatedResponse(id, result.text);
      UpdateSame(answered, id);
    }

    /** The UNCLEAR answer of process: the clarification of _ask_clarification
        is stored and returned with the UNCLEAR category. */
    method AskClarification(query: string, id: string, ctx: ConversationContext) returns (resp: QueryResponse)
      requires Holds(id, ctx)
      modifies store, store.sessions.Values
      ensures Holds(id, ctx) && store.sessions == old(store.sessions)
      ensures store.Sessions() == old(store.Sessions())[id := WithMessage(old(ctx.Value()), "assistant", render(Clarify))]
      ensures resp == QueryResponse(id, Clarify, [], false, Some(UnclearId), 0, 0)
    {
      label Clarifying:
      ctx.AddMessage("assistant", render(Clarify));
      store.OthersUnchanged@Clarifying(id);
      resp := QueryResponse(id, Clarify, [], false, Some(UnclearId), 0, 0);
    }

    /** A classified category is set on the context and through
        update_category, then the search step runs. */
    method SearchInCategory(query: string, id: string, ctx: ConversationContext, category: string)
      returns (resp: QueryResponse)
      requires Holds(id, ctx)
      modifies store, store.sessions.Values
      ensures Holds(id, ctx) && store.sessions == old(store.sessions)
      ensures var t := Route(id, old(ctx.Value()).(category := Some(category)), query, agents);
        store.Sessions() == old(store.Sessions())[id := t.state] && resp == t.response
    {
      label Classifying:
      ctx.category := Some(category);
      store.OthersUnchanged@Classifying(id);
      ghost var classified := ctx.Value();
      store.UpdateCategory(id, category);
      UpdateTwice(old(store.Sessions()), id, classified, ctx.Value());
      ghost var routed := ctx.Value();
      resp := SearchAndRespond(query, id, ctx);
      UpdateTwice(old(store.Sessions()), id, routed, ctx.Value());
    }

    /** Classification while no category is set (_classify_intent on the query
        and the history text; UNCLEAR gets the clarification), then the search. */
    method ClassifyAndSearch(query: string, id: string, ctx: ConversationContext) returns (resp: QueryResponse)
      requires Holds(id, ctx) && !IsSet(ctx.category)
      modifies store, store.sessions.Values
      ensures Holds(id, ctx) && store.sessions == old(store.sessions)
      ensures var t := Classified(id, old(ctx.Value()), query, agents, render);
        store.Sessions() == old(store.Sessions())[id := t.state] && resp == t.response
    {
      var category := ClassifyIntent(query, ctx.GetHistoryText());
      assert Holds(id, ctx) && ctx.Value() == old(ctx.Value()) && store.Sessions() == old(store.Sessions());
      ClassifiedCases(id, ctx.Value(), query, agents, render);
      if category.Unclear? {
        resp := AskClarification(query, id, ctx);
      } else {
        resp := SearchInCategory(query, id, ctx, category.id);
      }
    }

    /** The scheme of the interview in progress, when there is one: the last
        discussed scheme, else the listed scheme with the pinned id. */
    method InterviewScheme(ctx: ConversationContext) returns (scheme: Option<Scheme>)
      ensures scheme == if ctx.eligibilityInProgress then PinnedScheme(ctx.Value()) else None
    {
      scheme := None;
      if ctx.eligibilityInProgress {
        if ctx.lastDiscussed.Some? {
          scheme := ctx.lastDiscussed;
        } else if IsSet(ctx.eligibilitySchemeId) {
          scheme := FindSchemeById(ctx.schemes, ctx.eligibilitySchemeId.value);
        }
      }
    }

    /** The branches of process after the user message is recorded. */
    method Dispatch(query: string, id: string, showMore: bool, ctx: ConversationContext, ghost st0: ContextState)
      returns (resp: QueryResponse)
      requires Holds(id, ctx) && ctx.Value() == WithMessage(st0, "user", query)
      modifies store, store.sessions.Values
      ensures Holds(id, ctx) && store.sessions == old(store.sessions)
      ensures var t := Turn(id, st0, query, showMore, agents, render);
        store.Sessions() == old(store.Sessions())[id := t.state] && resp == t.response
    {
      var scheme := InterviewScheme(ctx);
      if scheme.Some? {
        resp := AnswerInterview(query, id, ctx, scheme.value);
      } else if IsSchemeInquiry(query, ctx.schemes) {
        resp := HandleSchemeInquiry(query, id, ctx);
      } else if showMore && IsSet(ctx.category) && |ctx.schemes| > 0 {
        resp := HandleShowMore(id);
      } else if !IsSet(ctx.category) {
        resp := ClassifyAndSearch(query, id, ctx);
      } else {
        resp := SearchAndRespond(query, id, ctx);
      }
    }

    /** The start of process: get_or_create, then the user message. */
    method RecordQuery(query: string, id: string) returns (ctx: ConversationContext)
      requires store.Valid()
      modifies store, store.sessions.Values
      ensures Holds(id, ctx)
      ensures store.sessions.Keys == old(store.sessions.Keys) + {id}
      ensures forall k :: k in old(store.sessions) ==> store.sessions[k] == old(store.sessions[k])
      ensures id !in old(store.sessions) ==> fresh(ctx)
      ensures ctx.Value() == WithMessage(Lookup(old(store.Sessions()), id), "user", query)
      ensures store.Sessions() == old(store.Sessions())[id := ctx.Value()]
    {
      ctx := store.GetOrCreate(id);
      ghost var st0 := ctx.Value();
      label Created:
      ctx.AddMessage("user", query);
      store.OthersUnchanged@Created(id);
      UpdateTwice(old(store.Sessions()), id, st0, ctx.Value());
    }

    /** process: one user turn of the session `id`. The store ends up holding
        exactly the context value Dialogue.Turn computes from the old one, the
        response is Turn's, and no other session changes. */
    method Process(query: string, id: string, showMore: bool) returns (resp: QueryResponse)
      requires store.Valid()
      modifies store, store.sessions.Values
      ensures store.Valid()
      ensures store.sessions.Keys == old(store.sessions.Keys) + {id}
      ensures forall k :: k in old(store.sessions) ==> store.sessions[k] == old(store.sessions[k])
      ensures var t := Turn(id, Lookup(old(store.Sessions()), id), query, showMore, agents, render);
        store.Sessions() == old(store.Sessions())[id := t.state] && resp == t.response
    {
      ghost var st0 := Lookup(store.Sessions(), id);
      var ctx := RecordQuery(query, id);
      ghost var st := ctx.Value();
      resp := Dispatch(query, id, showMore, ctx, st0);
      UpdateTwice(old(store.Sessions()), id, st, ctx.Value());
    }
  }
}
