/** src/services/state_service.py: the session store, a dictionary from session
    id to ConversationContext, and pagination over a session's scheme list. */
module StateService {
  import opened Optional
  import opened Schemas

  /** settings.schemes_per_page at its default (config/settings.py:30). */
  const SchemesPerPage: nat := 3

  function Min(a: int, b: int): int {
    if a <= b then a else b
  }

  /** schemes[page*size : page*size + size], with Python's clamping of both
      ends to the length of the list. */
  function CurrentPage(schemes: seq<Scheme>, page: nat): (r: seq<Scheme>)
    ensures |r| == if page * SchemesPerPage >= |schemes| then 0
                   else Min(SchemesPerPage, |schemes| - page * SchemesPerPage)
    ensures forall i :: 0 <= i < |r| ==> r[i] == schemes[page * SchemesPerPage + i]
  {
    var start := page * SchemesPerPage;
    if start >= |schemes| then [] else schemes[start..Min(start + SchemesPerPage, |schemes|)]
  }

  /** has_more_schemes. */
  predicate HasMore(schemes: seq<Scheme>, page: nat) {
    (page + 1) * SchemesPerPage < |schemes|
  }

  /** The page next_page leaves behind. */
  function Advance(schemes: seq<Scheme>, page: nat): nat {
    if HasMore(schemes, page) then page + 1 else page
  }

  /** The pagination invariant: the current page starts inside the list, unless
      it is the first page. */
  predicate PageValid(schemes: seq<Scheme>, page: nat) {
    page == 0 || page * SchemesPerPage < |schemes|
  }

  /** Round trip: on page 0 the current page is the first min(N, size) schemes,
      in their original order. */
  lemma FirstPage(schemes: seq<Scheme>)
    ensures CurrentPage(schemes, 0) == schemes[..Min(|schemes|, SchemesPerPage)]
  {
  }

  /** There are more schemes exactly when the next page would not be empty. */
  lemma HasMoreIffNextPageNonEmpty(schemes: seq<Scheme>, page: nat)
    ensures HasMore(schemes, page) <==> |CurrentPage(schemes, page + 1)| > 0
  {
  }

  /** Under the invariant, a non-empty list always shows a non-empty page. */
  lemma ValidPageNonEmpty(schemes: seq<Scheme>, page: nat)
    requires PageValid(schemes, page) && |schemes| > 0
    ensures |CurrentPage(schemes, page)| > 0
  {
  }

  /** next_page moves forward by exactly one page when there are more schemes
      and is a no-op otherwise, so it is idempotent once the list is exhausted;
      it keeps the pagination invariant. */
  lemma AdvanceSteps(schemes: seq<Scheme>, page: nat)
    ensures HasMore(schemes, page) ==> Advance(schemes, page) == page + 1
    ensures !HasMore(schemes, page) ==> Advance(schemes, page) == page
    ensures !HasMore(schemes, page) ==> Advance(schemes, Advance(schemes, page)) == Advance(schemes, page)
    ensures PageValid(schemes, page) ==> PageValid(schemes, Advance(schemes, page))
  {
  }

  /** Everything the user sees from a page on: that page, then one more page per
      "show more" while more remain. */
  function ShownFrom(schemes: seq<Scheme>, page: nat): seq<Scheme>
    decreases |schemes| - page * SchemesPerPage
  {
    CurrentPage(schemes, page) + if HasMore(schemes, page) then ShownFrom(schemes, page + 1) else []
  }

  /** Paging through with "show more" until it stops shows every remaining scheme
      exactly once, in order; from page 0 that is the whole list. */
  lemma {:induction false} ShownFromIsSuffix(schemes: seq<Scheme>, page: nat)
    requires PageValid(schemes, page)
    ensures page * SchemesPerPage <= |schemes|
    ensures ShownFrom(schemes, page) == schemes[page * SchemesPerPage..]
    decreases |schemes| - page * SchemesPerPage
  {
    var start := page * SchemesPerPage;
    if HasMore(schemes, page) {
      ShownFromIsSuffix(schemes, page + 1);
      assert schemes[start..] == schemes[start..start + SchemesPerPage] + schemes[start + SchemesPerPage..];
    }
  }

  /** With ten schemes, two "show more" requests reach page 2 with more still to
      come ((2+1)*3 = 9 < 10); a third reaches page 3, where nothing remains
      (4*3 = 12 >= 10), and further requests stay there. */
  lemma TenSchemesExample(schemes: seq<Scheme>)
    requires |schemes| == 10
    ensures Advance(schemes, Advance(schemes, 0)) == 2 && HasMore(schemes, 2)
    ensures Advance(schemes, 2) == 3 && !HasMore(schemes, 3) && Advance(schemes, 3) == 3
    ensures |CurrentPage(schemes, 3)| == 1
  {
  }

  /** The context found under an id, or the one get_or_create would make. */
  function Lookup(m: map<string, ContextState>, id: string): ContextState {
    if id in m then m[id] else NewContext(id)
  }

  /** set_schemes on a value: new list, first page, nothing else changed. */
  function WithSchemes(st: ContextState, schemes: seq<Scheme>): ContextState {
    st.(schemes := schemes, currentPage := 0)
  }

  /** next_page on a value. */
  function WithNextPage(st: ContextState): ContextState {
    st.(currentPage := Advance(st.schemes, st.currentPage))
  }

  lemma UpdateSame(m: map<string, ContextState>, k: string)
    requires k in m
    ensures m[k := Lookup(m, k)] == m
  {
  }

  lemma UpdateTwice(m: map<string, ContextState>, k: string, a: ContextState, b: ContextState)
    ensures m[k := a][k := b] == m[k := b]
  {
  }

  /** StateService: the session dictionary. Each session has its own context
      object (Valid), so updating one session leaves the others alone. */
  class StateService {
    var sessions: map<string, ConversationContext>
    /** The key each stored context object is filed under. */
    ghost var owner: map<ConversationContext, string>

    /** Every stored context is filed under exactly one key. */
    ghost predicate Valid()
      reads this
    {
      forall k :: k in sessions ==> sessions[k] in owner && owner[sessions[k]] == k
    }

    /** No context object is shared between two sessions. */
    lemma NoSharedContexts(a: string, b: string)
      requires Valid() && a in sessions && b in sessions && a != b
      ensures sessions[a] != sessions[b]
    {
    }

    /** The value of every session. */
    ghost function Sessions(): map<string, ContextState>
      reads this, sessions.Values
    {
      map k | k in sessions :: sessions[k].Value()
    }

    constructor()
      ensures Valid() && sessions == map[] && Sessions() == map[]
    {
      sessions := map[];
      owner := map[];
    }

    /** When only the context under `id` has changed since `old`, the session
        values differ from the old ones at `id` alone. */
    twostate lemma OthersUnchanged(id: string)
      requires old(Valid()) && id in old(sessions) && sessions == old(sessions) && owner == old(owner)
      requires forall k :: k in sessions && k != id ==> unchanged(sessions[k])
      ensures Valid()
      ensures Sessions() == old(Sessions())[id := sessions[id].Value()]
    {
      forall k | k in sessions && k != id
        ensures sessions[k].Value() == old(sessions[k].Value())
      {
      }
    }

    /** get_or_create: an existing context is returned as it is; otherwise a new
        one with every field at its default is stored and returned. */
    method GetOrCreate(id: string) returns (ctx: ConversationContext)
      requires Valid()
      modifies this
      ensures Valid()
      ensures id in sessions && sessions[id] == ctx
      ensures id in old(sessions) ==> unchanged(this)
      ensures id !in old(sessions) ==> fresh(ctx) && sessions == old(sessions)[id := ctx]
      ensures sessions.Keys == old(sessions.Keys) + {id}
      ensures forall k :: k in old(sessions) ==> sessions[k] == old(sessions[k])
      ensures ctx.Value() == Lookup(old(Sessions()), id)
      ensures Sessions() == old(Sessions())[id := Lookup(old(Sessions()), id)]
    {
      if id !in sessions {
        ctx := new ConversationContext(id);
        assert forall k :: k in sessions ==> sessions[k] != ctx;
        sessions := sessions[id := ctx];
        owner := owner[ctx := id];
      } else {
        ctx := sessions[id];
      }
    }

    /** update_category: sets only the category, creating the session if absent. */
    method UpdateCategory(id: string, category: string)
      requires Valid()
      modifies this, sessions.Values
      ensures Valid()
      ensures sessions.Keys == old(sessions.Keys) + {id}
      ensures forall k :: k in old(sessions) ==> sessions[k] == old(sessions[k])
      ensures id in old(sessions) ==> sessions == old(sessions)
      ensures Sessions() == old(Sessions())[id := Lookup(old(Sessions()), id).(category := Some(category))]
    {
      var ctx := GetOrCreate(id);
      ghost var created, st := Sessions(), ctx.Value();
      label Created:
      ctx.category := Some(category);
      OthersUnchanged@Created(id);
      UpdateTwice(old(Sessions()), id, st, ctx.Value());
    }

    /** set_schemes: replaces the list and returns to the first page; every other
        field and every other session is unchanged. */
    method SetSchemes(id: string, schemes: seq<Scheme>)
      requires Valid()
      modifies this, sessions.Values
      ensures Valid()
      ensures sessions.Keys == old(sessions.Keys) + {id}
      ensures forall k :: k in old(sessions) ==> sessions[k] == old(sessions[k])
      ensures id in old(sessions) ==> sessions == old(sessions)
      ensures Sessions() == old(Sessions())[id := WithSchemes(Lookup(old(Sessions()), id), schemes)]
    {
      var ctx := GetOrCreate(id);
      ghost var created, st := Sessions(), ctx.Value();
      label Created:
      ctx.schemes := schemes;
      ctx.currentPage := 0;
      OthersUnchanged@Created(id);
      UpdateTwice(old(Sessions()), id, st, ctx.Value());
    }

    /** get_current_schemes: the current page of the session's list. */
    method GetCurrentSchemes(id: string) returns (page: seq<Scheme>)
      requires Valid()
      modifies this
      ensures Valid()
      ensures id in old(sessions) ==> unchanged(this)
      ensures Sessions() == old(Sessions())[id := Lookup(old(Sessions()), id)]
      ensures page == CurrentPage(Lookup(old(Sessions()), id).schemes, Lookup(old(Sessions()), id).currentPage)
    {
      var ctx := GetOrCreate(id);
      page := CurrentPage(ctx.schemes, ctx.currentPage);
    }

    /** has_more_schemes. */
    method HasMoreSchemes(id: string) returns (more: bool)
      requires Valid()
      modifies this
      ensures Valid()
      ensures id in old(sessions) ==> unchanged(this)
      ensures Sessions() == old(Sessions())[id := Lookup(old(Sessions()), id)]
      ensures more == HasMore(Lookup(old(Sessions()), id).schemes, Lookup(old(Sessions()), id).currentPage)
    {
      var ctx := GetOrCreate(id);
      more := HasMore(ctx.schemes, ctx.currentPage);
    }

    /** next_page: one page forward when there are more schemes, else nothing. */
    method NextPage(id: string)
      requires Valid()
      modifies this, sessions.Values
      ensures Valid()
      ensures sessions.Keys == old(sessions.Keys) + {id}
      ensures forall k :: k in old(sessions) ==> sessions[k] == old(sessions[k])
      ensures id in old(sessions) ==> sessions == old(sessions)
      ensures Sessions() == old(Sessions())[id := WithNextPage(Lookup(old(Sessions()), id))]
    {
      var ctx := GetOrCreate(id);
      if HasMore(ctx.schemes, ctx.currentPage) {
        ghost var created := Sessions();
        TurnPage(id, ctx);
        UpdateTwice(old(Sessions()), id, created[id], ctx.Value());
      }
    }

    /** The increment of next_page on the context stored under `id`. */
    method TurnPage(id: string, ctx: ConversationContext)
      requires Valid() && id in sessions && sessions[id] == ctx
      modifies ctx
      ensures Valid()
      ensures Sessions() == old(Sessions())[id := old(ctx.Value()).(currentPage := old(ctx.currentPage) + 1)]
    {
      label Before:
      ctx.currentPage := ctx.currentPage + 1;
      OthersUnchanged@Before(id);
    }

    /** delete_session: removes that key only; an absent key is a no-op. */
    method DeleteSession(id: string)
      requires Valid()
      modifies this
      ensures Valid()
      ensures sessions == old(sessions) - {id}
      ensures Sessions() == old(Sessions()) - {id}
    {
      if id in sessions {
        sessions := sessions - {id};
      }
    }
  }
}
