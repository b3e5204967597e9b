/** The data model of src/models/schemas.py: the Scheme record, one conversation
    turn, and the per-session ConversationContext, which the dialogue updates
    in place. */
module Schemas {
  import opened Optional
  import opened Text

  /** Scheme: five required text fields; the application process and the url
      default to the empty string. */
  datatype Scheme = Scheme(
    id: string,
    name: string,
    description: string,
    eligibility: string,
    benefits: string,
    applicationProcess: string := "",
    url: string := "")

  /** One entry of conversation_history: {"role": ..., "content": ...}. */
  datatype Message = Message(role: string, content: string)

  /** The value of a ConversationContext at one moment. Eligibility answers are
      stored under "q<N>" in the source; the key N stands for "q<N>" here.
      user_preferences is never read or written by the dialogue core and is
      not part of this model. */
  datatype ContextState = ContextState(
    sessionId: string,
    category: Option<string>,
    history: seq<Message>,
    schemes: seq<Scheme>,
    currentPage: nat,
    lastDiscussed: Option<Scheme>,
    eligibilityInProgress: bool,
    eligibilitySchemeId: Option<string>,
    eligibilityAnswers: map<nat, string>,
    currentQuestion: nat)

  /** ConversationContext(session_id=id) with every other field at its default. */
  function NewContext(id: string): ContextState {
    ContextState(id, None, [], [], 0, None, false, None, map[], 0)
  }

  /** The Literal["FARMER", "MSME"] annotation on `category`. */
  predicate CategoryAllowed(category: Option<string>) {
    category.None? || category.value == "FARMER" || category.value == "MSME"
  }

  /** Python truthiness of an Optional[str] field: set and non-empty. */
  predicate IsSet(s: Option<string>) {
    s.Some? && s.value != ""
  }

  /** add_message on a value: one entry appended at the end. */
  function WithMessage(st: ContextState, role: string, content: string): ContextState {
    st.(history := st.history + [Message(role, content)])
  }

  function MessageLine(m: Message): string {
    m.role + ": " + m.content
  }

  /** get_history_text: one "role: content" line per entry, in order, joined by
      newlines. */
  function HistoryText(history: seq<Message>): string {
    Join(seq(|history|, i requires 0 <= i < |history| => MessageLine(history[i])), "\n")
  }

  /** An empty history renders as "", and appending a message appends exactly
      one line to the rendered text. */
  lemma HistoryTextSnoc(history: seq<Message>, m: Message)
    ensures HistoryText([]) == ""
    ensures HistoryText(history + [m]) ==
      if history == [] then MessageLine(m) else HistoryText(history) + "\n" + MessageLine(m)
  {
    var lines := seq(|history|, i requires 0 <= i < |history| => MessageLine(history[i]));
    var h' := history + [m];
    assert seq(|h'|, i requires 0 <= i < |h'| => MessageLine(h'[i])) == lines + [MessageLine(m)];
    JoinSnoc(lines, MessageLine(m), "\n");
  }

  /** Every entry of the history has its "role: content" line in the text. */
  lemma HistoryTextLines(history: seq<Message>)
    ensures forall i :: 0 <= i < |history| ==> Contains(HistoryText(history), MessageLine(history[i]))
  {
    var lines := seq(|history|, i requires 0 <= i < |history| => MessageLine(history[i]));
    JoinContainsParts(lines, "\n");
    assert forall i :: 0 <= i < |history| ==> lines[i] == MessageLine(history[i]);
  }

  /** ConversationContext: one object per session, shared by reference between
      the session store and the dialogue, and updated in place. */
  class ConversationContext {
    const sessionId: string
    var category: Option<string>
    var history: seq<Message>
    var schemes: seq<Scheme>
    var currentPage: nat
    var lastDiscussed: Option<Scheme>
    var eligibilityInProgress: bool
    var eligibilitySchemeId: Option<string>
    var eligibilityAnswers: map<nat, string>
    var currentQuestion: nat

    function Value(): ContextState
      reads this
    {
      ContextState(sessionId, category, history, schemes, currentPage, lastDiscussed,
        eligibilityInProgress, eligibilitySchemeId, eligibilityAnswers, currentQuestion)
    }

    /** ConversationContext(session_id=id): every field at its declared default. */
    constructor(id: string)
      ensures Value() == NewContext(id)
      ensures sessionId == id && category == None && history == [] && schemes == []
      ensures currentPage == 0 && lastDiscussed == None && !eligibilityInProgress
      ensures eligibilitySchemeId == None && eligibilityAnswers == map[] && currentQuestion == 0
    {
      sessionId := id;
      category := None;
      history := [];
      schemes := [];
      currentPage := 0;
      lastDiscussed := None;
      eligibilityInProgress := false;
      eligibilitySchemeId := None;
      eligibilityAnswers := map[];
      currentQuestion := 0;
    }

    /** add_message: appends one {role, content} entry; earlier entries and every
        other field are unchanged. */
    method AddMessage(role: string, content: string)
      modifies this
      ensures history == old(history) + [Message(role, content)]
      ensures Value() == WithMessage(old(Value()), role, content)
    {
      history := history + [Message(role, content)];
    }

    /** get_history_text. */
    function GetHistoryText(): (text: string)
      reads this
      ensures history == [] ==> text == ""
      ensures forall i :: 0 <= i < |history| ==> Contains(text, MessageLine(history[i]))
    {
      HistoryTextSnoc([], Message("", ""));
      HistoryTextLines(history);
      HistoryText(history)
    }
  }
}
