/** The eligibility interview of MasterAgent (src/agents/master_agent.py): the
    question list derived from a scheme, the counter-driven steps over the
    context's interview fields, and the yes/no verdict. */
module Interview {
  import opened Optional
  import opened Text
  import opened Schemas

  const FarmerQuestions: seq<string> := [
    "Do you own cultivable agricultural land?",
    "Is the land registered in your name or your family's name?",
    "Are you currently using this land for farming/cultivation?",
    "Are you an Indian citizen and resident of India?",
    "Are you or any family member a government employee, constitutional post holder, or income tax payer?"]

  const MsmeQuestions: seq<string> := [
    "Do you own or operate a micro, small, or medium enterprise?",
    "Is your business registered?",
    "Is your business involved in manufacturing or service activities?",
    "Is your enterprise located in India?"]

  const FallbackQuestions: seq<string> := [
    "Are you interested in applying for this scheme?",
    "Do you meet the basic criteria mentioned in the scheme description?"]

  const LandQuestion: string := "Do you own agricultural land?"
  const FarmingQuestion: string := "Are you engaged in farming activities?"
  const BusinessQuestion: string := "Do you own or operate a business?"
  const AgeQuestion: string := "Are you 18 years of age or older?"
  const CitizenQuestion: string := "Are you an Indian citizen/resident?"

  /** The words that start an interview at counter 0. */
  const StartWords: seq<string> := ["yes", "start", "ok", "sure", "ready"]

  predicate IsFarmerName(name: string) {
    Contains(Lower(name), "farmer") || Contains(Lower(name), "kisan")
  }

  predicate IsMsmeName(name: string) {
    Contains(Lower(name), "msme") || Contains(Lower(name), "business")
  }

  function When(cue: bool, q: string): seq<string> {
    if cue then [q] else []
  }

  /** The generic questions: one per cue found in the eligibility text, in the
      order land, farmer, business, age-or-"18", citizen-or-resident. */
  function GenericQuestions(text: string): seq<string> {
    var t := Lower(text);
    When(Contains(t, "land"), LandQuestion)
    + When(Contains(t, "farmer"), FarmingQuestion)
    + When(Contains(t, "business"), BusinessQuestion)
    + When(Contains(t, "age") || Contains(text, "18"), AgeQuestion)
    + When(Contains(t, "citizen") || Contains(t, "resident"), CitizenQuestion)
  }

  /** _parse_eligibility_criteria. The derived list is never empty and never
      longer than five. A farmer name gives the five-question checklist ending
      in the exclusion question; a business name gives the four MSME questions;
      otherwise the generic list when a cue was found and the two fallback
      questions when none was. Five questions arise from a farmer name or from
      a text with all five cues. */
  function Questions(eligibilityText: string, schemeName: string): (qs: seq<string>)
    ensures 1 <= |qs| <= 5
    ensures IsFarmerName(schemeName) ==> qs == FarmerQuestions
    ensures !IsFarmerName(schemeName) && IsMsmeName(schemeName) ==> qs == MsmeQuestions
    ensures !IsFarmerName(schemeName) && !IsMsmeName(schemeName) ==>
      qs == if GenericQuestions(eligibilityText) == [] then FallbackQuestions else GenericQuestions(eligibilityText)
    ensures |qs| == 5 ==>
      IsFarmerName(schemeName) || (!IsMsmeName(schemeName) && |GenericQuestions(eligibilityText)| == 5)
  {
    var qs :=
      if IsFarmerName(schemeName) then FarmerQuestions
      else if IsMsmeName(schemeName) then MsmeQuestions
      else GenericQuestions(eligibilityText);
    if qs == [] then FallbackQuestions else qs
  }

  function SchemeQuestions(scheme: Scheme): seq<string> {
    Questions(scheme.eligibility, scheme.name)
  }

  /** A scheme whose name is neither a farmer nor a business name, and whose
      eligibility text carries all five cues, also gets five questions, so the
      question-5 override of the verdict applies to it as well. */
  lemma GenericFiveQuestions()
    ensures |Questions(FiveCues, "Generic Support Plan")| == 5
  {
    AllFiveCues();
    NoNameCue();
  }

  const FiveCues: string := "land farmer business age citizen"

  lemma AllFiveCues()
    ensures |GenericQuestions(FiveCues)| == 5
  {
    LowerOfLower(FiveCues);
    LandAndFarmerCues();
    OtherCues();
  }

  lemma LandAndFarmerCues()
    ensures Contains(FiveCues, "land") && Contains(FiveCues, "farmer")
  {
    assert FiveCues[0..4] == "land";
    assert OccursAt(FiveCues, "land", 0);
    assert FiveCues == "land " + "farmer" + " business age citizen";
    ContainsInfix("land ", "farmer", " business age citizen");
  }

  lemma OtherCues()
    ensures Contains(FiveCues, "business") && Contains(FiveCues, "age") && Contains(FiveCues, "citizen")
  {
    CueAt("business", 12);
    CueAt("age", 21);
    CueAt("citizen", 25);
  }

  /** A cue found at offset i of FiveCues. */
  lemma CueAt(cue: string, i: nat)
    requires i + |cue| <= |FiveCues| && FiveCues[i..i + |cue|] == cue
    ensures Contains(FiveCues, cue)
  {
    assert OccursAt(FiveCues, cue, i);
  }

  lemma NoNameCue()
    ensures !IsFarmerName("Generic Support Plan") && !IsMsmeName("Generic Support Plan")
  {
    var ln := Lower("Generic Support Plan");
    assert ln == "generic support plan";
    NotContains(ln, "farmer");
    NotContains(ln, "kisan");
    NotContains(ln, "msme");
    NotContains(ln, "business");
  }

  datatype Outcome = NotEligible | Eligible | LimitedEligibility

  /** One turn of the interview, as the user sees it. */
  datatype InterviewReply =
    | Declined
    | Question(number: nat, total: nat, text: string)
    | Verdict(outcome: Outcome, scheme: Scheme)

  datatype Step = Step(state: ContextState, reply: InterviewReply)

  predicate SaysYes(answer: string) {
    Contains(Lower(answer), "yes")
  }

  /** yes_count: the stored answers that contain "yes". */
  function YesCount(answers: map<nat, string>): nat {
    |YesKeys(answers)|
  }

  function YesKeys(answers: map<nat, string>): set<nat> {
    set k | k in answers && SaysYes(answers[k])
  }

  /** The verdict rule. A "yes" to question 5 excludes, and nothing else does;
      without it, the verdict is eligible exactly when at least (questions - 1)
      answers say yes, so a single question is always passed. */
  function Judge(answers: map<nat, string>, questionCount: nat): (v: Outcome)
    ensures v == NotEligible <==> 5 in answers && SaysYes(answers[5])
    ensures v == Eligible <==> !(5 in answers && SaysYes(answers[5])) && YesCount(answers) >= questionCount - 1
    ensures questionCount <= 1 && !(5 in answers && SaysYes(answers[5])) ==> v == Eligible
  {
    if 5 in answers && SaysYes(answers[5]) then NotEligible
    else if YesCount(answers) >= questionCount - 1 then Eligible
    else LimitedEligibility
  }

  /** Starting a check (the eligibility branch of _generate_scheme_details):
      flag on, scheme pinned, answers cleared, counter at 0. */
  function StartInterview(st: ContextState, scheme: Scheme): ContextState {
    st.(eligibilityInProgress := true, eligibilitySchemeId := Some(scheme.id),
        eligibilityAnswers := map[], currentQuestion := 0)
  }

  /** _determine_eligibility: flag and counter reset, answers and pinned id kept. */
  function DetermineEligibility(st: ContextState, scheme: Scheme, questionCount: nat): Step {
    Step(st.(eligibilityInProgress := false, currentQuestion := 0),
         Verdict(Judge(st.eligibilityAnswers, questionCount), scheme))
  }

  /** _ask_next_eligibility_question, given the scheme's question list `qs`
      (the source derives it afresh from the scheme on every call; the
      derivation is deterministic, so callers pass SchemeQuestions(scheme)). */
  function AskNext(st: ContextState, scheme: Scheme, qs: seq<string>): Step {
    if st.currentQuestion >= |qs| then DetermineEligibility(st, scheme, |qs|)
    else Step(st.(currentQuestion := st.currentQuestion + 1),
              Question(st.currentQuestion + 1, |qs|, qs[st.currentQuestion]))
  }

  /** _handle_eligibility_question, with the scheme's question list `qs`. One
      step keeps the counter within the number of questions and changes only
      the interview fields. At counter 0 a reply without a start word changes
      nothing (the flag stays as it was) and a start word asks question 1. At
      counter N > 0 the reply is stored verbatim under N and question N + 1 is
      asked, unless the questions are used up, in which case the verdict
      resets the flag and the counter and keeps the answers. */
  function HandleAnswer(st: ContextState, query: string, scheme: Scheme, qs: seq<string>): (r: Step)
    ensures r.state.currentQuestion <= |qs|
    ensures r.state.(eligibilityInProgress := st.eligibilityInProgress, eligibilityAnswers := st.eligibilityAnswers,
                     currentQuestion := st.currentQuestion) == st
    ensures st.currentQuestion == 0 && !ContainsAny(Lower(query), StartWords) ==> r == Step(st, Declined)
    ensures st.currentQuestion == 0 && ContainsAny(Lower(query), StartWords) && |qs| > 0 ==>
      r == Step(st.(currentQuestion := 1), Question(1, |qs|, qs[0]))
    ensures st.currentQuestion == 0 && ContainsAny(Lower(query), StartWords) && |qs| == 0 ==>
      r == Step(st.(eligibilityInProgress := false), Verdict(Judge(st.eligibilityAnswers, 0), scheme))
    ensures 0 < st.currentQuestion < |qs| ==>
      r == Step(st.(eligibilityAnswers := st.eligibilityAnswers[st.currentQuestion := query],
                    currentQuestion := st.currentQuestion + 1),
                Question(st.currentQuestion + 1, |qs|, qs[st.currentQuestion]))
    ensures 0 < st.currentQuestion && |qs| <= st.currentQuestion ==>
      r.state == st.(eligibilityAnswers := st.eligibilityAnswers[st.currentQuestion := query],
                     eligibilityInProgress := false, currentQuestion := 0)
      && r.reply == Verdict(Judge(r.state.eligibilityAnswers, |qs|), scheme)
  {
    if st.currentQuestion == 0 then
      if ContainsAny(Lower(query), StartWords) then AskNext(st, scheme, qs) else Step(st, Declined)
    else
      AskNext(st.(eligibilityAnswers := st.eligibilityAnswers[st.currentQuestion := query]), scheme, qs)
  }

  /** The interview fed a sequence of replies, one turn each. */
  function Run(st: ContextState, scheme: Scheme, qs: seq<string>, replies: seq<string>): (ContextState, seq<InterviewReply>)
    decreases |replies|
  {
    if replies == [] then (st, [])
    else
      var step := HandleAnswer(st, replies[0], scheme, qs);
      var rest := Run(step.state, scheme, qs, replies[1..]);
      (rest.0, [step.reply] + rest.1)
  }

  /** The answers map after the given answers: the i-th answer (from 1) under i,
      standing for "q<i>". */
  function AnswerMap(answers: seq<string>): map<nat, string> {
    if answers == [] then map[]
    else AnswerMap(answers[..|answers| - 1])[|answers| := answers[|answers| - 1]]
  }

  lemma {:induction false} RunFrom(st: ContextState, scheme: Scheme, qs: seq<string>, answers: seq<string>, k: nat)
    requires 1 <= k <= |qs| && |answers| == |qs|
    requires st.currentQuestion == k && st.eligibilityAnswers == AnswerMap(answers[..k - 1])
    ensures var n := |qs|; var r := Run(st, scheme, qs, answers[k - 1..]);
      && |r.1| == n - k + 1
      && (forall i :: 0 <= i < n - k ==> r.1[i] == Question(k + i + 1, n, qs[k + i]))
      && r.1[n - k] == Verdict(Judge(AnswerMap(answers), n), scheme)
      && r.0 == st.(eligibilityInProgress := false, currentQuestion := 0, eligibilityAnswers := AnswerMap(answers))
    decreases |qs| - k
  {
    var n := |qs|;
    var a := answers[k - 1];
    var step := HandleAnswer(st, a, scheme, qs);
    assert answers[..k][..k - 1] == answers[..k - 1];
    assert st.eligibilityAnswers[k := a] == AnswerMap(answers[..k]);
    var tail := answers[k - 1..];
    assert tail[0] == a && tail[1..] == answers[k..];
    var rest := Run(step.state, scheme, qs, answers[k..]);
    assert Run(st, scheme, qs, tail) == (rest.0, [step.reply] + rest.1);
    if k < n {
      RunFrom(step.state, scheme, qs, answers, k + 1);
      var r := [step.reply] + rest.1;
      assert r[0] == Question(k + 1, n, qs[k]);
      forall i | 1 <= i < n - k
        ensures r[i] == Question(k + i + 1, n, qs[k + i])
      {
        assert r[i] == rest.1[i - 1];
      }
    } else {
      assert answers[..k] == answers;
      assert answers[k..] == [];
    }
  }

  /** A complete interview: from a fresh start (counter 0, no answers), a start
      reply and then one answer per question ask the questions once each, in
      order; the verdict is computed from exactly those answers, stored under
      1..n; the flag and the counter end at false and 0. */
  lemma CompleteInterview(st: ContextState, scheme: Scheme, start: string, answers: seq<string>)
    requires st.currentQuestion == 0 && st.eligibilityAnswers == map[]
    requires ContainsAny(Lower(start), StartWords)
    requires |answers| == |SchemeQuestions(scheme)|
    ensures var qs := SchemeQuestions(scheme); var n := |qs|; var r := Run(st, scheme, qs, [start] + answers);
      && |r.1| == n + 1
      && (forall i :: 0 <= i < n ==> r.1[i] == Question(i + 1, n, qs[i]))
      && r.1[n] == Verdict(Judge(AnswerMap(answers), n), scheme)
      && r.0 == st.(eligibilityInProgress := false, currentQuestion := 0, eligibilityAnswers := AnswerMap(answers))
  {
    var qs := SchemeQuestions(scheme);
    CompleteInterviewWith(st, scheme, qs, start, answers);
  }

  lemma CompleteInterviewWith(st: ContextState, scheme: Scheme, qs: seq<string>, start: string, answers: seq<string>)
    requires st.currentQuestion == 0 && st.eligibilityAnswers == map[]
    requires ContainsAny(Lower(start), StartWords)
    requires 1 <= |qs| && |answers| == |qs|
    ensures var n := |qs|; var r := Run(st, scheme, qs, [start] + answers);
      && |r.1| == n + 1
      && (forall i :: 0 <= i < n ==> r.1[i] == Question(i + 1, n, qs[i]))
      && r.1[n] == Verdict(Judge(AnswerMap(answers), n), scheme)
      && r.0 == st.(eligibilityInProgress := false, currentQuestion := 0, eligibilityAnswers := AnswerMap(answers))
  {
    var first := HandleAnswer(st, start, scheme, qs);
    assert first == Step(st.(currentQuestion := 1), Question(1, |qs|, qs[0]));
    assert ([start] + answers)[1..] == answers[0..];
    assert answers[..0] == [];
    RunFrom(first.state, scheme, qs, answers, 1);
    var rest := Run(first.state, scheme, qs, answers[0..]);
    assert Run(st, scheme, qs, [start] + answers) == (rest.0, [first.reply] + rest.1);
  }

  /** The answers map holds the i-th answer under i for i in 1..n, and nothing
      else. */
  lemma {:induction false} AnswerMapSpec(answers: seq<string>)
    ensures forall k :: k in AnswerMap(answers) <==> 1 <= k <= |answers|
    ensures forall k :: 1 <= k <= |answers| ==> AnswerMap(answers)[k] == answers[k - 1]
  {
    if answers != [] {
      var init := answers[..|answers| - 1];
      AnswerMapSpec(init);
      forall j | 0 <= j < |init|
        ensures init[j] == answers[j]
      {
      }
    }
  }

  lemma CountAtLeast(s: set<nat>, t: set<nat>)
    requires t <= s
    ensures |t| <= |s|
  {
    assert s == t + (s - t);
  }

  /** For a farmer scheme the verdict on five answers is "not eligible" exactly
      when the fifth (the exclusion question) says yes; four yeses and a fifth
      answer without "yes" are eligible. */
  lemma FarmerVerdict(scheme: Scheme, answers: seq<string>)
    requires IsFarmerName(scheme.name) && |answers| == 5
    ensures var v := Judge(AnswerMap(answers), |SchemeQuestions(scheme)|);
      && (v == NotEligible <==> SaysYes(answers[4]))
      && (!SaysYes(answers[4]) && (forall i :: 0 <= i < 4 ==> SaysYes(answers[i])) ==> v == Eligible)
  {
    FiveAnswerVerdict(answers);
  }

  lemma FiveAnswerVerdict(answers: seq<string>)
    requires |answers| == 5
    ensures var v := Judge(AnswerMap(answers), 5);
      && (v == NotEligible <==> SaysYes(answers[4]))
      && (!SaysYes(answers[4]) && (forall i :: 0 <= i < 4 ==> SaysYes(answers[i])) ==> v == Eligible)
  {
    var m := AnswerMap(answers);
    AnswerMapSpec(answers);
    assert 5 in m && m[5] == answers[4];
    if !SaysYes(answers[4]) && (forall i :: 0 <= i < 4 ==> SaysYes(answers[i])) {
      assert m[1] == answers[0] && m[2] == answers[1] && m[3] == answers[2] && m[4] == answers[3];
      FourYeses(m);
    }
  }

  lemma FourYeses(m: map<nat, string>)
    requires forall k :: 1 <= k <= 4 ==> k in m && SaysYes(m[k])
    ensures YesCount(m) >= 4
  {
    var yes := YesKeys(m);
    forall k | k in {1, 2, 3, 4}
      ensures k in yes
    {
      assert 1 <= k <= 4;
    }
    CountAtLeast(yes, {1, 2, 3, 4});
    FourKeys();
  }

  lemma FourKeys()
    ensures var four: set<nat> := {1, 2, 3, 4}; |four| == 4
  {
    assert {1, 2, 3, 4} == {1, 2, 3} + {4} && 4 !in {1, 2, 3};
    assert {1, 2, 3} == {1, 2} + {3} && 3 !in {1, 2};
    assert {1, 2} == {1} + {2} && 2 !in {1};
  }

  /** The worked example: a farmer scheme answered yes, yes, yes, yes, no is
      judged eligible. */
  lemma FarmerEligibleExample(scheme: Scheme)
    requires IsFarmerName(scheme.name)
    ensures Judge(AnswerMap(["yes", "yes", "yes", "yes", "no"]), |SchemeQuestions(scheme)|) == Eligible
  {
    var answers := ["yes", "yes", "yes", "yes", "no"];
    LowerOfLower("yes");
    assert OccursAt("yes", "yes", 0);
    LowerOfLower("no");
    NotContains("no", "yes");
    FarmerVerdict(scheme, answers);
  }
}
