/** The texts MasterAgent sends back (src/agents/master_agent.py): the brief
    listing of a page of schemes, and the reply of every dialogue branch as a
    tagged value together with its exact wording. */
module Rendering {
  import opened Text
  import opened Schemas
  import opened Interview
  import opened Categories

  /** Descriptions longer than this are cut in the brief listing. */
  const BriefLimit: nat := 150

  const NoSchemesFound: string :=
    "I couldn't find any schemes matching your requirements. Please try rephrasing your query."

  /** The short description of the brief listing: at most 150 characters; a
      longer text keeps its first 147 and ends in "...". */
  function ShortDescription(d: string): (r: string)
    ensures |r| <= BriefLimit
    ensures |d| <= BriefLimit ==> r == d
    ensures |d| > BriefLimit ==> |r| == BriefLimit && r[..BriefLimit - 3] == d[..BriefLimit - 3] && r[BriefLimit - 3..] == "..."
  {
    if |d| > BriefLimit then d[..BriefLimit - 3] + "..." else d
  }

  /** Shortening is idempotent: a short description is short already. */
  lemma ShortDescriptionIdempotent(d: string)
    ensures ShortDescription(ShortDescription(d)) == ShortDescription(d)
  {
  }

  /** One numbered entry of the listing. */
  function BriefEntry(number: nat, s: Scheme): string {
    "\n**" + NatToString(number) + ". " + s.name + "**\n" + "   " + ShortDescription(s.description) + "\n"
  }

  /** The entries of a page, numbered from 1 whatever the page. */
  function BriefEntries(page: seq<Scheme>): seq<string> {
    seq(|page|, i requires 0 <= i < |page| => BriefEntry(i + 1, page[i]))
  }

  /** _format_schemes_brief. */
  function FormatSchemesBrief(page: seq<Scheme>): string {
    if |page| == 0 then NoSchemesFound else Join(BriefEntries(page), "\n")
  }

  /** The listing of a non-empty page shows one entry per scheme, numbered from 1
      in page order, each with the scheme's name and short description; an empty
      page shows only the fixed "couldn't find" text. */
  lemma BriefListing(page: seq<Scheme>)
    ensures |page| == 0 ==> FormatSchemesBrief(page) == NoSchemesFound
    ensures forall i :: 0 <= i < |page| ==> Contains(FormatSchemesBrief(page), BriefEntry(i + 1, page[i]))
  {
    if |page| > 0 {
      var entries := BriefEntries(page);
      JoinContainsParts(entries, "\n");
      assert forall i :: 0 <= i < |page| ==> entries[i] == BriefEntry(i + 1, page[i]);
    }
  }

  /** _format_schemes_brief: the loop over the page that collects the entries,
      then the join. */
  method FormatBrief(page: seq<Scheme>) returns (text: string)
    ensures text == FormatSchemesBrief(page)
  {
    if |page| == 0 {
      return NoSchemesFound;
    }
    var formatted: seq<string> := [];
    var i := 0;
    while i < |page|
      invariant 0 <= i <= |page|
      invariant formatted == BriefEntries(page[..i])
    {
      var shortDesc := page[i].description;
      if |shortDesc| > BriefLimit {
        shortDesc := shortDesc[..BriefLimit - 3] + "...";
      }
      var entry := "\n**" + NatToString(i + 1) + ". " + page[i].name + "**\n";
      entry := entry + "   " + shortDesc + "\n";
      formatted := formatted + [entry];
      assert page[..i + 1][..i] == page[..i];
      i := i + 1;
    }
    assert page[..i] == page;
    text := Join(formatted, "\n");
  }

  const MoreHint: string := "\n\n\U{1F4A1} Want to see more schemes? Just say 'show more'!"

  const LearnMoreTips: string :=
    "\n\n\U{1F4CC} **To learn more about any scheme, just ask:**"
    + "\n\U{2022} 'Tell me more about scheme 1'"
    + "\n\U{2022} 'What are the benefits of the first scheme?'"
    + "\n\U{2022} 'Am I eligible for scheme 2?'"
    + "\n\U{2022} 'How do I apply for the third scheme?'"

  /** What a turn answers, as a tagged value carrying its key fields. */
  datatype Reply =
    | Asked(step: InterviewReply)
    | StartCheck(scheme: Scheme)
    | Benefits(scheme: Scheme)
    | HowToApply(scheme: Scheme)
    | Details(scheme: Scheme)
    | NoSchemesYet
    | WhichScheme
    | Clarify
    | Listing(intro: string, page: seq<Scheme>, hasMore: bool)

  /** _create_paginated_response's text: the intro, the brief listing, the
      "show more" hint when more remain, and the tips. */
  function ListingText(intro: string, page: seq<Scheme>, hasMore: bool): string {
    intro + "\n\n" + FormatSchemesBrief(page) + (if hasMore then MoreHint else "") + LearnMoreTips
  }

  /** The listing carries the "show more" hint whenever more schemes remain. */
  lemma ListingHint(intro: string, page: seq<Scheme>, hasMore: bool)
    ensures hasMore ==> Contains(ListingText(intro, page, hasMore), MoreHint)
    ensures Contains(ListingText(intro, page, hasMore), FormatSchemesBrief(page))
  {
    PartsOccur(intro + "\n\n", FormatSchemesBrief(page), if hasMore then MoreHint else "", LearnMoreTips);
  }

  /** The two middle parts of a four-part concatenation occur in it. */
  lemma PartsOccur(a: string, b: string, c: string, d: string)
    ensures Contains(a + b + c + d, b) && Contains(a + b + c + d, c)
  {
    assert a + b + c + d == a + b + (c + d);
    ContainsInfix(a, b, c + d);
    ContainsInfix(a + b, c, d);
  }

  function Heading(s: Scheme): string {
    "**" + s.name + "**\n\n"
  }

  function VerdictText(outcome: Outcome, s: Scheme): string {
    Heading(s) + "\U{1F4CA} **Eligibility Assessment Result:**\n\n"
    + match outcome
      case NotEligible =>
        "\U{274C} **Unfortunately, you may not be eligible** for this scheme.\n\n"
        + "Based on your answers, government employees, constitutional post holders, and income tax payers are excluded from this scheme.\n\n"
        + "\U{1F4A1} However, I can help you find other schemes you might be eligible for!"
      case Eligible =>
        "\U{2705} **Great news! You appear to be eligible** for this scheme! \U{1F389}\n\n"
        + (if s.benefits != "" then "\U{1F4B0} **Benefits you'll receive:**\n" + s.benefits + "\n\n" else "")
        + "Would you like to know how to apply?"
      case LimitedEligibility =>
        "\U{26A0}\U{FE0F} **You may have limited eligibility** for this scheme.\n\n"
        + "Based on your answers, you might not meet all the criteria. However, I recommend:\n"
        + "\U{2022} Checking with the local agriculture/MSME office\n"
        + "\U{2022} Looking at other similar schemes\n\n"
        + "Would you like me to show you more schemes?"
  }

  function InterviewText(r: InterviewReply): string {
    match r
    case Declined =>
      "No problem! Let me know if you'd like to explore other schemes or need any other help."
    case Question(number, total, text) =>
      "**Question " + NatToString(number) + "/" + NatToString(total) + "**\n\n"
      + "\U{2753} " + text + "\n\n" + "Please answer with 'yes' or 'no'."
    case Verdict(outcome, s) => VerdictText(outcome, s)
  }

  /** The clarification of _ask_clarification: the category names joined by
      " or ". */
  function ClarifyText(): string {
    "To help you better, could you please tell me what type of support you're looking for? ("
    + Join(CategoryNames(), " or ") + ")"
  }

  /** The clarifying question offers every configured category by its display
      name. */
  lemma ClarifyNamesEveryCategory()
    ensures forall i :: 0 <= i < |Table| ==> Contains(ClarifyText(), Table[i].name)
  {
    var names := CategoryNames();
    JoinContainsParts(names, " or ");
    forall i | 0 <= i < |Table|
      ensures Contains(ClarifyText(), Table[i].name)
    {
      ContainsWithin("To help you better, could you please tell me what type of support you're looking for? (",
                     Join(names, " or "), ")", names[i]);
    }
  }

  /** How replies are worded: the text a turn stores in the history for its
      reply. The dialogue is stated for any wording; MasterAgent's is ReplyText. */
  type Wording = Reply -> string

  /** The exact text of each reply, as stored in the conversation history. */
  function ReplyText(r: Reply): string {
    match r
    case Asked(step) => InterviewText(step)
    case StartCheck(s) => Heading(s) + AboutScheme(r)
    case Benefits(s) => Heading(s) + AboutScheme(r)
    case HowToApply(s) => Heading(s) + AboutScheme(r)
    case Details(s) => Heading(s) + AboutScheme(r)
    case NoSchemesYet =>
      "I don't have any schemes to show you yet. Please tell me what you're looking for."
    case WhichScheme =>
      "I'm not sure which scheme you're referring to. Could you please specify the scheme number (1, 2, 3, etc.)?"
    case Clarify => ClarifyText()
    case Listing(intro, page, hasMore) => ListingText(intro, page, hasMore)
  }

  /** What _generate_scheme_details says under the scheme's heading. */
  function AboutScheme(r: Reply): string
    requires r.StartCheck? || r.Benefits? || r.HowToApply? || r.Details?
  {
    match r
    case StartCheck(s) =>
      "I can help you check if you're eligible for this scheme! \U{1F3AF}\n\n"
      + "I'll ask you a few simple questions to determine your eligibility.\n\n"
      + "Ready to start? (Just say 'yes' or 'start')"
    case Benefits(s) =>
      (if s.benefits != "" then "\U{1F4B0} **Benefits:**\n" + s.benefits + "\n\n"
       else "I don't have specific benefit details for this scheme.\n\n")
      + "Would you like to:\n" + "\U{2022} Check if you're eligible?\n" + "\U{2022} Learn how to apply?"
    case HowToApply(s) =>
      (if s.applicationProcess != "" then "\U{1F4DD} **How to Apply:**\n" + s.applicationProcess + "\n\n"
       else "Application process details are not available.\n\n")
      + (if s.url != "" then "\U{1F517} **Apply here:** " + s.url + "\n\n" else "")
      + "Do you have any questions about the application process?"
    case Details(s) =>
      "\U{1F4DD} **Description:**\n" + s.description + "\n\n"
      + "What would you like to know?\n" + "\U{2022} Benefits of this scheme\n"
      + "\U{2022} Check eligibility (I'll ask you a few questions)\n" + "\U{2022} How to apply"
  }

  /** Every reply about a scheme opens with that scheme's name in bold. */
  lemma SchemeRepliesOpenWithName(r: Reply)
    requires r.StartCheck? || r.Benefits? || r.HowToApply? || r.Details?
    ensures |ReplyText(r)| >= |Heading(r.scheme)| && ReplyText(r)[..|Heading(r.scheme)|] == Heading(r.scheme)
  {
    var h := Heading(r.scheme);
    assert ReplyText(r) == h + AboutScheme(r);
    assert (h + AboutScheme(r))[..|h|] == h;
  }
}
