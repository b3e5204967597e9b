/** The scheme-inquiry gate (MasterAgent._is_scheme_inquiry) and the reference
    resolver inside MasterAgent._handle_scheme_inquiry
    (src/agents/master_agent.py). Queries are matched after lower-casing. */
module Resolver {
  import opened Optional
  import opened Text
  import opened Schemas

  /** `\w` for ASCII: letters, digits and underscore. */
  predicate IsWordChar(c: char) {
    'a' <= c <= 'z' || 'A' <= c <= 'Z' || '0' <= c <= '9' || c == '_'
  }

  /** `\s` for ASCII: space, tab, line feed, vertical tab, form feed, carriage
      return and the four information separators. */
  predicate IsSpace(c: char) {
    c == ' ' || '\t' <= c <= '\r' || '\U{1C}' <= c <= '\U{1F}'
  }

  /** `[1-9]`. */
  predicate IsNonZeroDigit(c: char) {
    '1' <= c <= '9'
  }

  function DigitValue(c: char): nat
    requires IsNonZeroDigit(c)
  {
    c as int - '0' as int
  }

  const InquiryKeywords: seq<string> := [
    "tell me more", "more about", "details", "information",
    "benefits", "eligibility", "how to apply", "apply",
    "interested", "want to know", "check eligibility",
    "am i eligible", "qualify", "scheme number"]

  const NumberWords: seq<string> := ["scheme", "number", "option"]

  const OrdinalWords: seq<string> := ["first", "second", "third", "1st", "2nd", "3rd"]

  /** `\b` in front of a word that starts with a word character. */
  predicate BoundaryBefore(s: string, p: nat)
    requires p <= |s|
  {
    p == 0 || !IsWordChar(s[p - 1])
  }

  /** `\b` after a word that ends with a word character. */
  predicate BoundaryAfter(s: string, e: nat)
    requires e <= |s|
  {
    e == |s| || !IsWordChar(s[e])
  }

  /** `\s*[1-9]` matches from position i. */
  predicate DigitAfterSpaces(s: string, i: nat)
    decreases |s| - i
  {
    i < |s| && (IsNonZeroDigit(s[i]) || (IsSpace(s[i]) && DigitAfterSpaces(s, i + 1)))
  }

  predicate NumberPatternAt(s: string, p: nat)
    requires p <= |s|
  {
    BoundaryBefore(s, p) && exists w | w in NumberWords :: OccursAt(s, w, p) && DigitAfterSpaces(s, p + |w|)
  }

  /** re.search(r'\b(scheme|number|option)\s*[1-9]', s) finds a match. */
  predicate NumberPattern(s: string) {
    exists p | 0 <= p <= |s| :: NumberPatternAt(s, p)
  }

  predicate OrdinalPatternAt(s: string, p: nat)
    requires p <= |s|
  {
    BoundaryBefore(s, p) &&
    exists w | w in OrdinalWords :: OccursAt(s, w, p) && BoundaryAfter(s, p + |w|)
  }

  /** re.search(r'\b(first|second|third|1st|2nd|3rd)\b', s) finds a match. */
  predicate OrdinalPattern(s: string) {
    exists p | 0 <= p <= |s| :: OrdinalPatternAt(s, p)
  }

  /** Some scheme's lower-cased name occurs in the lower-cased query. */
  predicate MentionsName(queryLower: string, schemes: seq<Scheme>) {
    exists i | 0 <= i < |schemes| :: Contains(queryLower, Lower(schemes[i].name))
  }

  /** _is_scheme_inquiry: a scheme name, a numbered reference, an ordinal word
      or an inquiry phrase. */
  predicate IsSchemeInquiry(query: string, schemes: seq<Scheme>) {
    var q := Lower(query);
    (|schemes| > 0 && MentionsName(q, schemes)) || NumberPattern(q) || OrdinalPattern(q)
    || ContainsAny(q, InquiryKeywords)
  }

  /** With no digit 1-9 from position i on, `\s*[1-9]` cannot match there. */
  lemma {:induction false} NoDigitAfterSpaces(s: string, i: nat)
    requires forall j :: i <= j < |s| ==> !IsNonZeroDigit(s[j])
    ensures !DigitAfterSpaces(s, i)
    decreases |s| - i
  {
    if i < |s| {
      NoDigitAfterSpaces(s, i + 1);
    }
  }

  /** A string without a digit 1-9 has no numbered reference. */
  lemma NoDigitNoNumberPattern(s: string)
    requires forall j :: 0 <= j < |s| ==> !IsNonZeroDigit(s[j])
    ensures !NumberPattern(s)
  {
    forall i: nat
      ensures !DigitAfterSpaces(s, i)
    {
      NoDigitAfterSpaces(s, i);
    }
  }

  /** The paging phrase the listing suggests, "show more", is no scheme
      inquiry unless a stored scheme's name occurs in it. */
  lemma ShowMoreIsNoInquiry(schemes: seq<Scheme>)
    requires !MentionsName("show more", schemes)
    ensures !IsSchemeInquiry("show more", schemes)
  {
    var q := "show more";
    LowerOfLower(q);
    NoDigitNoNumberPattern(q);
    ShowMoreNoOrdinal();
    ShowMoreNoKeyword();
  }

  lemma ShowMoreNoOrdinal()
    ensures !OrdinalPattern("show more")
  {
    var q := "show more";
    NotContains(q, "first");
    NotContains(q, "third");
    NotContains(q, "1st");
    NotContains(q, "2nd");
    NotContains(q, "3rd");
    forall p | 0 <= p <= |q| - 6
      ensures !OccursAt(q, "second", p)
    {
      assert q[p..p + 6][1] == q[p + 1];
    }
  }

  lemma ShowMoreNoKeyword()
    ensures !ContainsAny("show more", InquiryKeywords)
  {
    var q := "show more";
    NotContains(q, "details");
    NotContains(q, "information");
    NotContains(q, "benefits");
    NotContains(q, "apply");
    NotContains(q, "interested");
    NotContains(q, "qualify");
  }

  /** The digit captured by re.search(r'(?:scheme|number|option)?\s*([1-9])', s).
      The prefix and the spaces are optional and contain no digit, so the
      leftmost match captures the leftmost digit 1-9 of the string. */
  function LeftmostDigit(s: string): Option<nat> {
    if s == [] then None
    else if IsNonZeroDigit(s[0]) then Some(DigitValue(s[0]))
    else LeftmostDigit(s[1..])
  }

  /** LeftmostDigit finds a digit exactly when there is one, and the one it finds
      stands before every other. */
  lemma {:induction false} LeftmostDigitSpec(s: string)
    ensures LeftmostDigit(s).None? <==> forall i :: 0 <= i < |s| ==> !IsNonZeroDigit(s[i])
    ensures LeftmostDigit(s).Some? ==>
      exists i :: (0 <= i < |s| && IsNonZeroDigit(s[i]) && LeftmostDigit(s).value == DigitValue(s[i])
        && forall j :: 0 <= j < i ==> !IsNonZeroDigit(s[j]))
  {
    if s != [] && !IsNonZeroDigit(s[0]) {
      LeftmostDigitSpec(s[1..]);
      if LeftmostDigit(s).Some? {
        var i :| 0 <= i < |s[1..]| && IsNonZeroDigit(s[1..][i]) && LeftmostDigit(s).value == DigitValue(s[1..][i])
          && forall j :: 0 <= j < i ==> !IsNonZeroDigit(s[1..][j]);
        assert IsNonZeroDigit(s[i + 1]);
      } else {
        assert forall i :: 1 <= i < |s| ==> s[i] == s[1..][i - 1];
      }
    }
  }

  /** ordinal_map, in its insertion order. */
  const OrdinalMap: seq<(string, nat)> :=
    [("first", 1), ("1st", 1), ("second", 2), ("2nd", 2), ("third", 3), ("3rd", 3)]

  /** The number of the first entry of `entries` whose word occurs in the query. */
  function FirstOrdinalIn(queryLower: string, entries: seq<(string, nat)>): Option<nat> {
    if entries == [] then None
    else if Contains(queryLower, entries[0].0) then Some(entries[0].1)
    else FirstOrdinalIn(queryLower, entries[1..])
  }

  /** If the word of some entry occurs in the query, the search finds an entry. */
  lemma {:induction false} FirstOrdinalFound(queryLower: string, entries: seq<(string, nat)>, k: nat)
    requires k < |entries| && Contains(queryLower, entries[k].0)
    ensures FirstOrdinalIn(queryLower, entries).Some?
  {
    if k > 0 && !Contains(queryLower, entries[0].0) {
      FirstOrdinalFound(queryLower, entries[1..], k - 1);
    }
  }

  /** A query the gate admits by a numbered reference always holds a digit 1-9
      for the resolver's number step to read. */
  lemma NumberPatternHasDigit(queryLower: string)
    requires NumberPattern(queryLower)
    ensures LeftmostDigit(queryLower).Some?
  {
    LeftmostDigitSpec(queryLower);
    if LeftmostDigit(queryLower).None? {
      NoDigitNoNumberPattern(queryLower);
      assert false;
    }
  }

  /** The position of an ordinal word in the ordinal map. */
  function OrdinalEntry(w: string): (k: nat)
    requires w in OrdinalWords
    ensures k < |OrdinalMap| && OrdinalMap[k].0 == w
  {
    if w == "first" then 0 else if w == "1st" then 1 else if w == "second" then 2
    else if w == "2nd" then 3 else if w == "third" then 4 else 5
  }

  /** A query the gate admits by an ordinal word always gives the resolver's
      ordinal step an ordinal to read. */
  lemma OrdinalPatternHasOrdinal(queryLower: string)
    requires OrdinalPattern(queryLower)
    ensures FirstOrdinalIn(queryLower, OrdinalMap).Some?
  {
    var p :| 0 <= p <= |queryLower| && OrdinalPatternAt(queryLower, p);
    var w :| w in OrdinalWords && OccursAt(queryLower, w, p) && BoundaryAfter(queryLower, p + |w|);
    assert Contains(queryLower, w);
    var k := OrdinalEntry(w);
    FirstOrdinalFound(queryLower, OrdinalMap, k);
  }

  /** The entry of current_schemes that a 1-based number picks, if in range. */
  function PickNumber(page: seq<Scheme>, n: Option<nat>): (r: Option<Scheme>)
    ensures r.Some? <==> n.Some? && 0 < n.value <= |page|
    ensures r.Some? ==> r.value == page[n.value - 1]
  {
    if n.Some? && 0 < n.value <= |page| then Some(page[n.value - 1]) else None
  }

  /** The ordinal step: the first ordinal in map order decides, and the search
      stops there even when its number is out of range. */
  function OrdinalPick(queryLower: string, page: seq<Scheme>): Option<Scheme> {
    PickNumber(page, FirstOrdinalIn(queryLower, OrdinalMap))
  }

  /** The first entry whose word occurs AND whose number is in range: what the
      ordinal loop would give without its `break`. */
  function FirstInRange(queryLower: string, entries: seq<(string, nat)>, page: seq<Scheme>): Option<Scheme> {
    if entries == [] then None
    else if Contains(queryLower, entries[0].0) && 0 < entries[0].1 <= |page| then Some(page[entries[0].1 - 1])
    else FirstInRange(queryLower, entries[1..], page)
  }

  lemma {:induction false} BreakUnobservableFrom(queryLower: string, entries: seq<(string, nat)>, page: seq<Scheme>)
    requires forall i, j :: 0 <= i < j < |entries| ==> 0 < entries[i].1 <= entries[j].1
    ensures PickNumber(page, FirstOrdinalIn(queryLower, entries)) == FirstInRange(queryLower, entries, page)
  {
    if entries != [] && !Contains(queryLower, entries[0].0) {
      BreakUnobservableFrom(queryLower, entries[1..], page);
    } else if entries != [] && entries[0].1 > |page| {
      NoneInRangeBeyond(queryLower, entries[1..], page);
    }
  }

  lemma {:induction false} NoneInRangeBeyond(queryLower: string, entries: seq<(string, nat)>, page: seq<Scheme>)
    requires forall i :: 0 <= i < |entries| ==> entries[i].1 > |page|
    ensures FirstInRange(queryLower, entries, page) == None
  {
    if entries != [] {
      NoneInRangeBeyond(queryLower, entries[1..], page);
    }
  }

  /** Because the ordinal numbers never decrease along the map, stopping at the
      first ordinal found never hides a later one that would be in range. */
  lemma OrdinalBreakUnobservable(queryLower: string, page: seq<Scheme>)
    ensures OrdinalPick(queryLower, page) == FirstInRange(queryLower, OrdinalMap, page)
  {
    BreakUnobservableFrom(queryLower, OrdinalMap, page);
  }

  /** The first scheme of the full list whose lower-cased name occurs in the
      query. */
  function FirstNamed(queryLower: string, schemes: seq<Scheme>): (r: Option<Scheme>)
    ensures r.None? <==> !MentionsName(queryLower, schemes)
    ensures r.Some? ==>
      exists i :: (0 <= i < |schemes| && schemes[i] == r.value
        && Contains(queryLower, Lower(schemes[i].name))
        && forall j :: 0 <= j < i ==> !Contains(queryLower, Lower(schemes[j].name)))
  {
    if schemes == [] then None
    else if Contains(queryLower, Lower(schemes[0].name)) then Some(schemes[0])
    else
      var r := FirstNamed(queryLower, schemes[1..]);
      assert forall i :: 1 <= i < |schemes| ==> schemes[i] == schemes[1..][i - 1];
      r
  }

  /** The resolution cascade of _handle_scheme_inquiry, for a non-empty list:
      digit on the current page, then ordinal on the current page, then a name
      in the full list, then the last discussed scheme (only when the current
      page is not empty). Each step decides only when the earlier ones found
      nothing. Whatever it selects is on the current page, in the full list,
      or the last discussed scheme; it fails only when every step fails and
      nothing was discussed yet or the current page is empty. */
  function Resolve(queryLower: string, page: seq<Scheme>, schemes: seq<Scheme>, last: Option<Scheme>): (r: Option<Scheme>)
    ensures r.Some? ==> r.value in page || r.value in schemes || last == r
    ensures r.None? <==>
      && PickNumber(page, LeftmostDigit(queryLower)).None?
      && OrdinalPick(queryLower, page).None?
      && !MentionsName(queryLower, schemes)
      && (last.None? || |page| == 0)
    ensures PickNumber(page, LeftmostDigit(queryLower)).Some? ==>
      r == PickNumber(page, LeftmostDigit(queryLower))
    ensures PickNumber(page, LeftmostDigit(queryLower)).None? && OrdinalPick(queryLower, page).Some? ==>
      r == OrdinalPick(queryLower, page)
    ensures (PickNumber(page, LeftmostDigit(queryLower)).None? && OrdinalPick(queryLower, page).None?
             && MentionsName(queryLower, schemes)) ==>
      r == FirstNamed(queryLower, schemes)
    ensures (PickNumber(page, LeftmostDigit(queryLower)).None? && OrdinalPick(queryLower, page).None?
             && !MentionsName(queryLower, schemes)) ==>
      r == (if |page| > 0 then last else None)
  {
    var byDigit := PickNumber(page, LeftmostDigit(queryLower));
    if byDigit.Some? then byDigit
    else
      var byOrdinal := OrdinalPick(queryLower, page);
      if byOrdinal.Some? then byOrdinal
      else
        var byName := FirstNamed(queryLower, schemes);
        if byName.Some? then byName
        else if |page| > 0 then last
        else None
  }

  /** A number in range picks from the current page, not from the full list:
      "scheme d" on page p is scheme p*size + d of the whole list. */
  lemma DigitPicksFromPage(queryLower: string, page: seq<Scheme>, schemes: seq<Scheme>, last: Option<Scheme>, d: nat)
    requires LeftmostDigit(queryLower) == Some(d) && 0 < d <= |page|
    ensures Resolve(queryLower, page, schemes, last) == Some(page[d - 1])
  {
  }

  /** A query that names a scheme of the list is always resolved to some scheme. */
  lemma NameMentionResolves(queryLower: string, page: seq<Scheme>, schemes: seq<Scheme>, last: Option<Scheme>)
    requires MentionsName(queryLower, schemes)
    ensures Resolve(queryLower, page, schemes, last).Some?
  {
  }

  /** "scheme 2" against a list of three, all on the first page, selects the
      second scheme. */
  lemma SchemeTwoExample(schemes: seq<Scheme>, last: Option<Scheme>)
    requires |schemes| == 3
    ensures Resolve("scheme 2", schemes, schemes, last) == Some(schemes[1])
  {
    assert LeftmostDigit("scheme 2") == Some(2);
  }

  /** "the first one" selects the first scheme of the current page. */
  lemma FirstOneExample(page: seq<Scheme>, schemes: seq<Scheme>, last: Option<Scheme>)
    requires |page| > 0
    ensures Resolve("the first one", page, schemes, last) == Some(page[0])
  {
    FirstOneHasNoDigit();
    FirstOneIsFirst();
  }

  lemma FirstOneHasNoDigit()
    ensures LeftmostDigit("the first one").None?
  {
    LeftmostDigitSpec("the first one");
  }

  lemma FirstOneIsFirst()
    ensures FirstOrdinalIn("the first one", OrdinalMap) == Some(1)
  {
    assert OccursAt("the first one", "first", 4);
  }

  /** The resolver's steps in order: digit, ordinal, name, then the last
      discussed scheme. */
  method SelectScheme(queryLower: string, page: seq<Scheme>, schemes: seq<Scheme>, last: Option<Scheme>)
    returns (selected: Option<Scheme>)
    ensures selected == Resolve(queryLower, page, schemes, last)
  {
    selected := PickNumber(page, LeftmostDigit(queryLower));
    if selected.None? {
      selected := FindOrdinal(queryLower, page);
    }
    if selected.None? {
      selected := FindNamed(queryLower, schemes);
    }
    if selected.None? && |page| > 0 {
      selected := last;
    }
  }

  /** The ordinal loop: it stops at the first ordinal of the map found in the
      query, and picks from the page only when that number is in range. */
  method FindOrdinal(queryLower: string, page: seq<Scheme>) returns (selected: Option<Scheme>)
    ensures selected == OrdinalPick(queryLower, page)
  {
    selected := None;
    var i := 0;
    while i < |OrdinalMap|
      invariant 0 <= i <= |OrdinalMap|
      invariant FirstOrdinalIn(queryLower, OrdinalMap) == FirstOrdinalIn(queryLower, OrdinalMap[i..])
    {
      if Contains(queryLower, OrdinalMap[i].0) {
        var num := OrdinalMap[i].1;
        if 0 < num <= |page| {
          selected := Some(page[num - 1]);
        }
        return;
      }
      assert OrdinalMap[i..][1..] == OrdinalMap[i + 1..];
      i := i + 1;
    }
  }

  /** The name loop over the full list. */
  method FindNamed(queryLower: string, schemes: seq<Scheme>) returns (selected: Option<Scheme>)
    ensures selected == FirstNamed(queryLower, schemes)
  {
    var i := 0;
    while i < |schemes|
      invariant 0 <= i <= |schemes|
      invariant FirstNamed(queryLower, schemes) == FirstNamed(queryLower, schemes[i..])
    {
      if Contains(queryLower, Lower(schemes[i].name)) {
        return Some(schemes[i]);
      }
      assert schemes[i..][1..] == schemes[i + 1..];
      i := i + 1;
    }
    return None;
  }
}
