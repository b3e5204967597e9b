/** The category table of config/categories.py: one record per category, in
    the dictionary's insertion order, and the helpers that read it. */
module Categories {
  import opened Text
  import opened Optional

  /** CategoryConfig. The search tool (always None in the table) and the LLM
      instruction text are not part of this model. */
  datatype CategoryConfig = CategoryConfig(
    id: string,
    name: string,
    description: string,
    keywords: seq<string>,
    datastoreIdKey: string)

  const FarmerId: string := "FARMER"
  const MsmeId: string := "MSME"

  const FarmerKeywords: seq<string> := [
    "farm", "farmer", "agriculture", "crop", "seed", "tractor",
    "livestock", "cattle", "poultry", "irrigation", "harvest",
    "pesticide", "fertilizer", "land", "cultivation", "kisan",
    "dairy", "fishing", "horticulture", "plantation", "rural"]

  const MsmeKeywords: seq<string> := [
    "business", "enterprise", "startup", "manufacturing", "company",
    "msme", "sme", "industry", "factory", "trade", "export",
    "import", "udyog", "commerce", "retail", "wholesale",
    "production", "unit", "workshop", "loan", "funding"]

  /** CATEGORIES, in configuration order. */
  const Table: seq<CategoryConfig> := [
    CategoryConfig(
      FarmerId, "Farmer & Agriculture",
      "Schemes for farmers, agriculture, crops, livestock, irrigation, and rural development",
      FarmerKeywords, "farmer_datastore_id"),
    CategoryConfig(
      MsmeId, "MSME & Business",
      "Schemes for micro, small, and medium enterprises, startups, and businesses",
      MsmeKeywords, "msme_datastore_id")]

  /** get_all_category_ids: the keys of the table, in order: FARMER, then MSME;
      looking each one up finds the entry at its own position. */
  function CategoryIds(): (ids: seq<string>)
    ensures ids == [FarmerId, MsmeId]
    ensures forall i :: 0 <= i < |ids| ==> Find(Table, ids[i]) == Some(Table[i])
  {
    seq(|Table|, i requires 0 <= i < |Table| => Table[i].id)
  }

  /** The configured ids are distinct, as dictionary keys are. */
  lemma CategoryIdsAre()
    ensures forall i, j :: 0 <= i < j < |Table| ==> Table[i].id != Table[j].id
  {
  }

  function Find(table: seq<CategoryConfig>, id: string): (r: Option<CategoryConfig>)
    ensures r.None? <==> forall c :: c in table ==> c.id != id
    ensures r.Some? ==> r.value in table && r.value.id == id
  {
    if table == [] then None
    else if table[0].id == id then Some(table[0])
    else Find(table[1..], id)
  }

  /** get_category_config: CATEGORIES.get(id). */
  function GetCategoryConfig(id: string): (r: Option<CategoryConfig>)
    ensures r.None? <==> id !in CategoryIds()
    ensures r.Some? ==> r.value in Table && r.value.id == id
  {
    CategoryIdsAre();
    Find(Table, id)
  }

  /** get_all_keywords: each category id paired with its keyword list, in order;
      the list paired with an id is the one configured for that id. */
  function AllKeywords(): (kw: seq<(string, seq<string>)>)
    ensures kw == [(FarmerId, FarmerKeywords), (MsmeId, MsmeKeywords)]
    ensures forall i :: 0 <= i < |kw| ==> Find(Table, kw[i].0).Some? && Find(Table, kw[i].0).value.keywords == kw[i].1
  {
    seq(|Table|, i requires 0 <= i < |Table| => (Table[i].id, Table[i].keywords))
  }

  function DescriptionLine(c: CategoryConfig): string {
    c.id + " - " + c.description
  }

  /** get_category_descriptions: one "ID - description" line per category, in
      order, joined by newlines. */
  function CategoryDescriptions(): string {
    Join(seq(|Table|, i requires 0 <= i < |Table| => DescriptionLine(Table[i])), "\n")
  }

  /** The descriptions text is the FARMER line, a newline, then the MSME line. */
  lemma CategoryDescriptionsLines()
    ensures CategoryDescriptions() == DescriptionLine(Table[0]) + "\n" + DescriptionLine(Table[1])
  {
    var lines := seq(|Table|, i requires 0 <= i < |Table| => DescriptionLine(Table[i]));
    assert lines == [DescriptionLine(Table[0]), DescriptionLine(Table[1])];
    assert lines[1..] == [DescriptionLine(Table[1])];
    assert Join(lines, "\n") == lines[0] + "\n" + Join(lines[1..], "\n");
    assert CategoryDescriptions() == Join(lines, "\n");
  }

  /** The display names, in configuration order (used by the clarifying
      question). */
  function CategoryNames(): (names: seq<string>)
    ensures names == ["Farmer & Agriculture", "MSME & Business"]
    ensures forall i :: 0 <= i < |names| ==> Find(Table, CategoryIds()[i]).Some? && Find(Table, CategoryIds()[i]).value.name == names[i]
  {
    seq(|Table|, i requires 0 <= i < |Table| => Table[i].name)
  }

  predicate IsLowerCase(s: string) {
    forall i :: 0 <= i < |s| ==> !IsUpper(s[i])
  }

  /** Every configured keyword is already lower-case. */
  lemma KeywordsAreLowerCase()
    ensures forall i :: 0 <= i < |FarmerKeywords| ==> IsLowerCase(FarmerKeywords[i])
    ensures forall i :: 0 <= i < |MsmeKeywords| ==> IsLowerCase(MsmeKeywords[i])
  {
    FarmerKeywordsLower();
    MsmeKeywordsLower();
  }

  lemma FarmerKeywordsLower()
    ensures forall i :: 0 <= i < |FarmerKeywords| ==> IsLowerCase(FarmerKeywords[i])
  {
  }

  lemma MsmeKeywordsLower()
    ensures forall i :: 0 <= i < |MsmeKeywords| ==> IsLowerCase(MsmeKeywords[i])
  {
  }

  /** Because keywords are lower-case, a keyword found in a query in any
      capitalisation is found in the lower-cased query: keyword matching is
      case-insensitive. */
  lemma KeywordMatchIgnoresCase(query: string, kw: string, i: nat)
    requires IsLowerCase(kw)
    requires i + |kw| <= |query| && Lower(query[i..i + |kw|]) == kw
    ensures Contains(Lower(query), kw)
  {
    LowerSlice(query, i, i + |kw|);
    assert OccursAt(Lower(query), kw, i);
  }
}
