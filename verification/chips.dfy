/** The tag chips shown under each article title: the raw tags text split
    at commas, each piece trimmed; no chips at all for an empty tags text. */
module Chips {
  import opened Strings
  import opened Taxonomy
  import opened Feed

  /** `parts.map(part => part.trim())`. */
  function TrimAll(parts: seq<string>): seq<string>
  {
    seq(|parts|, k requires 0 <= k < |parts| => Trim(parts[k]))
  }

  /** `tags.split(',').map(tag => tag.trim())`, rendered only when the tags
      text is non-empty: one chip per comma plus one, none with a comma or
      with whitespace at either end. */
  function TagChips(tags: string): (chips: seq<string>)
    ensures tags == "" ==> chips == []
    ensures tags != "" ==> |chips| == Count(tags, ',') + 1
    ensures forall k :: 0 <= k < |chips| ==> Trimmed(chips[k]) && ',' !in chips[k]
  {
    if tags == "" then [] else TrimAll(Split(tags, ','))
  }

  /** Chips of a comma-joined list are the trimmed list: what the chips show
      is read back from the pieces the text was written from. */
  lemma ChipsOfJoin(parts: seq<string>)
    requires parts != [] && parts != [""]
    requires forall k :: 0 <= k < |parts| ==> ',' !in parts[k]
    ensures TagChips(Join(parts, ',')) == TrimAll(parts)
  {
    SplitJoin(parts, ',');
  }

  /** Already-trimmed pieces without commas come back unchanged. */
  lemma ChipsRoundTrip(chips: seq<string>)
    requires chips != [] && chips != [""]
    requires forall k :: 0 <= k < |chips| ==> ',' !in chips[k] && Trimmed(chips[k])
    ensures TagChips(Join(chips, ',')) == chips
  {
    ChipsOfJoin(chips);
    forall k | 0 <= k < |chips| ensures Trim(chips[k]) == chips[k] {
      TrimOfTrimmed(chips[k]);
    }
  }

  /** Every chip shown on an article occurs in its tags text, so selecting
      that label as the tag keeps the article. */
  lemma ChipMatchesTag(a: Article, k: nat)
    requires k < |TagChips(a.tags)|
    ensures HasTag(a, TagChips(a.tags)[k])
    ensures Keeps(a, "", TagChips(a.tags)[k])
  {
    var parts := Split(a.tags, ',');
    JoinHasParts(parts, ',', k);
    TrimOccurs(parts[k]);
    ContainsTransitive(a.tags, parts[k], Trim(parts[k]));
  }

  /** The converse fails: the tag test is a substring test, so selecting the
      chip `Contract` keeps an article tagged `Contractor Pay` although its
      only chip reads `Contractor Pay`. */
  lemma SubstringIsNotChip(a: Article)
    requires a.tags == "Contractor Pay"
    ensures "Contract" in AvailableTags && HasTag(a, "Contract")
    ensures TagChips(a.tags) == ["Contractor Pay"] && "Contract" !in TagChips(a.tags)
  {
    ContractIsAChip();
    ContractInContractorPay();
    ContractorPayChips();
  }

  lemma ContractIsAChip()
    ensures "Contract" in AvailableTags
  {
    assert AvailableTags[0] == "Contract";
  }

  lemma ContractInContractorPay()
    ensures Contains("Contractor Pay", "Contract")
  {
    assert OccursAt("Contractor Pay", "Contract", 0);
  }

  lemma ContractorPayChips()
    ensures TagChips("Contractor Pay") == ["Contractor Pay"]
  {
    ChipsRoundTrip(["Contractor Pay"]);
  }

  lemma TrimOfTrimmed(s: string)
    requires Trimmed(s)
    ensures Trim(s) == s
  {
    assert TrimStart(s) == s;
    assert TrimEnd(s) == s;
  }
}
