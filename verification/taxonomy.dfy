/** The fixed tag taxonomy offered as filter chips, and the chip toggle. */
module Taxonomy {

  /** The filter chips, in display order. */
  const AvailableTags: seq<string> :=
    ["Contract", "Compensation", "Non-Compete", "RVU", "Call Pay",
     "Signing Bonus", "Benefits", "Legal", "Market Trends"]

  /** The taxonomy lists nine distinct, non-empty labels. */
  lemma AvailableTagsDistinct()
    ensures |AvailableTags| == 9
    ensures forall i, j :: 0 <= i < j < |AvailableTags| ==> AvailableTags[i] != AvailableTags[j]
    ensures "" !in AvailableTags
  {
  }

  /** The new selected tag after clicking the chip `tag`: clicking the
      selected chip clears the selection (the empty string), clicking any
      other chip selects it. */
  function Toggle(selected: string, tag: string): (r: string)
    ensures r == "" || r == tag
    ensures tag != "" ==> (r == tag <==> selected != tag)
  {
    if tag == selected then "" else tag
  }

  /** Clicking the same chip twice, starting with no selection or with that
      chip selected, returns to where it started. */
  lemma ToggleTwice(selected: string, tag: string)
    requires selected == "" || selected == tag
    ensures Toggle(Toggle(selected, tag), tag) == selected
  {
  }

  /** A selection made only through chips of the taxonomy stays in it. */
  lemma ToggleKeepsTaxonomy(selected: string, tag: string)
    requires selected == "" || selected in AvailableTags
    requires tag in AvailableTags
    ensures Toggle(selected, tag) == "" || Toggle(selected, tag) in AvailableTags
  {
  }
}
