/**
 * The list operations behind the section pickers (src/app/section-selection.tsx,
 * app/section-selection.tsx, components/SectionSelector.tsx) and the section query
 * (src/hooks/queries.ts): adding a section once, removing it, and filtering the
 * available sections by a search text without regard to case.
 */
module SectionLists {
  import opened JsText

  /** No section occurs twice. */
  predicate NoDuplicates(s: seq<string>)
  {
    forall i, j | 0 <= i < j < |s| :: s[i] != s[j]
  }

  /** `handleSelectSection`: appends `section` unless it is already selected. */
  function SelectSection(selection: seq<string>, section: string): (r: seq<string>)
    ensures section in r
    ensures forall x :: x in r <==> x in selection || x == section
    ensures section in selection ==> r == selection
    ensures section !in selection ==> |r| == |selection| + 1 && r[..|selection|] == selection
    ensures NoDuplicates(selection) ==> NoDuplicates(r)
  {
    if section in selection then selection else selection + [section]
  }

  /** `handleRemoveSection`: `selection.filter(s => s !== section)`. */
  function RemoveSection(selection: seq<string>, section: string): (r: seq<string>)
    ensures section !in r
    ensures forall x :: x != section ==> (x in r <==> x in selection)
    ensures |r| <= |selection|
    decreases |selection|
  {
    if selection == [] then []
    else (if selection[0] == section then [] else [selection[0]]) + RemoveSection(selection[1..], section)
  }

  /** Removal keeps the remaining sections in their order: it distributes over concatenation. */
  lemma {:induction false} RemoveConcat(a: seq<string>, b: seq<string>, section: string)
    ensures RemoveSection(a + b, section) == RemoveSection(a, section) + RemoveSection(b, section)
    decreases |a|
  {
    if a != [] {
      assert (a + b)[0] == a[0];
      assert (a + b)[1..] == a[1..] + b;
      RemoveConcat(a[1..], b, section);
      assert RemoveSection(a + b, section)
        == (if a[0] == section then [] else [a[0]]) + RemoveSection(a[1..] + b, section);
    } else {
      assert a + b == b;
    }
  }

  /** Removing a section that is not selected changes nothing. */
  lemma {:induction false} RemoveAbsent(selection: seq<string>, section: string)
    requires section !in selection
    ensures RemoveSection(selection, section) == selection
    decreases |selection|
  {
    if selection != [] {
      RemoveAbsent(selection[1..], section);
    }
  }

  /** Removal keeps a selection free of duplicates. */
  lemma {:induction false} RemoveKeepsNoDuplicates(selection: seq<string>, section: string)
    requires NoDuplicates(selection)
    ensures NoDuplicates(RemoveSection(selection, section))
    decreases |selection|
  {
    if selection != [] {
      var rest := RemoveSection(selection[1..], section);
      RemoveKeepsNoDuplicates(selection[1..], section);
      if selection[0] != section {
        assert selection[0] !in selection[1..];
        assert selection[0] !in rest;
      }
    }
  }

  /** Selecting a new section and removing it again gives back the original selection. */
  lemma SelectThenRemove(selection: seq<string>, section: string)
    requires section !in selection
    ensures RemoveSection(SelectSection(selection, section), section) == selection
  {
    RemoveConcat(selection, [section], section);
    RemoveAbsent(selection, section);
    assert RemoveSection([section], section) == [];
  }

  /** `sections.filter(s => s.toLowerCase().includes(search.toLowerCase()))`. */
  function FilterSections(sections: seq<string>, search: string): (r: seq<string>)
    ensures forall x :: x in r <==> x in sections && MatchesIgnoringCase(x, search)
    ensures |r| <= |sections|
    decreases |sections|
  {
    if sections == [] then []
    else
      (if MatchesIgnoringCase(sections[0], search) then [sections[0]] else [])
        + FilterSections(sections[1..], search)
  }

  /** Filtering keeps the matching sections in their order: it distributes over concatenation. */
  lemma {:induction false} FilterConcat(a: seq<string>, b: seq<string>, search: string)
    ensures FilterSections(a + b, search) == FilterSections(a, search) + FilterSections(b, search)
    decreases |a|
  {
    if a != [] {
      assert (a + b)[0] == a[0];
      assert (a + b)[1..] == a[1..] + b;
      FilterConcat(a[1..], b, search);
      assert FilterSections(a + b, search)
        == (if MatchesIgnoringCase(a[0], search) then [a[0]] else []) + FilterSections(a[1..] + b, search);
    } else {
      assert a + b == b;
    }
  }

  /** An empty search matches every section, so the filter returns the whole list. */
  lemma {:induction false} FilterEmptySearch(sections: seq<string>)
    ensures FilterSections(sections, "") == sections
    decreases |sections|
  {
    if sections != [] {
      assert ToLower("") == "";
      IncludesEmpty(ToLower(sections[0]));
      FilterEmptySearch(sections[1..]);
    }
  }

  /** Lower-casing twice is lower-casing once. */
  lemma ToLowerIdempotent(s: string)
    ensures ToLower(ToLower(s)) == ToLower(s)
  {
  }

  /** The filter does not see the case of the search text. */
  lemma {:induction false} FilterIgnoresCase(sections: seq<string>, search: string, other: string)
    requires ToLower(search) == ToLower(other)
    ensures FilterSections(sections, search) == FilterSections(sections, other)
    decreases |sections|
  {
    if sections != [] {
      FilterIgnoresCase(sections[1..], search, other);
    }
  }
}
