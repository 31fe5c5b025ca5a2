/**
 * src/app/section-selection.tsx: the section picker of the current app. The available sections
 * come from the sections query; adding and removing rewrite the preference store's selection.
 */
module SectionSelectionScreen {
  import SectionLists
  import PreferenceStore

  /** `handleSelectSection`: the store's selection gains `section` unless it holds it already. */
  method SelectSection(store: PreferenceStore.AppStore, section: string)
    modifies store
    ensures store.State() == old(store.State()).(
      selectedSections := SectionLists.SelectSection(old(store.selectedSections), section))
  {
    store.SetSelectedSections(SectionLists.SelectSection(store.selectedSections, section));
  }

  /** `handleRemoveSection`: every occurrence of `section` leaves the store's selection. */
  method RemoveSection(store: PreferenceStore.AppStore, section: string)
    modifies store
    ensures store.State() == old(store.State()).(
      selectedSections := SectionLists.RemoveSection(old(store.selectedSections), section))
  {
    store.SetSelectedSections(SectionLists.RemoveSection(store.selectedSections, section));
  }

  /** Picking a section the store did not hold and removing it again leaves the store as it was. */
  lemma SelectThenRemoveRestores(p: PreferenceStore.Preferences, section: string)
    requires section !in p.selectedSections
    ensures p.(selectedSections := SectionLists.RemoveSection(
              SectionLists.SelectSection(p.selectedSections, section), section)) == p
  {
    SectionLists.SelectThenRemove(p.selectedSections, section);
  }
}

/**
 * app/section-selection.tsx: the section picker of the earlier app. It fetches the sections of
 * the year once, filters them by the search text after a pause in typing, and edits the
 * selection. The screen reads the selection and its setter from the earlier timetable store,
 * whose state has neither, so as written the screen throws (`StoreSelection` and the
 * as-written functions below). `SectionScreen` models the screen as evidently intended: the
 * selection is a field of its own, standing for the missing store field.
 */
module LegacySectionScreen {
  import opened Wrappers
  import SectionLists
  import LegacyTimetableStore

  /** JavaScript's `TypeError`, thrown when a property of `undefined` is read or `undefined` is called. */
  datatype Thrown = TypeError

  /**
   * `selectedSections` as the screen destructures it from the earlier store. The store's state
   * has no such field, so the read gives `undefined` (`None`) whatever the state holds; the
   * same holds of `setSelectedSections`.
   */
  function StoreSelection(s: LegacyTimetableStore.StoreState): Option<seq<string>>
  {
    None
  }

  /** The render's guard `selectedSections.length > 0`, over a selection that may be `undefined`. */
  function SelectedPanelAsWritten(selection: Option<seq<string>>): (r: Result<bool, Thrown>)
    ensures r.Failure? <==> selection.None?
    ensures r.Success? ==> (r.value <==> |selection.value| > 0)
  {
    match selection
    case None => Failure(TypeError)
    case Some(sel) => Success(|sel| > 0)
  }

  /**
   * `handleSelectSection` over a selection that may be `undefined`; `None` also stands for the
   * missing setter. On a real list it agrees with the current app's handler.
   */
  function SelectAsWritten(selection: Option<seq<string>>, section: string): (r: Result<seq<string>, Thrown>)
    ensures r.Failure? <==> selection.None?
    ensures r.Success? ==> r.value == SectionLists.SelectSection(selection.value, section)
  {
    match selection
    case None => Failure(TypeError)
    case Some(sel) => Success(SectionLists.SelectSection(sel, section))
  }

  /** `handleRemoveSection` over a selection that may be `undefined`. */
  function RemoveAsWritten(selection: Option<seq<string>>, section: string): (r: Result<seq<string>, Thrown>)
    ensures r.Failure? <==> selection.None?
    ensures r.Success? ==> r.value == SectionLists.RemoveSection(selection.value, section)
  {
    match selection
    case None => Failure(TypeError)
    case Some(sel) => Success(SectionLists.RemoveSection(sel, section))
  }

  /** As written, the screen throws on its render and in both handlers, whatever the store holds. */
  lemma AsWrittenScreenThrows(s: LegacyTimetableStore.StoreState, section: string)
    ensures SelectedPanelAsWritten(StoreSelection(s)) == Failure(TypeError)
    ensures SelectAsWritten(StoreSelection(s), section) == Failure(TypeError)
    ensures RemoveAsWritten(StoreSelection(s), section) == Failure(TypeError)
  {
  }

  /** Every field of the screen's state but the route's year. */
  datatype ScreenState = ScreenState(
    sections: seq<string>, filteredSections: seq<string>, search: string,
    fetchingSections: bool, selection: seq<string>)

  class SectionScreen {
    /** The year from the route. */
    const year: string
    var sections: seq<string>
    var filteredSections: seq<string>
    var search: string
    var fetchingSections: bool
    var selection: seq<string>

    function State(): ScreenState
      reads this
    {
      ScreenState(sections, filteredSections, search, fetchingSections, selection)
    }

    constructor (year: string, selection: seq<string>)
      ensures this.year == year && State() == ScreenState([], [], "", false, selection)
    {
      this.year := year;
      this.selection := selection;
      sections := [];
      filteredSections := [];
      search := "";
      fetchingSections := false;
    }

    /**
     * The fetch effect; `rpc` answers `get_distinct_sections` for a year. The answer, or `[]`
     * for null, becomes both the full and the filtered list.
     */
    method FetchSections(rpc: string -> Option<seq<string>>)
      modifies this
      ensures year == "" ==> State() == old(State())
      ensures year != "" ==> State() == old(State()).(
        sections := rpc(year).GetOr([]), filteredSections := rpc(year).GetOr([]), fetchingSections := false)
    {
      if year == "" {
        return;
      }
      fetchingSections := true;
      var data := rpc(year);
      sections := data.GetOr([]);
      filteredSections := data.GetOr([]);
      fetchingSections := false;
    }

    /** Typing: the search box takes the text at once; the list is filtered later by `Filter`. */
    method ChangeSearch(text: string)
      modifies this
      ensures State() == old(State()).(search := text)
    {
      search := text;
    }

    /** The debounced filter, run with the text typed last. */
    method Filter(text: string)
      modifies this
      ensures State() == old(State()).(filteredSections := SectionLists.FilterSections(old(sections), text))
    {
      filteredSections := SectionLists.FilterSections(sections, text);
    }

    /** `handleSelectSection` with the selection the screen evidently intends to keep. */
    method SelectSection(section: string)
      modifies this
      ensures State() == old(State()).(selection := SectionLists.SelectSection(old(selection), section))
    {
      selection := SectionLists.SelectSection(selection, section);
    }

    /** `handleRemoveSection` with the selection the screen evidently intends to keep. */
    method RemoveSection(section: string)
      modifies this
      ensures State() == old(State()).(selection := SectionLists.RemoveSection(old(selection), section))
    {
      selection := SectionLists.RemoveSection(selection, section);
    }
  }
}

/**
 * components/SectionSelector.tsx: the section form of the earlier app. A year is chosen from
 * three buttons, sections are picked in a modal, and the form submits the selection with the
 * year. Its fetch only logs the sections it receives, so the modal's lists stay empty.
 */
module SectionSelector {
  import opened Wrappers
  import SectionLists

  const YearOptions: seq<string> := ["2", "3", "4"]

  /** Every field of the form's state. */
  datatype FormState = FormState(
    year: Option<string>, sections: seq<string>, selectedSections: seq<string>, showModal: bool,
    search: string, filteredSections: seq<string>, fetchingSections: bool)

  class SectionForm {
    var year: Option<string>
    var sections: seq<string>
    var selectedSections: seq<string>
    var showModal: bool
    var search: string
    var filteredSections: seq<string>
    var fetchingSections: bool

    function State(): FormState
      reads this
    {
      FormState(year, sections, selectedSections, showModal, search, filteredSections, fetchingSections)
    }

    /** The year is one of the options, and the section lists are never filled. */
    predicate Valid()
      reads this
    {
      (year.None? || year.value in YearOptions) && sections == [] && filteredSections == []
    }

    constructor ()
      ensures Valid()
      ensures State() == FormState(None, [], [], false, "", [], false)
    {
      year := None;
      sections := [];
      selectedSections := [];
      showModal := false;
      search := "";
      filteredSections := [];
      fetchingSections := false;
    }

    /** The `k`-th year button, disabled while the form's owner is loading. */
    method PressYear(k: int, isLoading: bool)
      requires Valid() && 0 <= k < |YearOptions|
      modifies this
      ensures Valid()
      ensures isLoading ==> State() == old(State())
      ensures !isLoading ==> State() == old(State()).(year := Some(YearOptions[k]))
    {
      if !isLoading {
        year := Some(YearOptions[k]);
      }
    }

    /** The fetch effect; `rpc` answers `get_distinct_sections`. Its answer is only logged. */
    method FetchSections(rpc: string -> Option<seq<string>>)
      requires Valid()
      modifies this
      ensures Valid()
      ensures year.None? || year.value == "" ==> State() == old(State())
      ensures year.Some? && year.value != "" ==> State() == old(State()).(fetchingSections := false)
    {
      if year.None? || year.value == "" {
        return;
      }
      fetchingSections := true;
      var data := rpc(year.value);
      fetchingSections := false;
    }

    /** The button that opens the modal, disabled without a year, while fetching or while loading. */
    method OpenModal(isLoading: bool)
      requires Valid()
      modifies this
      ensures Valid()
      ensures State() == old(State()).(
        showModal := old(showModal) || (year.Some? && year.value != "" && !fetchingSections && !isLoading))
    {
      if year.Some? && year.value != "" && !fetchingSections && !isLoading {
        showModal := true;
      }
    }

    /** Typing in the modal's search box. */
    method ChangeSearch(text: string)
      requires Valid()
      modifies this
      ensures Valid() && State() == old(State()).(search := text)
    {
      search := text;
    }

    /** The debounced filter over the full list, which is empty, so the filtered list stays empty. */
    method Filter(text: string)
      requires Valid()
      modifies this
      ensures Valid()
      ensures State() == old(State()).(filteredSections := SectionLists.FilterSections(old(sections), text))
    {
      filteredSections := SectionLists.FilterSections(sections, text);
    }

    /** `handleSelectSection`. */
    method SelectSection(section: string)
      requires Valid()
      modifies this
      ensures Valid()
      ensures State() == old(State()).(selectedSections := SectionLists.SelectSection(old(selectedSections), section))
    {
      selectedSections := SectionLists.SelectSection(selectedSections, section);
    }

    /** `handleRemoveSection`. */
    method RemoveSection(section: string)
      requires Valid()
      modifies this
      ensures Valid()
      ensures State() == old(State()).(selectedSections := SectionLists.RemoveSection(old(selectedSections), section))
    {
      selectedSections := SectionLists.RemoveSection(selectedSections, section);
    }

    /** `handleDone`: closes the modal and clears the search; the selection stays. */
    method Done()
      requires Valid()
      modifies this
      ensures Valid() && State() == old(State()).(showModal := false, search := "")
    {
      showModal := false;
      search := "";
    }

    /** `handleSubmit`: the arguments `onSubmit` receives, when it is called at all. */
    method Submit() returns (submitted: Option<(seq<string>, string)>)
      requires Valid()
      ensures submitted.Some? <==> |selectedSections| > 0 && year.Some? && year.value != ""
      ensures submitted.Some? ==> submitted.value == (selectedSections, year.value) && year.value in YearOptions
    {
      if |selectedSections| > 0 && year.Some? && year.value != "" {
        return Some((selectedSections, year.value));
      }
      return None;
    }
  }
}
