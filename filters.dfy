/**
 * The filter panel the three list pages share.  It shows one control per field that has options:
 * two date inputs for the date fields, a drop-down for every other field.  Choosing puts the
 * selection into the page's `filters`; a date range is passed on only once both ends are set.
 */
module Filters {
  import Backend

  /** The page's `filters` state: field name to the selected values. */
  type Selection = map<string, seq<string>>

  /** The page-owned `filters` state that the panel updates through `setFilters`. */
  class FilterState {
    var filters: Selection

    constructor ()
      ensures filters == map[]
    {
      filters := map[];
    }
  }

  /** The fields shown with two date inputs instead of a drop-down. */
  predicate IsDate(key: string) {
    key == "deadline" || key == "email_datetime_est"
  }

  /** The panel's date fields are exactly the columns the backend coerces to dates and filters by range. */
  lemma IsDateAgreesWithBackend(key: string)
    ensures IsDate(key) <==> Backend.IsDateColumn(key)
  {
  }

  /** An empty date input. */
  const Unset: string := ""

  class FilterPanel {
    /** The `dateRanges` state: the two inputs of each date field touched so far. */
    var dateRanges: map<string, seq<string>>
    const state: FilterState

    /** Every stored range has a start and an end. */
    ghost predicate Valid()
      reads this
    {
      forall key :: key in dateRanges ==> |dateRanges[key]| == 2
    }

    constructor (state: FilterState)
      ensures Valid() && this.state == state && dateRanges == map[]
    {
      this.state := state;
      dateRanges := map[];
    }

    /** `handleSelect`: the chosen value becomes the field's only selection; "Choose" clears it. */
    method HandleSelect(key: string, value: string)
      modifies state
      ensures value != "" ==> state.filters == old(state.filters)[key := [value]]
      ensures value == "" ==> state.filters == old(state.filters)[key := []]
    {
      state.filters := state.filters[key := if value != "" then [value] else []];
    }

    /**
     * `handleDateChange`: one end of a field's range is edited; the range reaches the filters only
     * while both ends are set, and otherwise the field's filter is cleared.
     */
    method HandleDateChange(key: string, index: nat, newValue: string)
      requires Valid() && index < 2
      modifies this`dateRanges, state
      ensures Valid()
      ensures var before := if key in old(dateRanges) then old(dateRanges)[key] else [Unset, Unset];
        dateRanges == old(dateRanges)[key := before[index := newValue]]
      ensures dateRanges[key][index] == newValue
      ensures dateRanges[key][1 - index] == (if key in old(dateRanges) then old(dateRanges)[key][1 - index] else Unset)
      ensures var range := dateRanges[key];
        state.filters == old(state.filters)[key := if range[0] != Unset && range[1] != Unset then range else []]
    {
      var updated := if key in dateRanges then dateRanges[key] else [Unset, Unset];
      updated := updated[index := newValue];
      dateRanges := dateRanges[key := updated];
      if updated[0] != Unset && updated[1] != Unset {
        state.filters := state.filters[key := updated];
      } else {
        state.filters := state.filters[key := []];
      }
    }
  }

  /**
   * Whatever the order of edits, a date field's filter is either cleared or a full range of two
   * set dates: a half-filled range never reaches the backend.
   */
  lemma DateFilterShape(before: seq<string>, index: nat, newValue: string)
    requires |before| == 2 && index < 2
    ensures var range := before[index := newValue];
      var sent := if range[0] != Unset && range[1] != Unset then range else [];
      sent == [] || (|sent| == 2 && sent[0] != Unset && sent[1] != Unset && sent[index] == newValue)
  {
  }

  /** Picking a start and then an end date on a fresh panel: nothing is filtered until the second pick. */
  method PickRange(key: string, start: string, end: string) returns (afterStart: Selection, afterEnd: Selection)
    requires start != Unset && end != Unset
    ensures afterStart == map[key := []]
    ensures afterEnd == map[key := [start, end]]
  {
    var state := new FilterState();
    var panel := new FilterPanel(state);
    panel.HandleDateChange(key, 0, start);
    afterStart := state.filters;
    panel.HandleDateChange(key, 1, end);
    afterEnd := state.filters;
    assert panel.dateRanges[key] == [start, end];
  }

  // ------------------------------------------------------------------ labels

  /** `toUpperCase` on one character; letters outside ASCII are not modelled. */
  function Upper(c: char): (u: char)
    ensures !('a' <= u <= 'z')
    ensures 'a' <= c <= 'z' ==> 'A' <= u <= 'Z' && u as int - 'A' as int == c as int - 'a' as int
    ensures !('a' <= c <= 'z') ==> u == c
  {
    if 'a' <= c <= 'z' then (c as int - 32) as char else c
  }

  /** `key.replace(/_/g, " ").toUpperCase()`: the heading shown above a field's control. */
  function Label(key: string): (heading: string)
    ensures |heading| == |key|
    ensures forall i :: 0 <= i < |key| ==> heading[i] == Upper(if key[i] == '_' then ' ' else key[i])
  {
    if |key| == 0 then ""
    else [Upper(if key[0] == '_' then ' ' else key[0])] + Label(key[1..])
  }

  /** A label holds no underscore and no lower-case letter, and its spaces are exactly the key's underscores and spaces. */
  lemma LabelShape(key: string)
    ensures forall i :: 0 <= i < |Label(key)| ==> Label(key)[i] != '_' && !('a' <= Label(key)[i] <= 'z')
    ensures forall i :: 0 <= i < |key| ==> (Label(key)[i] == ' ' <==> key[i] == '_' || key[i] == ' ')
  {
  }

  /** Labelling a label changes nothing. */
  lemma LabelIdempotent(key: string)
    ensures Label(Label(key)) == Label(key)
  {
  }
}
