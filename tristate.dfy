/**
 * The tri-state toggle: a button cycling through confirmed, denied and indeterminate, how each state is
 * drawn, the two-state binding its playgrounds attach to it, and the tag filter built from such toggles.
 */
module TriStateToggle {
  import opened Wrappers

  datatype TriState = Confirmed | Denied | Indeterminate

  /** The button action: confirmed, then denied, then indeterminate, then confirmed again. */
  function Tap(s: TriState): (r: TriState)
    ensures r != s
    ensures r == Confirmed <==> s == Indeterminate
  {
    match s
    case Confirmed => Denied
    case Denied => Indeterminate
    case Indeterminate => Confirmed
  }

  /** Three taps bring any state back, and the two taps before that visit the other two states. */
  lemma TapCycle(s: TriState)
    ensures Tap(Tap(Tap(s))) == s
    ensures Tap(Tap(s)) != s && Tap(Tap(s)) != Tap(s)
  {
  }

  datatype Color = Green | Red | Primary

  /** `colorForState`. */
  function ColorForState(s: TriState): (c: Color)
    ensures c == Primary <==> s == Indeterminate
  {
    match s
    case Confirmed => Green
    case Denied => Red
    case Indeterminate => Primary
  }

  /** `tintColorForState`: no tint for an indeterminate state, the foreground colour otherwise. */
  function TintColorForState(s: TriState): (c: Option<Color>)
    ensures c.None? <==> s == Indeterminate
    ensures c.Some? ==> c.value == ColorForState(s)
  {
    match s
    case Confirmed => Some(Green)
    case Denied => Some(Red)
    case Indeterminate => None
  }

  /** `accessibilityLabelForState`. */
  function AccessibilityLabel(s: TriState): (r: string)
    ensures |r| > 0
    ensures r == "Indeterminate" <==> TintColorForState(s).None?
  {
    match s
    case Confirmed => "Confirmed"
    case Denied => "Denied"
    case Indeterminate => "Indeterminate"
  }

  /** The playground's `stateDescription` reads the same as the accessibility label. */
  function StateDescription(s: TriState): (r: string)
    ensures r == AccessibilityLabel(s)
  {
    match s
    case Confirmed => "Confirmed"
    case Denied => "Denied"
    case Indeterminate => "Indeterminate"
  }

  /** Different states are drawn in different colours and read out under different labels. */
  lemma StatesDistinguishable(s: TriState, t: TriState)
    requires s != t
    ensures ColorForState(s) != ColorForState(t)
    ensures AccessibilityLabel(s) != AccessibilityLabel(t)
  {
    assert AccessibilityLabel(Confirmed)[0] != AccessibilityLabel(Denied)[0];
    assert AccessibilityLabel(Confirmed)[0] != AccessibilityLabel(Indeterminate)[0];
    assert AccessibilityLabel(Denied)[0] != AccessibilityLabel(Indeterminate)[0];
  }

  /** The label is struck through for a denied state only. */
  predicate Strikethrough(s: TriState) {
    s == Denied
  }

  /** A struck-through label is always drawn in red inside a tinted border, and a red label is struck through. */
  lemma StrikethroughOnlyWhenRed(s: TriState)
    ensures Strikethrough(s) <==> ColorForState(s) == Red
    ensures Strikethrough(s) ==> BorderFor(s) == TintStroke
  {
  }

  datatype Stroke = TintStroke | QuaternaryStroke

  /** The capsule border: the tint when there is one, the quaternary style otherwise. */
  function BorderFor(s: TriState): (r: Stroke)
    ensures r == TintStroke <==> TintColorForState(s).Some?
  {
    if s == Confirmed || s == Denied then TintStroke else QuaternaryStroke
  }

  /** The toggle playground: its state starts indeterminate and drives a two-state `Toggle`. */
  class TriStatePlayground {
    var triState: TriState

    constructor()
      ensures triState == Indeterminate
    {
      triState := Indeterminate;
    }

    /** What the `Toggle` binding reads: on only when confirmed. */
    function IsOn(): (r: bool)
      reads this
      ensures r <==> TintColorForState(triState) == Some(Green)
    {
      triState == Confirmed
    }

    /** A write through the binding, whatever the value written, confirms. */
    method SetOn(value: bool)
      modifies this
      ensures triState == Confirmed && IsOn()
    {
      triState := Confirmed;
    }

    /** The styled button's action. */
    method TapButton()
      modifies this
      ensures triState == Tap(old(triState))
    {
      match triState {
        case Confirmed => triState := Denied;
        case Denied => triState := Indeterminate;
        case Indeterminate => triState := Confirmed;
      }
    }
  }

  /** A tag of the filter group. The UUID is an integer drawn by the caller. */
  datatype TagOption = TagOption(id: int, name: string, state: TriState)

  datatype FilterTagOption = All | Label(option: TagOption)

  /** `FilterTagOption.description`. */
  function Description(f: FilterTagOption): string {
    match f
    case All => "All"
    case Label(o) => o.name
  }

  /**
   * The toggle is labelled by the tag's name whatever state the tag is in, and the "All" toggle's label is
   * no tag's name only when no tag is called "All".
   */
  lemma DescriptionIgnoresState(o: TagOption, st: TriState)
    ensures Description(Label(o.(state := st))) == Description(Label(o)) == o.name
    ensures Description(All) == Description(Label(o)) <==> o.name == "All"
  {
  }

  /** `FilterTagOption.tagOption`: absent exactly for `.all`, and it gives back the wrapped tag. */
  function TagOptionOf(f: FilterTagOption): (r: Option<TagOption>)
    ensures r.None? <==> f == All
    ensures r.Some? ==> f == Label(r.value)
  {
    match f
    case All => None
    case Label(o) => Some(o)
  }

  /** `[.all] + movieTags.map { .label(option: $0) }`. */
  function InitialFilterTags(movieTags: seq<TagOption>): (r: seq<FilterTagOption>)
    ensures |r| == |movieTags| + 1 && r[0] == All
    ensures forall i :: 0 <= i < |movieTags| ==> TagOptionOf(r[i + 1]) == Some(movieTags[i])
  {
    [All] + seq(|movieTags|, i requires 0 <= i < |movieTags| => Label(movieTags[i]))
  }

  /** The index of the first entry equal to `item`, as `firstIndex(where:)` finds it. */
  function FirstIndexOf(tags: seq<FilterTagOption>, item: FilterTagOption): (r: Option<nat>)
    ensures r.None? <==> item !in tags
    ensures r.Some? ==> r.value < |tags| && tags[r.value] == item && item !in tags[..r.value]
  {
    if tags == [] then None
    else if tags[0] == item then Some(0)
    else match FirstIndexOf(tags[1..], item)
      case None => None
      case Some(i) =>
        assert tags[1..][..i] == tags[1..i + 1];
        Some(i + 1)
  }

  /** An entry reset to indeterminate: `.all` stays as it is, a tag keeps its identity and name. */
  function Reset(f: FilterTagOption): (r: FilterTagOption)
    ensures r.All? <==> f.All?
    ensures f.Label? ==> r.option == f.option.(state := Indeterminate)
  {
    match f
    case All => All
    case Label(o) => Label(o.(state := Indeterminate))
  }

  /** Every entry reset: nothing but tag states changes, and afterwards every tag is indeterminate. */
  function AllIndeterminate(tags: seq<FilterTagOption>): (r: seq<FilterTagOption>)
    ensures |r| == |tags|
    ensures forall i :: 0 <= i < |r| ==> Description(r[i]) == Description(tags[i]) && (r[i].All? <==> tags[i].All?)
    ensures forall i :: 0 <= i < |r| && r[i].Label? ==> r[i].option.state == Indeterminate && r[i].option.id == tags[i].option.id
  {
    if tags == [] then [] else [Reset(tags[0])] + AllIndeterminate(tags[1..])
  }

  /** Resetting twice is resetting once. */
  lemma {:induction false} AllIndeterminateIdempotent(tags: seq<FilterTagOption>)
    ensures AllIndeterminate(AllIndeterminate(tags)) == AllIndeterminate(tags)
  {
    if tags != [] {
      var r := AllIndeterminate(tags);
      assert r[1..] == AllIndeterminate(tags[1..]);
      AllIndeterminateIdempotent(tags[1..]);
    }
  }

  /** The filter preview's state. */
  class FilterTagGroup {
    var filterTags: seq<FilterTagOption>
    var allSelected: bool

    constructor(movieTags: seq<TagOption>)
      ensures filterTags == InitialFilterTags(movieTags) && !allSelected
    {
      filterTags := InitialFilterTags(movieTags);
      allSelected := false;
    }

    /**
     * `updateTagOptionState(item:newValue:)`: the first entry equal to `item` takes the new value's state
     * and keeps its own identity and name; nothing else changes, and nothing does when `item` is `.all`
     * or is no longer in the list.
     */
    method UpdateTagOptionState(item: FilterTagOption, newValue: TagOption)
      modifies this`filterTags
      ensures |filterTags| == |old(filterTags)|
      ensures item.All? || item !in old(filterTags) ==> filterTags == old(filterTags)
      ensures item.Label? && item in old(filterTags) ==>
                var k := FirstIndexOf(old(filterTags), item).value;
                filterTags == old(filterTags)[k := Label(item.option.(state := newValue.state))]
      ensures forall j :: 0 <= j < |filterTags| ==> Description(filterTags[j]) == Description(old(filterTags)[j])
    {
      if item.Label? {
        var updated := item.option.(state := newValue.state);
        var index := FirstIndexOf(filterTags, item);
        if index.Some? {
          filterTags := filterTags[index.value := Label(updated)];
        }
      }
    }

    /** `setAllTagsToIndeterminate()`: one pass over the indices, rewriting each tag in place. */
    method SetAllTagsToIndeterminate()
      modifies this`filterTags
      ensures filterTags == AllIndeterminate(old(filterTags))
    {
      var index := 0;
      while index < |filterTags|
        invariant 0 <= index <= |filterTags| == |old(filterTags)|
        invariant forall j :: 0 <= j < index ==> filterTags[j] == Reset(old(filterTags)[j])
        invariant forall j :: index <= j < |filterTags| ==> filterTags[j] == old(filterTags)[j]
      {
        if filterTags[index].Label? {
          var updated := filterTags[index].option.(state := Indeterminate);
          filterTags := filterTags[index := Label(updated)];
        }
        index := index + 1;
      }
      ResetEach(old(filterTags));
    }

    /** A tag's toggle was written: update that tag and clear the "All" toggle. */
    method SetLabel(item: FilterTagOption, newValue: TagOption)
      modifies this
      ensures !allSelected
    {
      UpdateTagOptionState(item, newValue);
      allSelected := false;
    }

    /** The "All" toggle was written: switching it on resets every tag. */
    method SetAllSelected(value: bool)
      modifies this
      ensures allSelected == value
      ensures value && !old(allSelected) ==> filterTags == AllIndeterminate(old(filterTags))
      ensures !(value && !old(allSelected)) ==> filterTags == old(filterTags)
    {
      var changed := allSelected != value;
      allSelected := value;
      if changed && value {
        SetAllTagsToIndeterminate();
      }
    }
  }

  /** `AllIndeterminate` resets each entry where it stands. */
  lemma {:induction false} ResetEach(tags: seq<FilterTagOption>)
    ensures forall i :: 0 <= i < |tags| ==> AllIndeterminate(tags)[i] == Reset(tags[i])
  {
    if tags != [] {
      ResetEach(tags[1..]);
    }
  }
}
