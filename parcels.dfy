/**
 * The saved view state both `MarkdownHelper` versions hand to Android: their
 * `SS` class, an `AbsSavedState` that also carries the current markdown, and
 * its `Parcel` form. A parcel is modelled as the sequence of values written to it.
 */
module Parcels {
  import opened Wrappers

  /** A `Parcelable` view state. */
  datatype Parcelable =
    /** the helper's `SS(superState, markdown)` */
    | SavedMarkdown(superState: Parcelable, markdown: Option<string>)
    /** any other `AbsSavedState` */
    | OtherSavedState(superState: Parcelable)
    /** a state that is not an `AbsSavedState` */
    | OtherParcelable(id: nat)

  predicate IsAbsSavedState(state: Parcelable) {
    state.SavedMarkdown? || state.OtherSavedState?
  }

  /** One value written to a `Parcel`. */
  datatype ParcelValue =
    | ParcelableValue(parcelable: Parcelable)
    | StringValue(text: Option<string>)

  type Parcel = seq<ParcelValue>

  /** `SS.writeToParcel`: the super state (what `AbsSavedState` writes), then the markdown. */
  function WriteToParcel(ss: Parcelable, dest: Parcel): (r: Parcel)
    requires ss.SavedMarkdown?
    ensures |r| == |dest| + 2 && r[..|dest|] == dest
  {
    dest + [ParcelableValue(ss.superState), StringValue(ss.markdown)]
  }

  /**
   * `SS(source)`: reads back what `writeToParcel` wrote, and what is left of
   * the parcel. A parcel that does not start with those two values is `None`.
   */
  function CreateFromParcel(source: Parcel): (r: Option<(Parcelable, Parcel)>)
    ensures r.Some? ==> |source| >= 2 && r.value.0.SavedMarkdown? && r.value.1 == source[2..]
  {
    if |source| >= 2 && source[0].ParcelableValue? && source[1].StringValue?
    then Some((SavedMarkdown(source[0].parcelable, source[1].text), source[2..]))
    else None
  }

  /** The saved markdown, null or not, survives the parcel, and so does whatever follows it. */
  lemma ParcelRoundTrip(ss: Parcelable, dest: Parcel, rest: Parcel)
    requires ss.SavedMarkdown?
    ensures CreateFromParcel((WriteToParcel(ss, dest) + rest)[|dest|..]) == Some((ss, rest))
  {
    var p := WriteToParcel(ss, dest) + rest;
    assert p[|dest|..] == [ParcelableValue(ss.superState), StringValue(ss.markdown)] + rest;
  }
}
