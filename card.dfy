/** The card's rendered elements, kept as abstract state: whether each
    element exists, and the last value, colour or style written to it. The
    drawing itself (SVG elements, transforms, fonts) is not modelled. */
module Card {
  import opened Js
  import opened Settings

  datatype CardState = CardState(
    settings: Option<VisualSettings>,
    dataLabel: bool,
    categoryLabel: bool,
    prefixLabel: bool,
    postfixLabel: bool,
    stroke: bool,
    fill: bool,
    dataValue: Option<NumOrNull>,
    categoryValue: Option<string>,
    prefixValue: Option<NumOrNull>,
    postfixValue: Option<NumOrNull>,
    dataColor: Option<string>,
    categoryColor: Option<string>,
    prefixColor: Option<string>,
    postfixColor: Option<string>,
    strokeStyle: Option<StrokeSettings>,
    fillColor: Option<string>)

  /** A card with no element and nothing written yet. */
  const EmptyCard := CardState(None, false, false, false, false, false, false,
    None, None, None, None, None, None, None, None, None, None)

  /** The card object: its whole observable state is one record, and each
      create, remove and update operation replaces one component of it. */
  class AdvanceCard {
    var state: CardState

    constructor ()
      ensures state == EmptyCard
    {
      state := EmptyCard;
    }

    method UpdateSettings(s: VisualSettings)
      modifies this
      ensures state == old(state).(settings := Some(s))
    {
      state := state.(settings := Some(s));
    }

    method CreateDataLabel()
      modifies this
      ensures state == old(state).(dataLabel := true)
    {
      state := state.(dataLabel := true);
    }

    method RemoveDataLabel()
      modifies this
      ensures state == old(state).(dataLabel := false)
    {
      state := state.(dataLabel := false);
    }

    method CreateCategoryLabel()
      modifies this
      ensures state == old(state).(categoryLabel := true)
    {
      state := state.(categoryLabel := true);
    }

    method RemoveCategoryLabel()
      modifies this
      ensures state == old(state).(categoryLabel := false)
    {
      state := state.(categoryLabel := false);
    }

    method CreatePrefixLabel()
      modifies this
      ensures state == old(state).(prefixLabel := true)
    {
      state := state.(prefixLabel := true);
    }

    method RemovePrefixLabel()
      modifies this
      ensures state == old(state).(prefixLabel := false)
    {
      state := state.(prefixLabel := false);
    }

    method CreatePostfixLabel()
      modifies this
      ensures state == old(state).(postfixLabel := true)
    {
      state := state.(postfixLabel := true);
    }

    method RemovePostfixLabel()
      modifies this
      ensures state == old(state).(postfixLabel := false)
    {
      state := state.(postfixLabel := false);
    }

    method CreateStroke()
      modifies this
      ensures state == old(state).(stroke := true)
    {
      state := state.(stroke := true);
    }

    method RemoveStroke()
      modifies this
      ensures state == old(state).(stroke := false)
    {
      state := state.(stroke := false);
    }

    method CreateFill()
      modifies this
      ensures state == old(state).(fill := true)
    {
      state := state.(fill := true);
    }

    method RemoveFill()
      modifies this
      ensures state == old(state).(fill := false)
    {
      state := state.(fill := false);
    }

    method UpdateDataLabelValue(v: NumOrNull)
      modifies this
      ensures state == old(state).(dataValue := Some(v))
    {
      state := state.(dataValue := Some(v));
    }

    method UpdateDataLabelColor(c: string)
      modifies this
      ensures state == old(state).(dataColor := Some(c))
    {
      state := state.(dataColor := Some(c));
    }

    method UpdateCategoryLabelValue(name: string)
      modifies this
      ensures state == old(state).(categoryValue := Some(name))
    {
      state := state.(categoryValue := Some(name));
    }

    method UpdateCategoryLabelColor(c: string)
      modifies this
      ensures state == old(state).(categoryColor := Some(c))
    {
      state := state.(categoryColor := Some(c));
    }

    method UpdatePrefixLabelValue(v: NumOrNull)
      modifies this
      ensures state == old(state).(prefixValue := Some(v))
    {
      state := state.(prefixValue := Some(v));
    }

    method UpdatePrefixLabelColor(c: string)
      modifies this
      ensures state == old(state).(prefixColor := Some(c))
    {
      state := state.(prefixColor := Some(c));
    }

    method UpdatePostfixLabelValue(v: NumOrNull)
      modifies this
      ensures state == old(state).(postfixValue := Some(v))
    {
      state := state.(postfixValue := Some(v));
    }

    method UpdatePostfixLabelColor(c: string)
      modifies this
      ensures state == old(state).(postfixColor := Some(c))
    {
      state := state.(postfixColor := Some(c));
    }

    method UpdateStroke(st: StrokeSettings)
      modifies this
      ensures state == old(state).(strokeStyle := Some(st))
    {
      state := state.(strokeStyle := Some(st));
    }

    /** Only the colour of the fill is kept; the rest of `fs` styles the element. */
    method UpdateFill(fs: FillSettings, c: string)
      modifies this
      ensures state == old(state).(fillColor := Some(c))
    {
      state := state.(fillColor := Some(c));
    }
  }
}
