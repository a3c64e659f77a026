/** The card visual's per-refresh decisions: the data-view guard, the clamp
    of the rule count, which elements exist, which colour each one gets, the
    sign colour of the postfix, and the property-pane projection. */
module Visual {
  import opened Js
  import opened Settings
  import opened Pane
  import opened Card

  /** Which colour `getConditionalColors` is asked for: "F" or "B". */
  datatype Side = Foreground | Background

  /** The values `AdvanceCardData` extracts from the table for one refresh. */
  datatype CardData = CardData(
    dataLabelValue: NumOrNull,
    prefixLabelValue: NumOrNull,
    postfixLabelValue: NumOrNull,
    conditionValue: NumOrNull,
    dataLabelDisplayName: string)

  /** A table as the host hands it over: columns and rows may be missing. */
  datatype RawTable = RawTable(columns: Option<seq<Column>>, rows: Option<seq<seq<PropValue>>>)

  datatype DataView = DataView(table: Option<RawTable>, objects: Option<DataViewObjects>)

  /** `options.dataViews`; a missing array and a missing first entry are both modelled. */
  datatype UpdateOptions = UpdateOptions(dataViews: Option<seq<Option<DataView>>>)

  /** The code the visual calls but that is not part of this model: the settings
      parser, the value extraction of `AdvanceCardData`, and the rule matching
      of `getConditionalColors`. */
  datatype Collaborators = Collaborators(
    parse: DataView -> VisualSettings,
    extract: (Table, VisualSettings, string) -> CardData,
    conditionalColor: (real, Side, ConditionSettings) -> Option<string>)

  // ------------------------------------------------------------------ guard

  /** The data view, its table, the columns and the rows are all present. */
  predicate HasTable(o: UpdateOptions) {
    && o.dataViews.Some?
    && |o.dataViews.value| > 0
    && o.dataViews.value[0].Some?
    && o.dataViews.value[0].value.table.Some?
    && o.dataViews.value[0].value.table.value.columns.Some?
    && o.dataViews.value[0].value.table.value.rows.Some?
  }

  /** The guard refuses a refresh as soon as any one part is missing, and
      accepts it when all are present. */
  lemma GuardNeedsEveryPart(o: UpdateOptions)
    ensures o.dataViews.None? ==> !HasTable(o)
    ensures o.dataViews.Some? && |o.dataViews.value| == 0 ==> !HasTable(o)
    ensures o.dataViews.Some? && |o.dataViews.value| > 0 && o.dataViews.value[0].None? ==> !HasTable(o)
    ensures o.dataViews.Some? && |o.dataViews.value| > 0 && o.dataViews.value[0].Some? ==>
      var dv := o.dataViews.value[0].value;
      && (dv.table.None? ==> !HasTable(o))
      && (dv.table.Some? && dv.table.value.columns.None? ==> !HasTable(o))
      && (dv.table.Some? && dv.table.value.rows.None? ==> !HasTable(o))
      && (dv.table.Some? && dv.table.value.columns.Some? && dv.table.value.rows.Some? ==> HasTable(o))
  {
  }

  function FirstDataView(o: UpdateOptions): DataView
    requires HasTable(o)
  {
    o.dataViews.value[0].value
  }

  function FirstTable(o: UpdateOptions): Table
    requires HasTable(o)
  {
    var t := FirstDataView(o).table.value;
    Table(t.columns.value, t.rows.value)
  }

  // ------------------------------------------------------------------ clamp

  /** The active rule count forced into [1, 10]. */
  function Clamp(n: int): (r: int)
    ensures 1 <= r <= SlotCount
    ensures 1 <= n <= SlotCount ==> r == n
    ensures n > SlotCount ==> r == SlotCount
    ensures n <= 0 ==> r == 1
  {
    if n > SlotCount then SlotCount else if n <= 0 then 1 else n
  }

  lemma ClampIdempotent(n: int)
    ensures Clamp(Clamp(n)) == Clamp(n)
  {
  }

  function ClampSettings(s: VisualSettings): VisualSettings {
    s.(conditionSettings := s.conditionSettings.(conditionNumbers := Clamp(s.conditionSettings.conditionNumbers)))
  }

  // --------------------------------------------------------- colour choices

  /** The conditional foreground and background colours of a refresh. The
      rule matcher is consulted only when conditional formatting is on and
      the condition value is truthy. */
  function ConditionalColors(cs: ConditionSettings, cv: NumOrNull,
                             matcher: (real, Side, ConditionSettings) -> Option<string>)
    : (r: (Option<string>, Option<string>))
    ensures !(cs.show && cv.Truthy()) ==> r.0 == None && r.1 == None
    ensures cs.show && cv.Truthy() ==>
      r.0 == matcher(cv.value, Foreground, cs) && r.1 == matcher(cv.value, Background, cs)
  {
    if cs.show && cv.Truthy() then
      (matcher(cv.value, Foreground, cs), matcher(cv.value, Background, cs))
    else (None, None)
  }

  /** A condition value of 0 (or null) never produces a conditional colour. */
  lemma ZeroConditionValueHasNoColors(cs: ConditionSettings, cv: NumOrNull,
                                      matcher: (real, Side, ConditionSettings) -> Option<string>)
    requires cv == Number(0.0) || cv == Null
    ensures ConditionalColors(cs, cv, matcher) == (None, None)
  {
  }

  /** The colour of the prefix, category or data label: the conditional
      foreground exactly when it is set and the role's `applyTo…` flag is on,
      otherwise the role's static colour. */
  function LabelColor(fg: Option<string>, applyTo: bool, staticColor: string): (c: string)
    ensures IsSet(fg) && applyTo ==> c == fg.value
    ensures !(IsSet(fg) && applyTo) ==> c == staticColor
  {
    if IsSet(fg) && applyTo then fg.value else staticColor
  }

  /** The fill colour: the conditional background whenever it is set (no
      `applyTo…` flag takes part), otherwise the fill's own background colour. */
  function FillColor(bg: Option<string>, fs: FillSettings): (c: string)
    ensures IsSet(bg) ==> c == bg.value
    ensures !IsSet(bg) ==> c == fs.backgroundColor
  {
    if IsSet(bg) then bg.value else fs.backgroundColor
  }

  /** The postfix colour by the sign of the postfix value; `null` counts as
      neither positive nor negative. */
  function PostfixSignColor(ps: AffixLabelSettings, v: NumOrNull): (c: string)
    ensures v.IsPositive() ==> c == ps.colorPositive
    ensures v.IsNegative() ==> c == ps.colorNegative
    ensures !v.IsPositive() && !v.IsNegative() ==> c == ps.colorNeutral
  {
    if v.IsPositive() then ps.colorPositive
    else if v.IsNegative() then ps.colorNegative
    else ps.colorNeutral
  }

  // ----------------------------------------------------- state transitions

  /** The invariant of the card's elements: a category label only ever
      accompanies a data label. */
  predicate CategoryNeedsData(s: CardState) {
    s.categoryLabel ==> s.dataLabel
  }

  /** `createLabels` for the data label and the category label beside it:
      without a truthy data value the category label is removed only
      together with an existing data label. */
  function DataLabelsStep(s: CardState, d: NumOrNull, showCategory: bool): CardState {
    s.(dataLabel := d.Truthy(),
       categoryLabel := if d.Truthy() then showCategory else s.categoryLabel && !s.dataLabel)
  }

  /** The card elements that `createLabels` creates or removes on their own. */
  datatype Element = PrefixElement | PostfixElement | StrokeElement | FillElement

  function Exists(s: CardState, e: Element): bool {
    match e
    case PrefixElement => s.prefixLabel
    case PostfixElement => s.postfixLabel
    case StrokeElement => s.stroke
    case FillElement => s.fill
  }

  /** `s` with element `e` present exactly when `wanted`, nothing else changed. */
  function WithElement(s: CardState, e: Element, wanted: bool): CardState {
    match e
    case PrefixElement => s.(prefixLabel := wanted)
    case PostfixElement => s.(postfixLabel := wanted)
    case StrokeElement => s.(stroke := wanted)
    case FillElement => s.(fill := wanted)
  }

  /** The elements that exist after `createLabels`, one element at a time. */
  function CreateLabelsSpec(s: CardState, cfg: VisualSettings, d: NumOrNull, p: NumOrNull, q: NumOrNull)
    : CardState
  {
    var s1 := DataLabelsStep(s, d, cfg.categoryLabelSettings.show);
    var s2 := WithElement(s1, PrefixElement, cfg.prefixSettings.show && p.Truthy());
    var s3 := WithElement(s2, PostfixElement, cfg.postfixSettings.show && q.Truthy());
    var s4 := WithElement(s3, StrokeElement, cfg.strokeSettings.show);
    WithElement(s4, FillElement, cfg.backgroundSettings.show)
  }

  /** The prefix gets its value and its label colour when it exists. */
  function PrefixStep(s: CardState, p: NumOrNull, fg: Option<string>, applyTo: bool, staticColor: string)
    : CardState
  {
    s.(prefixValue := if s.prefixLabel then Some(p) else s.prefixValue,
       prefixColor := if s.prefixLabel then Some(LabelColor(fg, applyTo, staticColor)) else s.prefixColor)
  }

  /** The postfix gets its value when it exists; only a conditional
      foreground replaces its colour, the static colour is not written. */
  function PostfixStep(s: CardState, q: NumOrNull, fg: Option<string>, applyTo: bool): CardState {
    s.(postfixValue := if s.postfixLabel then Some(q) else s.postfixValue,
       postfixColor := if s.postfixLabel && IsSet(fg) && applyTo then Some(fg.value) else s.postfixColor)
  }

  /** The category label is written only when the data label exists too. */
  function CategoryStep(s: CardState, displayName: string, fg: Option<string>, applyTo: bool, staticColor: string)
    : CardState
  {
    var written := s.dataLabel && s.categoryLabel;
    s.(categoryValue := if written then Some(displayName) else s.categoryValue,
       categoryColor := if written then Some(LabelColor(fg, applyTo, staticColor)) else s.categoryColor)
  }

  function DataStep(s: CardState, d: NumOrNull, fg: Option<string>, applyTo: bool, staticColor: string)
    : CardState
  {
    s.(dataValue := if s.dataLabel then Some(d) else s.dataValue,
       dataColor := if s.dataLabel then Some(LabelColor(fg, applyTo, staticColor)) else s.dataColor)
  }

  function StrokeFillStep(s: CardState, bg: Option<string>, st: StrokeSettings, fs: FillSettings): CardState {
    s.(strokeStyle := if s.stroke then Some(st) else s.strokeStyle,
       fillColor := if s.fill then Some(FillColor(bg, fs)) else s.fillColor)
  }

  /** What `applyConditionalColors` writes, element by element in the
      source's order: values and colours of the elements that exist. */
  function ApplyColorsSpec(s: CardState, cfg: VisualSettings, d: NumOrNull, p: NumOrNull, q: NumOrNull,
                           displayName: string, fg: Option<string>, bg: Option<string>): CardState
  {
    var cs := cfg.conditionSettings;
    var s1 := PrefixStep(s, p, fg, cs.applyToPrefix, cfg.prefixSettings.color);
    var s2 := PostfixStep(s1, q, fg, cs.applyToPostfix);
    var s3 := CategoryStep(s2, displayName, fg, cs.applyToCategoryLabel, cfg.categoryLabelSettings.color);
    var s4 := DataStep(s3, d, fg, cs.applyToDataLabel, cfg.dataLabelSettings.color);
    StrokeFillStep(s4, bg, cfg.strokeSettings, cfg.backgroundSettings)
  }

  /** The card after one refresh with (already clamped) settings `cfg`:
      settings handed to the card, elements reconciled, colours applied, and
      finally the postfix colour chosen by sign. */
  function RefreshSpec(s: CardState, cfg: VisualSettings, data: CardData,
                       matcher: (real, Side, ConditionSettings) -> Option<string>): CardState
  {
    var colors := ConditionalColors(cfg.conditionSettings, data.conditionValue, matcher);
    var d, p, q := data.dataLabelValue, data.prefixLabelValue, data.postfixLabelValue;
    var created := CreateLabelsSpec(s.(settings := Some(cfg)), cfg, d, p, q);
    var colored := ApplyColorsSpec(created, cfg, d, p, q, data.dataLabelDisplayName, colors.0, colors.1);
    colored.(postfixColor := Some(PostfixSignColor(cfg.postfixSettings, q)))
  }

  // ------------------------------------------------------- label lemmas

  /** `createLabels` as one record update: every element's presence decided
      at once, every value and colour left as it was. */
  lemma CreateLabelsAtOnce(s: CardState, cfg: VisualSettings, d: NumOrNull, p: NumOrNull, q: NumOrNull)
    ensures CreateLabelsSpec(s, cfg, d, p, q) == s.(
      dataLabel := d.Truthy(),
      categoryLabel := if d.Truthy() then cfg.categoryLabelSettings.show else s.categoryLabel && !s.dataLabel,
      prefixLabel := cfg.prefixSettings.show && p.Truthy(),
      postfixLabel := cfg.postfixSettings.show && q.Truthy(),
      stroke := cfg.strokeSettings.show,
      fill := cfg.backgroundSettings.show)
  {
  }

  lemma CreateLabelsExistence(s: CardState, cfg: VisualSettings, d: NumOrNull, p: NumOrNull, q: NumOrNull)
    ensures var r := CreateLabelsSpec(s, cfg, d, p, q);
      && (r.dataLabel <==> d.Truthy())
      && (r.prefixLabel <==> cfg.prefixSettings.show && p.Truthy())
      && (r.postfixLabel <==> cfg.postfixSettings.show && q.Truthy())
      && (r.stroke <==> cfg.strokeSettings.show)
      && (r.fill <==> cfg.backgroundSettings.show)
  {
    CreateLabelsAtOnce(s, cfg, d, p, q);
  }

  /** Reconciling keeps "category label ⇒ data label", and under it the
      category label exists exactly when the data value is truthy and the
      category label is switched on. */
  lemma CreateLabelsKeepsCategoryInvariant(s: CardState, cfg: VisualSettings, d: NumOrNull, p: NumOrNull, q: NumOrNull)
    requires CategoryNeedsData(s)
    ensures CategoryNeedsData(CreateLabelsSpec(s, cfg, d, p, q))
    ensures CreateLabelsSpec(s, cfg, d, p, q).categoryLabel <==> d.Truthy() && cfg.categoryLabelSettings.show
  {
    CreateLabelsAtOnce(s, cfg, d, p, q);
  }

  /** Without the invariant the source leaves a category label standing with
      no data label beside it. */
  lemma OrphanCategoryLabelSurvives(s: CardState, cfg: VisualSettings, d: NumOrNull, p: NumOrNull, q: NumOrNull)
    requires s.categoryLabel && !s.dataLabel && !d.Truthy()
    ensures CreateLabelsSpec(s, cfg, d, p, q).categoryLabel
    ensures !CategoryNeedsData(CreateLabelsSpec(s, cfg, d, p, q))
  {
    CreateLabelsAtOnce(s, cfg, d, p, q);
  }

  lemma CreateLabelsIdempotent(s: CardState, cfg: VisualSettings, d: NumOrNull, p: NumOrNull, q: NumOrNull)
    ensures var once := CreateLabelsSpec(s, cfg, d, p, q);
      CreateLabelsSpec(once, cfg, d, p, q) == once
  {
    CreateLabelsAtOnce(s, cfg, d, p, q);
    CreateLabelsAtOnce(CreateLabelsSpec(s, cfg, d, p, q), cfg, d, p, q);
  }

  // ----------------------------------------------------- refresh lemmas

  lemma RefreshKeepsCategoryInvariant(s: CardState, cfg: VisualSettings, data: CardData,
                                      matcher: (real, Side, ConditionSettings) -> Option<string>)
    requires CategoryNeedsData(s)
    ensures CategoryNeedsData(RefreshSpec(s, cfg, data, matcher))
  {
  }

  /** After a refresh the postfix colour is the sign colour, whatever the
      conditional foreground and the `applyToPostfix` flag are. */
  lemma RefreshPostfixColorIsSignColor(s: CardState, cfg: VisualSettings, data: CardData,
                                       matcher: (real, Side, ConditionSettings) -> Option<string>)
    ensures var r := RefreshSpec(s, cfg, data, matcher);
      var ps, q := cfg.postfixSettings, data.postfixLabelValue;
      && (q.IsPositive() ==> r.postfixColor == Some(ps.colorPositive))
      && (q.IsNegative() ==> r.postfixColor == Some(ps.colorNegative))
      && (!q.IsPositive() && !q.IsNegative() ==> r.postfixColor == Some(ps.colorNeutral))
  {
  }

  /** The static postfix colour takes no part in a refresh: two settings that
      differ only in it give the same card (apart from the settings record
      handed to the card). */
  lemma RefreshIgnoresStaticPostfixColor(s: CardState, cfg: VisualSettings, c: string, data: CardData,
                                         matcher: (real, Side, ConditionSettings) -> Option<string>)
    ensures var other := cfg.(postfixSettings := cfg.postfixSettings.(color := c));
      RefreshSpec(s, cfg, data, matcher).(settings := None) ==
      RefreshSpec(s, other, data, matcher).(settings := None)
  {
  }

  /** The prefix, category and data labels and the fill carry the colours
      chosen by LabelColor and FillColor whenever they exist after a refresh. */
  lemma RefreshColorsOfExistingElements(s: CardState, cfg: VisualSettings, data: CardData,
                                        matcher: (real, Side, ConditionSettings) -> Option<string>)
    requires CategoryNeedsData(s)
    ensures var r := RefreshSpec(s, cfg, data, matcher);
      var fg := ConditionalColors(cfg.conditionSettings, data.conditionValue, matcher).0;
      var bg := ConditionalColors(cfg.conditionSettings, data.conditionValue, matcher).1;
      var cs := cfg.conditionSettings;
      && (r.prefixLabel ==>
            r.prefixColor == Some(LabelColor(fg, cs.applyToPrefix, cfg.prefixSettings.color)))
      && (r.categoryLabel ==>
            r.categoryColor == Some(LabelColor(fg, cs.applyToCategoryLabel, cfg.categoryLabelSettings.color)))
      && (r.dataLabel ==>
            r.dataColor == Some(LabelColor(fg, cs.applyToDataLabel, cfg.dataLabelSettings.color)))
      && (r.fill ==> r.fillColor == Some(FillColor(bg, cfg.backgroundSettings)))
      && (r.stroke ==> r.strokeStyle == Some(cfg.strokeSettings))
  {
  }

  /** An element that does not exist after a refresh receives no value, colour
      or style; the postfix colour is the one exception, since the sign colour
      is written unconditionally. */
  lemma RefreshLeavesAbsentElements(s: CardState, cfg: VisualSettings, data: CardData,
                                    matcher: (real, Side, ConditionSettings) -> Option<string>)
    ensures var r := RefreshSpec(s, cfg, data, matcher);
      && (!r.prefixLabel ==> r.prefixValue == s.prefixValue && r.prefixColor == s.prefixColor)
      && (!r.postfixLabel ==> r.postfixValue == s.postfixValue)
      && (!r.dataLabel ==> r.dataValue == s.dataValue && r.dataColor == s.dataColor)
      && (!r.dataLabel ==> r.categoryValue == s.categoryValue && r.categoryColor == s.categoryColor)
      && (!r.categoryLabel ==> r.categoryValue == s.categoryValue && r.categoryColor == s.categoryColor)
      && (!r.stroke ==> r.strokeStyle == s.strokeStyle)
      && (!r.fill ==> r.fillColor == s.fillColor)
  {
  }

  /** A second refresh with the same settings and data changes nothing. */
  lemma RefreshIdempotent(s: CardState, cfg: VisualSettings, data: CardData,
                          matcher: (real, Side, ConditionSettings) -> Option<string>)
    ensures var once := RefreshSpec(s, cfg, data, matcher);
      RefreshSpec(once, cfg, data, matcher) == once
  {
    var colors := ConditionalColors(cfg.conditionSettings, data.conditionValue, matcher);
    var d, p, q := data.dataLabelValue, data.prefixLabelValue, data.postfixLabelValue;
    var sign := Some(PostfixSignColor(cfg.postfixSettings, q));
    var created := CreateLabelsSpec(s.(settings := Some(cfg)), cfg, d, p, q);
    var colored := ApplyColorsSpec(created, cfg, d, p, q, data.dataLabelDisplayName, colors.0, colors.1);
    var once := colored.(postfixColor := sign);
    assert CreateLabelsSpec(once.(settings := Some(cfg)), cfg, d, p, q) == once;
    var again := ApplyColorsSpec(once, cfg, d, p, q, data.dataLabelDisplayName, colors.0, colors.1);
    assert again.(postfixColor := sign) == once;
  }

  // ------------------------------------------------------------ the visual

  class Visual {
    var settings: Option<VisualSettings>
    var tableData: Option<Table>
    var cardData: Option<CardData>
    const card: AdvanceCard

    /** Settings, table and extracted data are set together by a refresh; a
        refreshed rule count is in [1, 10]; the card keeps its category
        invariant. */
    ghost predicate Valid()
      reads this, card
    {
      && (settings.Some? <==> tableData.Some?)
      && (settings.Some? <==> cardData.Some?)
      && (settings.Some? ==> 1 <= settings.value.conditionSettings.conditionNumbers <= SlotCount)
      && CategoryNeedsData(card.state)
    }

    constructor ()
      ensures Valid() && fresh(card)
      ensures settings == None && tableData == None && cardData == None
      ensures card.state == EmptyCard
    {
      card := new AdvanceCard();
      settings, tableData, cardData := None, None, None;
    }

    /** One host refresh. Without a data view carrying a table with columns
        and rows nothing changes; otherwise the parsed settings are clamped
        and the card is brought to RefreshSpec. */
    method Update(options: UpdateOptions, host: Collaborators, locale: string)
      requires Valid()
      modifies this, card
      ensures Valid()
      ensures !HasTable(options) ==>
        && settings == old(settings) && tableData == old(tableData) && cardData == old(cardData)
        && card.state == old(card.state)
      ensures HasTable(options) ==>
        var cfg := ClampSettings(host.parse(FirstDataView(options)));
        var data := host.extract(FirstTable(options), cfg, locale);
        && settings == Some(cfg)
        && tableData == Some(FirstTable(options))
        && cardData == Some(data)
        && card.state == RefreshSpec(old(card.state), cfg, data, host.conditionalColor)
    {
      if options.dataViews.None? || |options.dataViews.value| == 0 || options.dataViews.value[0].None? {
        return;
      }
      var dataView := options.dataViews.value[0].value;
      if dataView.table.None? || dataView.table.value.columns.None? || dataView.table.value.rows.None? {
        return;
      }
      settings := Some(host.parse(dataView));
      tableData := Some(Table(dataView.table.value.columns.value, dataView.table.value.rows.value));

      ClampConditionNumbers();

      cardData := Some(host.extract(tableData.value, settings.value, locale));
      var data := cardData.value;
      card.UpdateSettings(settings.value);

      CreateLabels(settings.value, data.dataLabelValue, data.prefixLabelValue, data.postfixLabelValue);
      ApplyConditionalColors(data.dataLabelValue, data.prefixLabelValue, data.postfixLabelValue,
                             host.conditionalColor);
      GetPostfixFontColor();
    }

    method ClampConditionNumbers()
      requires settings.Some?
      modifies this`settings
      ensures settings == Some(ClampSettings(old(settings.value)))
    {
      var s := settings.value;
      var cs := s.conditionSettings;
      if cs.conditionNumbers > SlotCount {
        settings := Some(s.(conditionSettings := cs.(conditionNumbers := SlotCount)));
      } else if cs.conditionNumbers <= 0 {
        settings := Some(s.(conditionSettings := cs.(conditionNumbers := 1)));
      }
    }

    /** Sets the postfix colour by the sign of the postfix value, whether or
        not the postfix label exists. */
    method GetPostfixFontColor()
      requires settings.Some? && cardData.Some?
      modifies card
      ensures card.state == old(card.state).(postfixColor :=
        Some(PostfixSignColor(settings.value.postfixSettings, cardData.value.postfixLabelValue)))
    {
      var ps := settings.value.postfixSettings;
      var q := cardData.value.postfixLabelValue;
      if q.IsPositive() {
        card.UpdatePostfixLabelColor(ps.colorPositive);
      } else if q.IsNegative() {
        card.UpdatePostfixLabelColor(ps.colorNegative);
      } else {
        card.UpdatePostfixLabelColor(ps.colorNeutral);
      }
    }

    /** Creates and removes card elements, one element at a time. */
    method CreateLabels(cfg: VisualSettings, d: NumOrNull, p: NumOrNull, q: NumOrNull)
      modifies card
      ensures card.state == CreateLabelsSpec(old(card.state), cfg, d, p, q)
    {
      ReconcileDataLabels(d, cfg.categoryLabelSettings.show);
      Reconcile(PrefixElement, cfg.prefixSettings.show && p.Truthy());
      Reconcile(PostfixElement, cfg.postfixSettings.show && q.Truthy());
      Reconcile(StrokeElement, cfg.strokeSettings.show);
      Reconcile(FillElement, cfg.backgroundSettings.show);
    }

    method ReconcileDataLabels(d: NumOrNull, showCategory: bool)
      modifies card
      ensures card.state == DataLabelsStep(old(card.state), d, showCategory)
    {
      if d.Truthy() {
        if !card.state.dataLabel {
          card.CreateDataLabel();
        }
        if showCategory {
          if !card.state.categoryLabel {
            card.CreateCategoryLabel();
          }
        } else if card.state.categoryLabel {
          card.RemoveCategoryLabel();
        }
      } else if card.state.dataLabel {
        card.RemoveDataLabel();
        if card.state.categoryLabel {
          card.RemoveCategoryLabel();
        }
      }
    }

    /** Creates the element when it is wanted and missing, removes it when it
        exists and is not wanted. */
    method Reconcile(e: Element, wanted: bool)
      modifies card
      ensures card.state == WithElement(old(card.state), e, wanted)
    {
      var present := Exists(card.state, e);
      if wanted && !present {
        match e {
          case PrefixElement => card.CreatePrefixLabel();
          case PostfixElement => card.CreatePostfixLabel();
          case StrokeElement => card.CreateStroke();
          case FillElement => card.CreateFill();
        }
      } else if !wanted && present {
        match e {
          case PrefixElement => card.RemovePrefixLabel();
          case PostfixElement => card.RemovePostfixLabel();
          case StrokeElement => card.RemoveStroke();
          case FillElement => card.RemoveFill();
        }
      }
    }

    /** Asks for the conditional colours and writes values and colours to the
        elements that exist. */
    method ApplyConditionalColors(d: NumOrNull, p: NumOrNull, q: NumOrNull,
                                  matcher: (real, Side, ConditionSettings) -> Option<string>)
      requires settings.Some? && cardData.Some?
      modifies card
      ensures var colors := ConditionalColors(settings.value.conditionSettings, cardData.value.conditionValue, matcher);
        card.state == ApplyColorsSpec(old(card.state), settings.value, d, p, q,
                                      cardData.value.dataLabelDisplayName, colors.0, colors.1)
    {
      var cfg := settings.value;
      var cs := cfg.conditionSettings;
      var fg, bg := GetConditionalColors(matcher);
      ApplyPrefixColor(p, fg, cs.applyToPrefix, cfg.prefixSettings.color);
      ApplyPostfixColor(q, fg, cs.applyToPostfix);
      ApplyCategoryColor(cardData.value.dataLabelDisplayName, fg, cs.applyToCategoryLabel,
                         cfg.categoryLabelSettings.color);
      ApplyDataColor(d, fg, cs.applyToDataLabel, cfg.dataLabelSettings.color);
      ApplyStrokeAndFill(bg, cfg.strokeSettings, cfg.backgroundSettings);
    }

    /** The rule matcher is asked, for the foreground and then the background,
        only when conditional formatting is on and the condition value is
        truthy; otherwise both colours stay undefined. */
    method GetConditionalColors(matcher: (real, Side, ConditionSettings) -> Option<string>)
      returns (fg: Option<string>, bg: Option<string>)
      requires settings.Some? && cardData.Some?
      ensures (fg, bg) == ConditionalColors(settings.value.conditionSettings, cardData.value.conditionValue, matcher)
    {
      fg, bg := None, None;
      var cs := settings.value.conditionSettings;
      if cs.show {
        var conditionValue := cardData.value.conditionValue;
        if conditionValue.Truthy() {
          fg := matcher(conditionValue.value, Foreground, cs);
          bg := matcher(conditionValue.value, Background, cs);
        }
      }
    }

    method ApplyPrefixColor(p: NumOrNull, fg: Option<string>, applyTo: bool, staticColor: string)
      modifies card
      ensures card.state == PrefixStep(old(card.state), p, fg, applyTo, staticColor)
    {
      if card.state.prefixLabel {
        card.UpdatePrefixLabelValue(p);
        if IsSet(fg) && applyTo {
          card.UpdatePrefixLabelColor(fg.value);
        } else {
          card.UpdatePrefixLabelColor(staticColor);
        }
      }
    }

    /** The static postfix colour is not written here: only a conditional
        foreground replaces the postfix colour. */
    method ApplyPostfixColor(q: NumOrNull, fg: Option<string>, applyTo: bool)
      modifies card
      ensures card.state == PostfixStep(old(card.state), q, fg, applyTo)
    {
      if card.state.postfixLabel {
        card.UpdatePostfixLabelValue(q);
        if IsSet(fg) && applyTo {
          card.UpdatePostfixLabelColor(fg.value);
        }
      }
    }

    /** The category label is updated only when the data label exists too. */
    method ApplyCategoryColor(displayName: string, fg: Option<string>, applyTo: bool, staticColor: string)
      modifies card
      ensures card.state == CategoryStep(old(card.state), displayName, fg, applyTo, staticColor)
    {
      if card.state.dataLabel {
        if card.state.categoryLabel {
          card.UpdateCategoryLabelValue(displayName);
          if IsSet(fg) && applyTo {
            card.UpdateCategoryLabelColor(fg.value);
          } else {
            card.UpdateCategoryLabelColor(staticColor);
          }
        }
      }
    }

    method ApplyDataColor(d: NumOrNull, fg: Option<string>, applyTo: bool, staticColor: string)
      modifies card
      ensures card.state == DataStep(old(card.state), d, fg, applyTo, staticColor)
    {
      if card.state.dataLabel {
        card.UpdateDataLabelValue(d);
        if IsSet(fg) && applyTo {
          card.UpdateDataLabelColor(fg.value);
        } else {
          card.UpdateDataLabelColor(staticColor);
        }
      }
    }

    method ApplyStrokeAndFill(bg: Option<string>, st: StrokeSettings, fs: FillSettings)
      modifies card
      ensures card.state == StrokeFillStep(old(card.state), bg, st, fs)
    {
      if card.state.stroke {
        card.UpdateStroke(st);
      }
      if card.state.fill {
        if IsSet(bg) {
          card.UpdateFill(fs, bg.value);
        } else {
          card.UpdateFill(fs, fs.backgroundColor);
        }
      }
    }

    /** The property-pane instances for one settings object. */
    method EnumerateObjectInstances(objectName: string) returns (r: Enumeration)
      requires Valid()
      ensures !IsKnownObject(objectName) ==> r == Fallback
      ensures IsKnownObject(objectName) && settings.None? ==> r == TypeError
      ensures objectName == GeneralName && settings.Some? ==>
        r == Instances([GeneralInstance(settings.value.general)])
      ensures objectName == ConditionName && settings.Some? ==>
        var cs := settings.value.conditionSettings;
        && r.Instances?
        && |r.items| == 1 + cs.conditionNumbers
        && r.items[0] == ConditionHeader(cs)
        && forall k :: 1 <= k < |r.items| ==> r.items[k] == ConditionSlotInstance(k, cs.slots[k - 1])
      ensures objectName == TooltipName && settings.Some? ==>
        && r == Instances([TooltipHeader(settings.value.tootlipSettings)] + TooltipInstances(tableData.value.columns))
        && |r.items| == 1 + 2 * CountNumericTooltips(tableData.value.columns)
      ensures objectName == BackgroundName && settings.Some? ==>
        r == Instances([BackgroundInstance(settings.value.backgroundSettings)])
    {
      var out: seq<Instance> := [];
      if objectName == GeneralName {
        if settings.None? {
          return TypeError;
        }
        out := out + [GeneralInstance(settings.value.general)];
      } else if objectName == ConditionName {
        if settings.None? {
          return TypeError;
        }
        out := ConditionInstances(settings.value.conditionSettings);
      } else if objectName == TooltipName {
        if settings.None? {
          return TypeError;
        }
        out := TooltipPaneInstances(settings.value.tootlipSettings, tableData.value.columns);
      } else if objectName == BackgroundName {
        if settings.None? {
          return TypeError;
        }
        out := out + [BackgroundInstance(settings.value.backgroundSettings)];
      }
      if |out| > 0 {
        r := Instances(out);
      } else {
        r := Fallback;
      }
    }
    /** The "conditionSettings" instances: the header, then one instance per
        active rule slot, numbered from 1. */
    static method ConditionInstances(cs: ConditionSettings) returns (out: seq<Instance>)
      requires cs.conditionNumbers <= SlotCount
      ensures |out| == 1 + (if cs.conditionNumbers < 0 then 0 else cs.conditionNumbers)
      ensures out[0] == ConditionHeader(cs)
      ensures forall k :: 1 <= k < |out| ==> out[k] == ConditionSlotInstance(k, cs.slots[k - 1])
    {
      out := [ConditionHeader(cs)];
      var index := 1;
      while index <= cs.conditionNumbers
        invariant 1 <= index
        invariant index <= cs.conditionNumbers + 1 || index == 1
        invariant |out| == index
        invariant out[0] == ConditionHeader(cs)
        invariant forall k :: 1 <= k < index ==> out[k] == ConditionSlotInstance(k, cs.slots[k - 1])
      {
        out := out + [ConditionSlotInstance(index, cs.slots[index - 1])];
        index := index + 1;
      }
    }

    /** The "tootlipSettings" instances: the header, then a display-unit and a
        precision instance for every numeric tooltip column, in column order. */
    static method TooltipPaneInstances(ts: TooltipSettings, columns: seq<Column>) returns (out: seq<Instance>)
      ensures out == [TooltipHeader(ts)] + TooltipInstances(columns)
      ensures |out| == 1 + 2 * CountNumericTooltips(columns)
    {
      out := [TooltipHeader(ts)];
      var i := 0;
      while i < |columns|
        invariant 0 <= i <= |columns|
        invariant out == [TooltipHeader(ts)] + TooltipInstances(columns[..i])
      {
        var column := columns[i];
        if column.isTooltipMeasure {
          if column.numeric || column.integer {
            out := out + TooltipPair(column);
          }
        }
        assert columns[..i + 1][..i] == columns[..i];
        i := i + 1;
      }
      assert columns[..|columns|] == columns;
    }
  }
}
