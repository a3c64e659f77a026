/** The card's settings records and their default values. Each record is a
    value: the host rebuilds the whole aggregate on every refresh. */
module Settings {
  import opened Js

  /** Prefix and postfix labels share one field set (`PreFixLabelSettings`,
      `PostFixLabelSettings`); they differ only in their defaults. */
  datatype AffixLabelSettings = AffixLabelSettings(
    show: bool,
    text: Option<string>,
    color: string,
    colorNegative: string,
    colorNeutral: string,
    colorPositive: string,
    spacing: real,
    fontSize: real,
    fontFamily: string,
    isBold: bool,
    isItalic: bool,
    isUnderline: bool,
    lineAlignment: string,
    displayUnit: int,
    decimalPlaces: int)

  datatype DataLabelSettings = DataLabelSettings(
    text: string,
    color: string,
    colorNegative: string,
    colorNeutral: string,
    colorPositive: string,
    displayUnit: int,
    decimalPlaces: int,
    fontSize: real,
    fontFamily: string,
    isBold: bool,
    isItalic: bool,
    isUnderline: bool,
    wordWrap: bool,
    lineAlignment: string)

  datatype CategoryLabelSettings = CategoryLabelSettings(
    text: Option<string>,
    show: bool,
    color: string,
    colorNegative: string,
    colorNeutral: string,
    colorPositive: string,
    fontSize: real,
    fontFamily: string,
    isBold: bool,
    isItalic: bool,
    isUnderline: bool)

  datatype FillSettings = FillSettings(
    show: bool,
    backgroundColor: string,
    showImage: bool,
    imageURL: Option<string>,
    imagePadding: real,
    transparency: real)

  /** `strokeType` codes: "0" solid, "1" dashed, "2" dotted. */
  datatype StrokeSettings = StrokeSettings(
    show: bool,
    strokeColor: string,
    strokeWidth: real,
    strokeType: string,
    strokeLineCap: string,
    strokeArray: Option<string>,
    cornerRadius: real,
    topLeft: bool,
    topRight: bool,
    bottomLeft: bool,
    bottomRight: bool,
    topLeftInward: bool,
    topRightInward: bool,
    bottomLeftInward: bool,
    bottomRightInward: bool)

  /** One conditional-formatting rule: `conditionK`, `valueK`,
      `foregroundColorK` and `backgroundColorK` of the source. */
  datatype ConditionSlot = ConditionSlot(
    comparator: string,
    threshold: NumOrNull,
    foregroundColor: Option<string>,
    backgroundColor: Option<string>)

  const SlotCount: nat := 10

  /** The ten rule slots, slot K of the source at index K - 1. */
  type Slots = s: seq<ConditionSlot> | |s| == SlotCount
    witness seq(10, _ => ConditionSlot(">", Null, None, None))

  datatype ConditionSettings = ConditionSettings(
    show: bool,
    conditionNumbers: int,
    applyToDataLabel: bool,
    applyToCategoryLabel: bool,
    applyToPrefix: bool,
    applyToPostfix: bool,
    slots: Slots)

  datatype TooltipSettings = TooltipSettings(
    title: Option<string>,
    content: Option<string>,
    measureFormat: int,
    measurePrecision: int)

  datatype AboutSettings = AboutSettings(version: string, helpUrl: string)

  datatype GeneralSettings = GeneralSettings(alignment: string, alignmentSpacing: real)

  datatype ExternalLink = ExternalLink(show: bool, url: string)

  /** The aggregate `AdvanceCardVisualSettings`. */
  datatype VisualSettings = VisualSettings(
    prefixSettings: AffixLabelSettings,
    postfixSettings: AffixLabelSettings,
    dataLabelSettings: DataLabelSettings,
    categoryLabelSettings: CategoryLabelSettings,
    backgroundSettings: FillSettings,
    strokeSettings: StrokeSettings,
    conditionSettings: ConditionSettings,
    tootlipSettings: TooltipSettings,
    aboutSettings: AboutSettings,
    general: GeneralSettings,
    externalLink: ExternalLink)

  const StandardFont := "wf_standard-font, helvetica, arial, sans-serif"
  const SegoeFont := "\"Segoe UI\", wf_segoe-ui_normal, helvetica, arial, sans-serif"

  const DefaultPostfix := AffixLabelSettings(
    true, None, "#000000", "#F25022", "#000000", "#7FBA00",
    4.0, 12.0, StandardFont, false, false, false, "left", 0, 0)

  const DefaultPrefix := AffixLabelSettings(
    true, None, "#333333", "#F25022", "#000000", "#7FBA00",
    4.0, 12.0, StandardFont, false, false, false, "left", 0, 0)

  const DefaultDataLabel := DataLabelSettings(
    "0", "#00FF00", "#F25022", "#000000", "#7FBA00", 0, 0,
    20.0, StandardFont, false, false, false, true, "left")

  const DefaultCategoryLabel := CategoryLabelSettings(
    None, false, "#a6a6a6", "#F25022", "#000000", "#7FBA00",
    12.0, SegoeFont, false, false, false)

  const DefaultFill := FillSettings(false, "#FEA19E", false, None, 0.0, 0.0)

  const DefaultStroke := StrokeSettings(
    false, "#666666", 2.0, "0", "butt", None, 15.0,
    false, false, false, false, false, false, false, false)

  /** Slots 4 to 10: comparator ">" and nothing else set. */
  const UnsetSlot := ConditionSlot(">", Null, None, None)

  const DefaultSlots: Slots := [
    ConditionSlot(">", Number(0.0), Some("#00FF00"), None),
    ConditionSlot("<", Number(0.0), Some("#FF0000"), None),
    ConditionSlot("=", Number(0.0), Some("#000000"), None),
    UnsetSlot, UnsetSlot, UnsetSlot, UnsetSlot, UnsetSlot, UnsetSlot, UnsetSlot]

  const DefaultCondition := ConditionSettings(false, 3, false, false, false, true, DefaultSlots)

  const DefaultTooltip := TooltipSettings(None, None, 0, 0)

  const DefaultSettings := VisualSettings(
    DefaultPrefix, DefaultPostfix, DefaultDataLabel, DefaultCategoryLabel,
    DefaultFill, DefaultStroke, DefaultCondition, DefaultTooltip,
    AboutSettings("", ""), GeneralSettings("left", 0.0), ExternalLink(false, ""))

  lemma DefaultConditionSettings()
    ensures !DefaultSettings.conditionSettings.show
    ensures DefaultSettings.conditionSettings.conditionNumbers == 3
    ensures 1 <= DefaultSettings.conditionSettings.conditionNumbers <= SlotCount
    ensures !DefaultSettings.conditionSettings.applyToDataLabel
    ensures !DefaultSettings.conditionSettings.applyToCategoryLabel
    ensures !DefaultSettings.conditionSettings.applyToPrefix
    ensures DefaultSettings.conditionSettings.applyToPostfix
  {
  }

  lemma DefaultFirstSlots()
    ensures DefaultSlots[0] == ConditionSlot(">", Number(0.0), Some("#00FF00"), None)
    ensures DefaultSlots[1] == ConditionSlot("<", Number(0.0), Some("#FF0000"), None)
    ensures DefaultSlots[2] == ConditionSlot("=", Number(0.0), Some("#000000"), None)
  {
  }

  lemma DefaultRemainingSlots()
    ensures forall i :: 3 <= i < SlotCount ==>
      DefaultSlots[i].comparator == ">" && DefaultSlots[i].threshold == Null &&
      DefaultSlots[i].foregroundColor == None && DefaultSlots[i].backgroundColor == None
  {
  }

  /** Every count the refresh clamp can produce names an existing slot. */
  lemma ClampedCountIndexesSlots(cs: ConditionSettings, k: int)
    requires 1 <= cs.conditionNumbers <= SlotCount
    requires 1 <= k <= cs.conditionNumbers
    ensures 0 <= k - 1 < |cs.slots|
  {
  }

  lemma DefaultPostfixSettings()
    ensures DefaultSettings.postfixSettings.show
    ensures DefaultSettings.postfixSettings.color == "#000000"
    ensures DefaultSettings.postfixSettings.colorNegative == "#F25022"
    ensures DefaultSettings.postfixSettings.colorNeutral == "#000000"
    ensures DefaultSettings.postfixSettings.colorPositive == "#7FBA00"
  {
  }

  lemma DefaultFillAndStroke()
    ensures !DefaultSettings.backgroundSettings.show
    ensures !DefaultSettings.backgroundSettings.showImage
    ensures DefaultSettings.backgroundSettings.imageURL == None
    ensures DefaultSettings.backgroundSettings.imagePadding == 0.0
    ensures DefaultSettings.backgroundSettings.transparency == 0.0
    ensures !DefaultSettings.strokeSettings.show
    ensures DefaultSettings.strokeSettings.strokeType == "0"
    ensures DefaultSettings.strokeSettings.strokeWidth == 2.0
    ensures DefaultSettings.strokeSettings.cornerRadius == 15.0
    ensures var st := DefaultSettings.strokeSettings;
      !st.topLeft && !st.topRight && !st.bottomLeft && !st.bottomRight
    ensures var st := DefaultSettings.strokeSettings;
      !st.topLeftInward && !st.topRightInward && !st.bottomLeftInward && !st.bottomRightInward
  {
  }

  lemma DefaultLabels()
    ensures !DefaultSettings.categoryLabelSettings.show
    ensures DefaultSettings.prefixSettings.displayUnit == 0 && DefaultSettings.prefixSettings.decimalPlaces == 0
    ensures DefaultSettings.postfixSettings.displayUnit == 0 && DefaultSettings.postfixSettings.decimalPlaces == 0
    ensures DefaultSettings.dataLabelSettings.displayUnit == 0 && DefaultSettings.dataLabelSettings.decimalPlaces == 0
  {
  }
}
