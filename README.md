# Advance Card visual — a Dafny model of its refresh logic

The Advance Card is a Power BI custom visual. It shows one data label, an
optional category label beneath it, an optional prefix and postfix label,
and an optional stroke and fill. On each host refresh (`update`) the visual
does the following:

1. Returns early unless the first data view carries a table with columns and rows.
2. Parses the settings.
3. Clamps the number of active conditional-formatting rules into [1, 10].
4. Extracts the label values.
5. Creates or removes card elements (`createLabels`).
6. Writes values and colours to the elements that exist (`applyConditionalColors`).
7. Sets the postfix colour by the sign of the postfix value (`getpostfixfontcolor`).

The host's property pane asks the visual for its instances
(`enumerateObjectInstances`). Property values attached to table columns are
read with a defaulting lookup (`getPropertyValue`).

The project has five files:

- `js.dfy` — JavaScript values as the visual uses them:
  - optional values;
  - numbers that may be `null`, with JavaScript truthiness and signs;
  - property-pane values;
  - the decimal text of an index in keys like `"condition" + index`, with its parse-back.
- `settings.dfy` — the settings records as datatypes with their default values. The ten rule slots are a sequence of length 10.
- `pane.dfy` — the data-view objects, table columns, property-pane instances and the lookup with a default.
- `card.dfy` — the card object (`AdvanceCard`), whose implementation is not part of this model. It is abstract state: which elements exist, and the last value, colour or style written to each. Its create, remove and update methods only set that state.
- `visual.dfy` — the visual itself:
  - the colour choices as functions;
  - the card after each refresh step as specification functions on the card's state;
  - the lemmas about them;
  - the class `Visual`, whose methods follow the source step by step and are proved to reach those specifications.

The settings parser, the value extraction of `AdvanceCardData` and the rule
matcher `getConditionalColors` are not part of this model. They are
parameters of `Update` (`Collaborators`), and nothing is assumed about what
they compute. The host's locale is passed through to the extraction
unchanged.

## Model

| member | source | states |
|---|---|---|
| Visual.GuardNeedsEveryPart | visual.ts:73-80 | The refresh guard refuses a refresh when the data views, the first data view, its table, the columns or the rows are missing, each one alone, and accepts it when all are present |
| Visual.Clamp | visual.ts:88-93 | The clamped count is in [1, 10]; a count already in range is unchanged, one above 10 becomes 10, one at or below 0 becomes 1 |
| Visual.ClampIdempotent | visual.ts:88-93 | Clamping twice gives the same count as clamping once |
| Visual.Visual.ClampConditionNumbers | visual.ts:88-93 | The stored settings are replaced by the same settings with the rule count clamped |
| Visual.Visual.constructor | visual.ts:62-67 | A new visual has no settings, table or extracted data, and an empty card |
| Visual.Visual.Update | visual.ts:69-130 | Without a data view whose table has columns and rows, nothing changes. Otherwise the settings are the parsed and clamped settings and the table is the data view's table. The card reaches the refresh specification: settings handed over, elements created or removed, colours applied, postfix colour set by sign. The visual's invariant is kept: the rule count is in [1, 10] and no category label exists without a data label |
| Visual.Visual.CreateLabels | visual.ts:145-194 | The card reaches the `createLabels` specification, element by element |
| Visual.Visual.ReconcileDataLabels | visual.ts:146-162 | The data label exists iff the data value is truthy. The category label follows its `show` flag when the data value is truthy. Otherwise it is removed only together with an existing data label |
| Visual.Visual.Reconcile | visual.ts:164-193 | The prefix, postfix, stroke or fill exists afterwards exactly when wanted; nothing else on the card changes |
| Visual.CreateLabelsAtOnce | visual.ts:145-194 | The element-by-element reconciliation equals one record update that decides every element's presence and keeps every value and colour |
| Visual.CreateLabelsExistence | visual.ts:145-194 | After `createLabels`, each element exists under its own condition: the data label iff the data value is truthy; the prefix iff shown and its value is truthy; the postfix likewise; the stroke iff shown; the fill iff shown |
| Visual.CreateLabelsKeepsCategoryInvariant | visual.ts:146-162 | "Category label ⇒ data label" is preserved, and under it the category label exists iff the data value is truthy and the category label is shown |
| Visual.OrphanCategoryLabelSurvives | visual.ts:157-162 | Without that invariant, a category label with no data label beside it survives a refresh with a falsy data value |
| Visual.CreateLabelsIdempotent | visual.ts:145-194 | Reconciling a second time with the same inputs changes nothing |
| Visual.ConditionalColors | visual.ts:198-206 | Both conditional colours are undefined unless conditional formatting is on and the condition value is truthy. In that case they are the matcher's answers for the foreground and the background |
| Visual.Visual.GetConditionalColors | visual.ts:198-206 | The imperative colour query returns exactly the pair ConditionalColors gives |
| Visual.ZeroConditionValueHasNoColors | visual.ts:202-205 | A condition value of 0 or null never yields a conditional colour |
| Visual.LabelColor | visual.ts:213-217 | A label's colour is the conditional foreground exactly when it is set and the role's `applyTo…` flag is on; otherwise it is the role's static colour |
| Visual.FillColor | visual.ts:253-259 | The fill colour is the conditional background whenever it is set, without any `applyTo…` flag; otherwise it is the fill's own background colour |
| Visual.Visual.ApplyConditionalColors | visual.ts:196-260 | The card reaches the `applyConditionalColors` specification for the conditional colours of this refresh |
| Visual.Visual.ApplyPrefixColor | visual.ts:210-218 | An existing prefix gets its value and its label colour; a missing prefix gets nothing |
| Visual.Visual.ApplyPostfixColor | visual.ts:220-228 | An existing postfix gets its value. Only a set conditional foreground with `applyToPostfix` on changes its colour; the static colour is never written |
| Visual.Visual.ApplyCategoryColor | visual.ts:230-239 | The category label gets the data label's display name and its label colour only when both the data label and the category label exist |
| Visual.Visual.ApplyDataColor | visual.ts:230-247 | An existing data label gets its value and its label colour |
| Visual.Visual.ApplyStrokeAndFill | visual.ts:249-259 | An existing stroke gets the stroke settings; an existing fill gets the fill colour; missing ones get nothing |
| Visual.PostfixSignColor | visual.ts:132-143 | The postfix colour is `color_positive` for a positive value, `color_negative` for a negative one, and `color_neutral` for zero or null |
| Visual.Visual.GetPostfixFontColor | visual.ts:132-143 | The card's postfix colour becomes the sign colour, whether or not the postfix label exists; nothing else changes |
| Visual.RefreshKeepsCategoryInvariant | visual.ts:103-111 | A whole refresh preserves "category label ⇒ data label" |
| Visual.RefreshPostfixColorIsSignColor | visual.ts:109-111 | After a refresh the postfix colour is the sign colour, whatever the conditional foreground and `applyToPostfix` are |
| Visual.RefreshIgnoresStaticPostfixColor | visual.ts:223-227 | Two settings that differ only in the static postfix colour give the same card, apart from the settings record handed to it |
| Visual.RefreshColorsOfExistingElements | visual.ts:210-259 | After a refresh, every existing prefix, category label, data label and fill carries the colour LabelColor or FillColor chooses, and an existing stroke carries the stroke settings |
| Visual.RefreshLeavesAbsentElements | visual.ts:210-259 | An element missing after a refresh keeps the value, colour and style it had before. The postfix colour is the one exception, since the sign colour is written regardless |
| Visual.RefreshIdempotent | visual.ts:103-111 | A second refresh with the same settings, data and matcher leaves the card as the first one left it |
| Visual.Visual.EnumerateObjectInstances | visual.ts:323-413 | An unknown object name falls through to the library's enumeration. Before the first refresh that passes the data-view guard, the four known names fail with a TypeError. "general" and "backgroundSettings" give one instance. "conditionSettings" gives the header and then 1 + conditionNumbers instances in all, instance k for slot k. "tootlipSettings" gives the header and two instances per numeric tooltip column, 1 + 2 × their count in all |
| Visual.Visual.ConditionInstances | visual.ts:333-357 | The rule instances are the header followed by one instance per active slot, instance k built from slot k |
| Visual.Visual.TooltipPaneInstances | visual.ts:358-381 | The loop over the columns yields the header followed by the per-column pairs in column order, 1 + 2 × the number of numeric tooltip columns |
| Pane.GetPropertyValue | visual.ts:415-426 | The stored property is returned when the objects, the object and the property are all present. A property whose value is null is returned too. Otherwise the default is returned |
| Pane.GetAfterSet | visual.ts:415-426 | A property stored in the objects is found again by the lookup, whatever default is given |
| Pane.GetAfterSetOther | visual.ts:415-426 | Storing one property does not change what the lookup answers for any other object or property |
| Pane.ConditionSlotInstance | visual.ts:346-356 | The instance for slot k carries exactly the keys `conditionk`, `valuek`, `foregroundColork` and `backgroundColork`, holding the slot's comparator, threshold and colours |
| Pane.ConditionKeysDisjoint | visual.ts:350-353 | Instances for two different slots share no property key |
| Pane.NumericTooltips | visual.ts:363-365 | Every column it returns is a numeric tooltip column of the table, and it returns as many as the table has |
| Pane.NumericTooltipsComplete | visual.ts:363-365 | Every numeric tooltip column of the table is among the columns that get tooltip instances |
| Pane.NumericTooltipsSnoc | visual.ts:363-365 | Column order is kept: a column appended to the table is appended to the numeric tooltip columns exactly when it is a numeric tooltip |
| Pane.TooltipInstancesSnoc | visual.ts:363-380 | A column appended to the table adds its two instances at the end exactly when it is a numeric tooltip, as the `forEach` pushes them |
| Pane.GeneralInstanceProperties | visual.ts:326-332 | The "general" instance carries exactly `alignmentSpacing` and `alignment` from the general settings, with no display name and no selector |
| Pane.ConditionHeaderProperties | visual.ts:334-345 | The first "conditionSettings" instance carries exactly show, conditionNumbers and the four `applyTo…` flags, each with its setting's value |
| Pane.TooltipHeaderProperties | visual.ts:359-362 | The first "tootlipSettings" instance carries exactly the tooltip's title and content |
| Pane.TooltipPairProperties | visual.ts:366-377 | A numeric tooltip column gets two instances, both selecting it by query name. The first is "<name> Display Unit" carrying only `measureFormat`; the second is "<name> Precision" carrying only `measurePrecision`. Both values are read from the column's objects with default 0 |
| Pane.TooltipInstances | visual.ts:363-380 | The per-column tooltip instances are, for the i-th numeric tooltip column, its display-unit instance at position 2i and its precision instance at 2i + 1, with nothing else in between |
| Pane.TooltipInstancesSelectColumns | visual.ts:366-377 | Every per-column instance is a "tootlipSettings" instance that selects a numeric tooltip column of the table by its query name. It carries either that column's `measureFormat` or its `measurePrecision`, read with 0 as the default |
| Pane.BackgroundInstance | visual.ts:382-407 | The single fill instance carries exactly show, background colour, showImage and transparency, plus `imageURL` and `imagePadding` exactly when the image is shown, each holding the fill setting of that name |
| Js.NatToString | visual.ts:350-353 | The decimal text of an index is non-empty, all digits, and has no leading zero |
| Js.ParseNatToString | visual.ts:350-353 | Reading the decimal text of an index back gives the index |
| Js.NatToStringInjective | visual.ts:350-353 | Different indices have different decimal texts |
| Js.KeyInjective | visual.ts:350-353 | One key prefix with two different indices gives two different keys |
| Settings.DefaultConditionSettings | settings.ts:148-154 | Conditional formatting is off by default, three rules are active (inside [1, 10]), and only `applyToPostfix` is on |
| Settings.DefaultFirstSlots | settings.ts:156-169 | Slots 1 to 3 default to (">", 0, #00FF00), ("<", 0, #FF0000) and ("=", 0, #000000), each with a null background |
| Settings.DefaultRemainingSlots | settings.ts:171-204 | Slots 4 to 10 default to ">" with a null threshold and null colours |
| Settings.ClampedCountIndexesSlots | settings.ts:156-204 | With ten slots, every index up to a clamped rule count names an existing slot |
| Settings.DefaultPostfixSettings | settings.ts:49-55 | The postfix is shown by default, with colour #000000, negative #F25022, neutral #000000 and positive #7FBA00 |
| Settings.DefaultFillAndStroke | settings.ts:117-146 | Defaults for the fill: hidden, no image, imageURL null, padding and transparency 0. Defaults for the stroke: hidden and solid ("0"), width 2, corner radius 15, none of the eight corner flags (outward or inward) set |
| Settings.DefaultLabels | settings.ts:63-104 | The category label is hidden by default. The prefix, postfix and data label default to display unit 0 and 0 decimal places |

## Left out

- Rendering: the card's drawing (SVG elements, styles, transforms in `updateLabelsPositions`, `setSize`) is done by `AdvanceCard`, which is not part of this model. The card is kept as abstract existence, value, colour and style state. The `update…Styles` calls carry no modelled state.
- Create and remove on the card only change an element's presence. A removed element keeps the last value and colour written to it, since the card's own behaviour is not visible.
- `getConditionalColors` and `AdvanceCardData` are opaque parameters. Nothing is claimed about rule matching, value formatting, display units, rounding or the locale.
- `AdvanceCardVisualSettings.parse` and the fallback `AdvanceCardVisualSettings.enumerateObjectInstances` belong to the host library. `parse` is a parameter; the fallback is the result `Fallback`.
- `getFormattingModel` is a static descriptor tree with no decisions, and is left out.
- Host wiring is left out: `addUrl` (a click handler calling the host), the commented-out tooltip and context-menu code, the rendering events, and the `try`/`catch` that reports errors to them. The visual's constructor is modelled only as the initial state.
- Viewport sizes are not modelled, because they only reach `setSize`.
- Numbers are exact reals or `null`. NaN, infinities and floating-point rounding are not modelled; truthiness is "non-null and non-zero".
- Label values are numbers or `null`. The extraction can also hand over a text value, such as a postfix of `"%"`. Such a value is truthy but neither above nor below 0, so the source gives it `color_neutral`. Text-valued labels are not represented.
- A table column without `roles` or `type` would throw when its tooltip instances are built. Every modelled column carries both flags, so that error is not modelled.
- `conditionNumbers` is an integer. A fractional count from the pane is not modelled.
- Property-pane values are booleans, numbers, strings or null. The settings are fully typed records, so reading the ten `conditionK` fields by a computed name becomes indexing the slot sequence.
- Visual.Visual.CreateLabels: takes the clamped settings as a parameter instead of reading `this.settings`. `Update` passes exactly the stored settings, so the behaviour is the same.
- Visual.Visual.ConditionInstances: requires the rule count to be at most 10, which every refresh establishes. Beyond ten, the source would read `undefined` slots; that case is not modelled.
