/** The host's data view as the visual reads it, and the property-pane
    instances the visual hands back to the host's configuration UI. */
module Pane {
  import opened Js
  import opened Settings

  /** One data-view object: property name to value. */
  type DataViewObject = map<string, PropValue>

  /** Object name to object; `None` is an entry whose value is `null`. */
  type DataViewObjects = map<string, Option<DataViewObject>>

  /** A table column: its display and query names, whether its role
      `tooltipMeasures` is exactly `true`, its numeric/integer type flags and
      the data-view objects attached to it (if any). */
  datatype Column = Column(
    displayName: string,
    queryName: string,
    isTooltipMeasure: bool,
    numeric: bool,
    integer: bool,
    objects: Option<DataViewObjects>)

  datatype Table = Table(columns: seq<Column>, rows: seq<seq<PropValue>>)

  datatype Selector = NoSelector | Metadata(queryName: string)

  datatype Instance = Instance(
    objectName: string,
    displayName: Option<string>,
    properties: map<string, PropValue>,
    selector: Selector)

  /** What `enumerateObjectInstances` answers: the instances it built, the
      library's generic enumeration (an external call), or a `TypeError`
      thrown because the settings have not been parsed yet. */
  datatype Enumeration = Instances(items: seq<Instance>) | Fallback | TypeError

  const GeneralName := "general"
  const ConditionName := "conditionSettings"
  const TooltipName := "tootlipSettings"
  const BackgroundName := "backgroundSettings"

  predicate IsKnownObject(name: string) {
    name == GeneralName || name == ConditionName || name == TooltipName || name == BackgroundName
  }

  // ---------------------------------------------------------------- lookup

  /** `objects`, `objects[objectName]` and `objects[objectName][propertyName]`
      are all present. A property whose value is `null` is present. */
  predicate HasProperty(objects: Option<DataViewObjects>, objectName: string, propertyName: string) {
    && objects.Some?
    && objectName in objects.value
    && objects.value[objectName].Some?
    && propertyName in objects.value[objectName].value
  }

  function GetPropertyValue(objects: Option<DataViewObjects>, objectName: string,
                            propertyName: string, defaultValue: PropValue): (r: PropValue)
    ensures HasProperty(objects, objectName, propertyName) ==>
      r == objects.value[objectName].value[propertyName]
    ensures !HasProperty(objects, objectName, propertyName) ==> r == defaultValue
  {
    if objects.None? then defaultValue
    else if objectName !in objects.value then defaultValue
    else match objects.value[objectName]
      case None => defaultValue
      case Some(obj) =>
        if propertyName in obj then obj[propertyName] else defaultValue
  }

  /** How the host stores a property value: creates the objects map and the
      object when they are missing or `null`. */
  function SetProperty(objects: Option<DataViewObjects>, objectName: string,
                       propertyName: string, v: PropValue): Option<DataViewObjects>
  {
    var m := if objects.Some? then objects.value else map[];
    var obj := if objectName in m && m[objectName].Some? then m[objectName].value else map[];
    Some(m[objectName := Some(obj[propertyName := v])])
  }

  /** A stored property is found again, even when its value is `null`. */
  lemma GetAfterSet(objects: Option<DataViewObjects>, objectName: string,
                    propertyName: string, v: PropValue, d: PropValue)
    ensures GetPropertyValue(SetProperty(objects, objectName, propertyName, v), objectName, propertyName, d) == v
  {
  }

  /** Storing one property does not change what any other lookup answers. */
  lemma GetAfterSetOther(objects: Option<DataViewObjects>, objectName: string, propertyName: string,
                         v: PropValue, otherObject: string, otherProperty: string, d: PropValue)
    requires otherObject != objectName || otherProperty != propertyName
    ensures GetPropertyValue(SetProperty(objects, objectName, propertyName, v), otherObject, otherProperty, d)
         == GetPropertyValue(objects, otherObject, otherProperty, d)
  {
  }

  // ------------------------------------------------------------- instances

  /** The "general" instance: the alignment and its spacing. */
  function GeneralInstance(g: GeneralSettings): Instance {
    Instance(GeneralName, None,
      map["alignmentSpacing" := PNum(g.alignmentSpacing), "alignment" := PStr(g.alignment)],
      NoSelector)
  }

  lemma GeneralInstanceProperties(g: GeneralSettings)
    ensures var r := GeneralInstance(g);
      && r.objectName == GeneralName && r.displayName == None && r.selector == NoSelector
      && r.properties.Keys == {"alignmentSpacing", "alignment"}
      && r.properties["alignmentSpacing"] == PNum(g.alignmentSpacing)
      && r.properties["alignment"] == PStr(g.alignment)
  {
  }

  /** The first "conditionSettings" instance: the switches of the rule set. */
  function ConditionHeader(cs: ConditionSettings): Instance {
    Instance(ConditionName, None,
      map[
        "show" := PBool(cs.show),
        "conditionNumbers" := PNum(cs.conditionNumbers as real),
        "applyToDataLabel" := PBool(cs.applyToDataLabel),
        "applyToCategoryLabel" := PBool(cs.applyToCategoryLabel),
        "applyToPrefix" := PBool(cs.applyToPrefix),
        "applyToPostfix" := PBool(cs.applyToPostfix)],
      NoSelector)
  }

  lemma ConditionHeaderProperties(cs: ConditionSettings)
    ensures var r := ConditionHeader(cs);
      && r.objectName == ConditionName && r.displayName == None && r.selector == NoSelector
      && r.properties.Keys ==
        {"show", "conditionNumbers", "applyToDataLabel", "applyToCategoryLabel", "applyToPrefix", "applyToPostfix"}
      && r.properties["show"] == PBool(cs.show)
      && r.properties["conditionNumbers"] == PNum(cs.conditionNumbers as real)
      && r.properties["applyToDataLabel"] == PBool(cs.applyToDataLabel)
      && r.properties["applyToCategoryLabel"] == PBool(cs.applyToCategoryLabel)
      && r.properties["applyToPrefix"] == PBool(cs.applyToPrefix)
      && r.properties["applyToPostfix"] == PBool(cs.applyToPostfix)
  {
  }

  function ConditionKeys(k: nat): set<string> {
    {"condition" + NatToString(k), "value" + NatToString(k),
     "foregroundColor" + NatToString(k), "backgroundColor" + NatToString(k)}
  }

  /** The instance for rule slot `k` (1-based) carries exactly `conditionk`,
      `valuek`, `foregroundColork` and `backgroundColork`, holding the slot's
      comparator, threshold and colours. */
  function ConditionSlotInstance(k: nat, slot: ConditionSlot): (r: Instance)
    ensures r.objectName == ConditionName && r.displayName == None && r.selector == NoSelector
    ensures r.properties.Keys == ConditionKeys(k)
    ensures r.properties["condition" + NatToString(k)] == PStr(slot.comparator)
    ensures r.properties["value" + NatToString(k)] == NumValue(slot.threshold)
    ensures r.properties["foregroundColor" + NatToString(k)] == StrValue(slot.foregroundColor)
    ensures r.properties["backgroundColor" + NatToString(k)] == StrValue(slot.backgroundColor)
  {
    var n := NatToString(k);
    assert ("condition" + n)[0] == 'c' && ("value" + n)[0] == 'v';
    assert ("foregroundColor" + n)[0] == 'f' && ("backgroundColor" + n)[0] == 'b';
    Instance(ConditionName, None,
      map[
        "condition" + n := PStr(slot.comparator),
        "value" + n := NumValue(slot.threshold),
        "foregroundColor" + n := StrValue(slot.foregroundColor),
        "backgroundColor" + n := StrValue(slot.backgroundColor)],
      NoSelector)
  }

  /** Two keys built from different indices differ: by the prefix's first
      letter, or, for one prefix, by the index. */
  lemma KeysDiffer(p: string, q: string, k: nat, j: nat)
    requires k != j
    requires p == q || (|p| > 0 && |q| > 0 && p[0] != q[0])
    ensures p + NatToString(k) != q + NatToString(j)
  {
    if p == q {
      KeyInjective(p, k, j);
    } else {
      assert (p + NatToString(k))[0] == p[0];
      assert (q + NatToString(j))[0] == q[0];
    }
  }

  /** Two different slots never share a property key. */
  lemma ConditionKeysDisjoint(k: nat, j: nat)
    requires k != j
    ensures ConditionKeys(k) !! ConditionKeys(j)
  {
    var ps := ["condition", "value", "foregroundColor", "backgroundColor"];
    forall a, b | 0 <= a < 4 && 0 <= b < 4
      ensures ps[a] + NatToString(k) != ps[b] + NatToString(j)
    {
      KeysDiffer(ps[a], ps[b], k, j);
    }
    assert ps[0] == "condition" && ps[1] == "value";
    assert ps[2] == "foregroundColor" && ps[3] == "backgroundColor";
  }

  /** The first "tootlipSettings" instance: the tooltip's title and content. */
  function TooltipHeader(ts: TooltipSettings): Instance {
    Instance(TooltipName, None,
      map["title" := StrValue(ts.title), "content" := StrValue(ts.content)],
      NoSelector)
  }

  lemma TooltipHeaderProperties(ts: TooltipSettings)
    ensures var r := TooltipHeader(ts);
      && r.objectName == TooltipName && r.displayName == None && r.selector == NoSelector
      && r.properties.Keys == {"title", "content"}
      && r.properties["title"] == StrValue(ts.title)
      && r.properties["content"] == StrValue(ts.content)
  {
  }

  /** A column that gets its own display-unit and precision instances. */
  predicate IsNumericTooltip(c: Column) {
    c.isTooltipMeasure && (c.numeric || c.integer)
  }

  /** The two per-column instances: the column's display unit and precision,
      read from the column's own objects with 0 as the default. */
  function TooltipPair(c: Column): seq<Instance> {
    [Instance(TooltipName, Some(c.displayName + " Display Unit"),
       map["measureFormat" := GetPropertyValue(c.objects, TooltipName, "measureFormat", PNum(0.0))],
       Metadata(c.queryName)),
     Instance(TooltipName, Some(c.displayName + " Precision"),
       map["measurePrecision" := GetPropertyValue(c.objects, TooltipName, "measurePrecision", PNum(0.0))],
       Metadata(c.queryName))]
  }

  lemma TooltipPairProperties(c: Column)
    ensures var r := TooltipPair(c);
      && |r| == 2
      && (forall i :: 0 <= i < 2 ==> r[i].objectName == TooltipName && r[i].selector == Metadata(c.queryName))
      && r[0].displayName == Some(c.displayName + " Display Unit")
      && r[0].properties.Keys == {"measureFormat"}
      && r[0].properties["measureFormat"] == GetPropertyValue(c.objects, TooltipName, "measureFormat", PNum(0.0))
      && r[1].displayName == Some(c.displayName + " Precision")
      && r[1].properties.Keys == {"measurePrecision"}
      && r[1].properties["measurePrecision"] == GetPropertyValue(c.objects, TooltipName, "measurePrecision", PNum(0.0))
  {
  }

  /** Number of numeric tooltip columns, counted from the front. */
  function CountNumericTooltips(cols: seq<Column>): nat {
    if cols == [] then 0
    else (if IsNumericTooltip(cols[0]) then 1 else 0) + CountNumericTooltips(cols[1..])
  }

  lemma {:induction false} CountNumericTooltipsSnoc(cols: seq<Column>, c: Column)
    ensures CountNumericTooltips(cols + [c]) ==
      CountNumericTooltips(cols) + (if IsNumericTooltip(c) then 1 else 0)
  {
    if cols != [] {
      assert (cols + [c])[1..] == cols[1..] + [c];
      CountNumericTooltipsSnoc(cols[1..], c);
    } else {
      assert (cols + [c])[1..] == [];
    }
  }

  /** No numeric tooltip column of the table is missed. */
  lemma {:induction false} NumericTooltipsComplete(cols: seq<Column>)
    ensures forall c :: c in cols && IsNumericTooltip(c) ==> c in NumericTooltips(cols)
    decreases |cols|
  {
    if cols != [] {
      var init, last := cols[..|cols| - 1], cols[|cols| - 1];
      assert cols == init + [last];
      NumericTooltipsComplete(init);
      forall c | c in cols && IsNumericTooltip(c)
        ensures c in NumericTooltips(cols)
      {
        if c != last {
          assert c in init;
        }
      }
    }
  }

  /** The numeric tooltip columns keep column order: a column appended to
      the table is appended to them exactly when it is a numeric tooltip. */
  lemma NumericTooltipsSnoc(cols: seq<Column>, c: Column)
    ensures NumericTooltips(cols + [c]) == NumericTooltips(cols) + (if IsNumericTooltip(c) then [c] else [])
  {
    assert (cols + [c])[..|cols|] == cols;
  }

  /** Appending one numeric column's pair to the instances of the columns
      before it keeps every pair at its column's position. */
  lemma PairsSnoc(prev: seq<Instance>, n: seq<Column>, c: Column)
    requires |prev| == 2 * |n|
    requires forall i :: 0 <= i < |n| ==>
      prev[2 * i] == TooltipPair(n[i])[0] && prev[2 * i + 1] == TooltipPair(n[i])[1]
    ensures var r, m := prev + TooltipPair(c), n + [c];
      forall i :: 0 <= i < |m| ==> r[2 * i] == TooltipPair(m[i])[0] && r[2 * i + 1] == TooltipPair(m[i])[1]
  {
  }

  /** The numeric tooltip columns, in column order. */
  function NumericTooltips(cols: seq<Column>): (r: seq<Column>)
    ensures |r| == CountNumericTooltips(cols)
    ensures forall i :: 0 <= i < |r| ==> r[i] in cols && IsNumericTooltip(r[i])
    decreases |cols|
  {
    if cols == [] then []
    else
      var init, last := cols[..|cols| - 1], cols[|cols| - 1];
      assert cols == init + [last];
      CountNumericTooltipsSnoc(init, last);
      NumericTooltips(init) + (if IsNumericTooltip(last) then [last] else [])
  }

  /** The per-column tooltip instances in column order, as the `forEach`
      appends them: the display-unit and the precision instance of each
      numeric tooltip column in turn. */
  function TooltipInstances(cols: seq<Column>): (r: seq<Instance>)
    ensures |r| == 2 * |NumericTooltips(cols)|
    ensures forall i :: 0 <= i < |NumericTooltips(cols)| ==>
      r[2 * i] == TooltipPair(NumericTooltips(cols)[i])[0] &&
      r[2 * i + 1] == TooltipPair(NumericTooltips(cols)[i])[1]
    decreases |cols|
  {
    if cols == [] then []
    else
      var init, last := cols[..|cols| - 1], cols[|cols| - 1];
      assert cols == init + [last];
      var prev := TooltipInstances(init);
      var tail := if IsNumericTooltip(last) then TooltipPair(last) else [];
      assert NumericTooltips(cols) == NumericTooltips(init) + (if IsNumericTooltip(last) then [last] else []);
      if IsNumericTooltip(last) then PairsSnoc(prev, NumericTooltips(init), last); prev + tail
      else prev + tail
  }

  /** A column appended to the table adds its pair at the end exactly when
      it is a numeric tooltip. */
  lemma TooltipInstancesSnoc(cols: seq<Column>, c: Column)
    ensures TooltipInstances(cols + [c]) ==
      TooltipInstances(cols) + (if IsNumericTooltip(c) then TooltipPair(c) else [])
  {
    assert (cols + [c])[..|cols|] == cols;
  }

  /** Each per-column instance selects a numeric tooltip column of the
      table by its query name and carries exactly one of that column's two
      properties, read with 0 as the default. */
  lemma TooltipInstancesSelectColumns(cols: seq<Column>, i: nat)
    requires i < |TooltipInstances(cols)|
    ensures TooltipInstances(cols)[i].objectName == TooltipName
    ensures var inst := TooltipInstances(cols)[i];
      exists c :: c in cols && IsNumericTooltip(c) && inst.selector == Metadata(c.queryName) &&
        (inst.properties == map["measureFormat" := GetPropertyValue(c.objects, TooltipName, "measureFormat", PNum(0.0))] ||
         inst.properties == map["measurePrecision" := GetPropertyValue(c.objects, TooltipName, "measurePrecision", PNum(0.0))])
  {
    var n := NumericTooltips(cols);
    var k := i / 2;
    assert i == 2 * k || i == 2 * k + 1;
    var c := n[k];
    assert c in cols && IsNumericTooltip(c);
  }

  /** The single "backgroundSettings" instance; the image fields are listed
      only while the image is shown. */
  function BackgroundInstance(fs: FillSettings): (r: Instance)
    ensures r.objectName == BackgroundName && r.displayName == Some("Fill") && r.selector == NoSelector
    ensures "imageURL" in r.properties <==> fs.showImage
    ensures "imagePadding" in r.properties <==> fs.showImage
    ensures r.properties.Keys == {"show", "backgroundColor", "showImage", "transparency"} +
      (if fs.showImage then {"imageURL", "imagePadding"} else {})
    ensures r.properties["show"] == PBool(fs.show)
    ensures r.properties["backgroundColor"] == PStr(fs.backgroundColor)
    ensures r.properties["showImage"] == PBool(fs.showImage)
    ensures r.properties["transparency"] == PNum(fs.transparency)
    ensures fs.showImage ==> r.properties["imageURL"] == StrValue(fs.imageURL)
    ensures fs.showImage ==> r.properties["imagePadding"] == PNum(fs.imagePadding)
  {
    var base := map[
      "show" := PBool(fs.show),
      "backgroundColor" := PStr(fs.backgroundColor),
      "showImage" := PBool(fs.showImage),
      "transparency" := PNum(fs.transparency)];
    if fs.showImage then
      Instance(BackgroundName, Some("Fill"),
        base["imageURL" := StrValue(fs.imageURL)]["imagePadding" := PNum(fs.imagePadding)],
        NoSelector)
    else
      Instance(BackgroundName, Some("Fill"), base, NoSelector)
  }
}
