/**
 * The enrichment of a tool's description for a collection query: the sorted
 * field list for `select`, the key fields with their enumerated values, and
 * the canned filter examples chosen by resource name.
 */
module Description {
  import opened Strings
  import opened OpenApi

  const MAX_FIELDS_DISPLAY: nat := 20
  const MAX_KEY_FIELDS: nat := 10
  const MAX_ENUM_VALUES: nat := 5
  /** How much of a property's description a key-field line shows. */
  const MAX_DESCRIPTION_CHARS: nat := 80

  /** The fields a key-field line is written for, in the order they are written. */
  const PRIORITY_FIELDS: seq<string> := [
    "id",
    "name",
    "state",
    "status",
    "severity",
    "type",
    "description",
    "description_l10n",
    "is_acknowledged",
    "resource_name",
    "resource_type",
    "generated_timestamp",
    "created_timestamp",
    "size",
    "logical_used"]

  /** The properties of the definition `<resource>_instance`, or none. */
  function InstanceProperties(defs: Definitions, resourceName: string): Properties {
    var key := resourceName + "_instance";
    if key in defs then defs[key].properties else []
  }

  // ---------------------------------------------------------------------
  // Available fields for 'select'
  // ---------------------------------------------------------------------

  function SortedFieldNames(props: Properties): seq<string> {
    Sort(Keys(props))
  }

  /** The field names the summary lists: the first ones in sorted order. */
  function ShownFieldNames(props: Properties): seq<string> {
    Take(SortedFieldNames(props), MAX_FIELDS_DISPLAY)
  }

  function FieldsSummary(props: Properties): string {
    var names := SortedFieldNames(props);
    Join(", ", ShownFieldNames(props))
      + if |names| > MAX_FIELDS_DISPLAY then ", ... (" + NatToString(|names|) + " total fields)" else ""
  }

  /** Sorting the field names keeps each of them once. */
  lemma SortedFieldNamesSpec(props: Properties)
    ensures var names := SortedFieldNames(props);
      && Sorted(names)
      && multiset(names) == multiset(Keys(props))
      && |names| == |props|
  {
    var keys := Keys(props);
    SortSpec(keys);
    assert |multiset(SortedFieldNames(props))| == |multiset(keys)|;
  }

  lemma PrefixMultiset(xs: seq<string>, n: nat)
    requires n <= |xs|
    ensures multiset(xs[..n]) <= multiset(xs)
  {
    assert xs == xs[..n] + xs[n..];
  }

  /** The summary is the joined names, then the tail when there are more than 20 fields. */
  lemma FieldsSummaryTail(props: Properties)
    ensures var shown := ShownFieldNames(props);
      var tail := ", ... (" + NatToString(|props|) + " total fields)";
      && (|props| <= MAX_FIELDS_DISPLAY ==> FieldsSummary(props) == Join(", ", shown))
      && (|props| > MAX_FIELDS_DISPLAY ==> FieldsSummary(props) == Join(", ", shown) + tail)
      && (FieldsSummary(props) == Join(", ", shown) <==> |props| <= MAX_FIELDS_DISPLAY)
  {
    SortedFieldNamesSpec(props);
    if |props| > MAX_FIELDS_DISPLAY {
      var tail := ", ... (" + NatToString(|props|) + " total fields)";
      assert |FieldsSummary(props)| == |Join(", ", ShownFieldNames(props))| + |tail|;
    }
  }

  /** Every listed name is a field, and none sorts after a field left out. */
  lemma ShownFieldsAreSmallest(props: Properties)
    ensures var shown := ShownFieldNames(props);
      && (forall i :: 0 <= i < |shown| ==> HasKey(props, shown[i]))
      && (forall i, k :: 0 <= i < |shown| && 0 <= k < |props| && props[k].0 !in shown ==>
            StrLe(shown[i], props[k].0))
  {
    var keys := Keys(props);
    var names := SortedFieldNames(props);
    SortedFieldNamesSpec(props);
    var shown := ShownFieldNames(props);
    forall i | 0 <= i < |shown| ensures HasKey(props, shown[i]) {
      assert shown[i] == names[i];
      assert names[i] in multiset(keys);
      var k :| 0 <= k < |keys| && keys[k] == names[i];
    }
    forall i, k | 0 <= i < |shown| && 0 <= k < |props| && props[k].0 !in shown
      ensures StrLe(shown[i], props[k].0)
    {
      assert keys[k] in multiset(names);
      var j :| 0 <= j < |names| && names[j] == keys[k];
      assert forall m :: 0 <= m < |shown| ==> names[m] == shown[m];
      assert names[i] == shown[i];
    }
  }

  /**
   * The summary lists min(20, N) of the N field names, each at most once, in
   * ascending order, and they are the smallest ones: no name left out sorts
   * before a listed one. The `, ... (N total fields)` tail, with N the number
   * of fields, appears exactly when N exceeds 20.
   */
  lemma ShownFields(props: Properties)
    ensures var shown := ShownFieldNames(props);
      && |shown| == (if |props| <= MAX_FIELDS_DISPLAY then |props| else MAX_FIELDS_DISPLAY)
      && Sorted(shown)
      && (forall i :: 0 <= i < |shown| ==> HasKey(props, shown[i]))
      && (forall i, k :: 0 <= i < |shown| && 0 <= k < |props| && props[k].0 !in shown ==>
            StrLe(shown[i], props[k].0))
      && multiset(shown) <= multiset(Keys(props))
      && (FieldsSummary(props) == Join(", ", shown) <==> |props| <= MAX_FIELDS_DISPLAY)
      && (|props| > MAX_FIELDS_DISPLAY ==>
            FieldsSummary(props) == Join(", ", shown) + ", ... (" + NatToString(|props|) + " total fields)")
  {
    var names := SortedFieldNames(props);
    SortedFieldNamesSpec(props);
    FieldsSummaryTail(props);
    ShownFieldsAreSmallest(props);
    PrefixMultiset(names, |ShownFieldNames(props)|);
  }

  // ---------------------------------------------------------------------
  // Key fields
  // ---------------------------------------------------------------------

  /** The last piece of `s.split("/")`. */
  function LastPiece(s: string): string {
    var pieces := Split(s, '/');
    pieces[|pieces| - 1]
  }

  /**
   * The enumerated values a key-field line shows: the property's own `enum`
   * when it is non-empty, else, when its `$ref` contains `Enum`, the `enum`
   * of the definition the reference names; at most MAX_ENUM_VALUES of them.
   */
  function EnumValuesShown(defs: Definitions, prop: Property): seq<string> {
    if prop.enumValues.Some? && prop.enumValues.value != [] then
      Take(prop.enumValues.value, MAX_ENUM_VALUES)
    else if ContainsText(prop.ref, "Enum") then
      var enumName := LastPiece(prop.ref);
      Take(if enumName in defs then defs[enumName].enumValues else [], MAX_ENUM_VALUES)
    else
      []
  }

  /**
   * The values shown are the first min(5, n) of the list they come from: the
   * inline `enum` when it is non-empty, else the `enum` of the definition a
   * `$ref` containing `Enum` names; there are none when neither applies or
   * that definition is missing.
   */
  lemma EnumValuesBounded(defs: Definitions, prop: Property)
    ensures var shown := EnumValuesShown(defs, prop);
      var inline := prop.enumValues.Some? && prop.enumValues.value != [];
      var referenced := !inline && ContainsText(prop.ref, "Enum") && LastPiece(prop.ref) in defs;
      && |shown| <= MAX_ENUM_VALUES
      && (inline ==>
            var vals := prop.enumValues.value;
            shown != [] && |shown| == Min(|vals|, MAX_ENUM_VALUES) && shown == vals[..|shown|])
      && (referenced ==>
            var vals := defs[LastPiece(prop.ref)].enumValues;
            |shown| == Min(|vals|, MAX_ENUM_VALUES) && shown == vals[..|shown|])
      && (!inline && !referenced ==> shown == [])
  {
  }

  function KeyFieldLine(defs: Definitions, field: string, prop: Property): string {
    var desc := Take(prop.description, MAX_DESCRIPTION_CHARS);
    var shown := EnumValuesShown(defs, prop);
    "- " + field
      + (if desc != "" then ": " + desc else "")
      + (if shown != [] then " (values: " + Join(", ", shown) + ")" else "")
  }

  /** The lines the loop over `fields` appends, one per field the properties have. */
  function KeyFieldLines(defs: Definitions, props: Properties, fields: seq<string>): seq<string> {
    if fields == [] then []
    else
      var f := fields[|fields| - 1];
      KeyFieldLines(defs, props, fields[..|fields| - 1])
        + if HasKey(props, f) then [KeyFieldLine(defs, f, Lookup(props, f))] else []
  }

  function KeyFields(defs: Definitions, props: Properties): string {
    Join("\n", Take(KeyFieldLines(defs, props, PRIORITY_FIELDS), MAX_KEY_FIELDS))
  }

  /** The fields of `fields` that the properties have, in the order of `fields`. */
  function PresentFields(props: Properties, fields: seq<string>): seq<string> {
    if fields == [] then []
    else
      var f := fields[|fields| - 1];
      PresentFields(props, fields[..|fields| - 1]) + if HasKey(props, f) then [f] else []
  }

  /**
   * There is one key-field line per present field, in priority order, and
   * the k-th line is the line for the k-th present field: `- <field>`, then
   * the description and the enumerated values.
   */
  lemma {:induction false} KeyFieldLinesFollowPriority(defs: Definitions, props: Properties, fields: seq<string>)
    ensures var lines := KeyFieldLines(defs, props, fields);
      var present := PresentFields(props, fields);
      && |lines| == |present|
      && forall k :: 0 <= k < |lines| ==>
           HasKey(props, present[k]) && present[k] in fields
           && lines[k] == KeyFieldLine(defs, present[k], Lookup(props, present[k]))
           && lines[k][..2 + |present[k]|] == "- " + present[k]
  {
    if fields != [] {
      KeyFieldLinesFollowPriority(defs, props, fields[..|fields| - 1]);
    }
  }

  lemma JoinEmpty(sep: string, parts: seq<string>)
    requires forall i :: 0 <= i < |parts| ==> parts[i] != ""
    ensures Join(sep, parts) == "" <==> parts == []
  {
    if |parts| >= 2 {
      assert |Join(sep, parts)| >= |parts[0]|;
    }
  }

  /**
   * At most MAX_KEY_FIELDS lines are shown, and the key-field section is
   * empty exactly when the properties have none of the priority fields.
   */
  lemma KeyFieldsShown(defs: Definitions, props: Properties)
    ensures var lines := Take(KeyFieldLines(defs, props, PRIORITY_FIELDS), MAX_KEY_FIELDS);
      var present := PresentFields(props, PRIORITY_FIELDS);
      && |lines| == (if |present| <= MAX_KEY_FIELDS then |present| else MAX_KEY_FIELDS)
      && (KeyFields(defs, props) == "" <==> present == [])
  {
    KeyFieldLinesFollowPriority(defs, props, PRIORITY_FIELDS);
    var lines := Take(KeyFieldLines(defs, props, PRIORITY_FIELDS), MAX_KEY_FIELDS);
    forall i | 0 <= i < |lines| ensures lines[i] != "" {
      assert |lines[i]| >= 2;
    }
    JoinEmpty("\n", lines);
  }

  // ---------------------------------------------------------------------
  // Filter examples
  // ---------------------------------------------------------------------

  /** The canned example sets: three for particular resources, one for any resource with a `state`. */
  datatype ExampleSet = AlertExamples | VolumeExamples | ApplianceExamples | StateExamples | NoExamples

  function ExampleLines(which: ExampleSet): seq<string> {
    match which
    case AlertExamples => [
      "{\"state\": \"eq.ACTIVE\"} - Active alerts only",
      "{\"severity\": \"eq.Critical\"} - Critical severity only",
      "{\"is_acknowledged\": \"eq.false\"} - Unacknowledged alerts",
      "{\"state\": \"eq.ACTIVE\", \"severity\": \"eq.Critical\", \"is_acknowledged\": \"eq.false\"} - Active critical unacknowledged"]
    case VolumeExamples => [
      "{\"state\": \"eq.Ready\"} - Ready volumes only",
      "{\"type\": \"neq.Snapshot\"} - Exclude snapshots"]
    case ApplianceExamples => ["{\"is_valid\": \"eq.true\"} - Valid appliances only"]
    case StateExamples => ["{\"state\": \"eq.<value>\"} - Filter by state"]
    case NoExamples => []
  }

  /** The canned filter examples for a resource. */
  function FilterExampleList(resourceName: string, props: Properties): seq<string> {
    ExampleLines(
      if resourceName == "alert" then AlertExamples
      else if resourceName == "volume" then VolumeExamples
      else if resourceName == "appliance" then ApplianceExamples
      else if HasKey(props, "state") then StateExamples
      else NoExamples)
  }

  /** The examples as a bulleted block, one `- <example>` line each. */
  function BulletLines(examples: seq<string>): string {
    if examples == [] then ""
    else Join("\n", seq(|examples|, i requires 0 <= i < |examples| => "- " + examples[i]))
  }

  function FilterExamples(resourceName: string, props: Properties): string {
    BulletLines(FilterExampleList(resourceName, props))
  }

  /** The bulleted block is empty exactly when there are no examples. */
  lemma BulletLinesEmpty(examples: seq<string>)
    ensures BulletLines(examples) == "" <==> examples == []
  {
    if examples != [] {
      var lines := seq(|examples|, i requires 0 <= i < |examples| => "- " + examples[i]);
      forall i | 0 <= i < |lines| ensures lines[i] != "" {
        assert |lines[i]| >= 2;
      }
      JoinEmpty("\n", lines);
    }
  }

  /**
   * `alert` has four examples, `volume` two, `appliance` one, any other
   * resource with a `state` property one generic example, and the rest none;
   * the examples section is empty exactly when there are none.
   */
  lemma FilterExampleCount(resourceName: string, props: Properties)
    ensures |FilterExampleList(resourceName, props)| ==
      if resourceName == "alert" then 4
      else if resourceName == "volume" then 2
      else if resourceName == "appliance" then 1
      else if HasKey(props, "state") then 1
      else 0
    ensures FilterExamples(resourceName, props) == "" <==> FilterExampleList(resourceName, props) == []
  {
    BulletLinesEmpty(FilterExampleList(resourceName, props));
  }

  // ---------------------------------------------------------------------
  // _build_enhanced_description
  // ---------------------------------------------------------------------

  /** A titled section: the title and the body when the body is non-empty, else nothing. */
  function Section(title: string, body: string): string {
    if body != "" then title + body else ""
  }

  const FIELDS_TITLE := "\n\nAvailable fields for 'select': "
  const KEY_FIELDS_TITLE := "\n\nKey fields:\n"
  const EXAMPLES_TITLE := "\n\nFilter examples (queryParams):\n"

  function BuildEnhancedDescription(
    defs: Definitions, baseDescription: string, resourceName: string, isCollection: bool): string
  {
    var props := InstanceProperties(defs, resourceName);
    if |props| > 0 && isCollection then
      var fields := baseDescription + FIELDS_TITLE + FieldsSummary(props);
      fields + (Section(KEY_FIELDS_TITLE, KeyFields(defs, props))
        + Section(EXAMPLES_TITLE, FilterExamples(resourceName, props)))
    else
      baseDescription
  }

  /**
   * The base description comes back unchanged exactly when the path is not a
   * collection query or `<resource>_instance` has no properties.
   */
  lemma EnrichmentOnlyForCollections(
    defs: Definitions, baseDescription: string, resourceName: string, isCollection: bool)
    ensures BuildEnhancedDescription(defs, baseDescription, resourceName, isCollection) == baseDescription
      <==> !(isCollection && |InstanceProperties(defs, resourceName)| > 0)
  {
    if isCollection && |InstanceProperties(defs, resourceName)| > 0 {
      EnrichedStartsWithFields(defs, baseDescription, resourceName);
    }
  }

  /** An enriched description starts with the base description and the field list. */
  lemma EnrichedStartsWithFields(defs: Definitions, baseDescription: string, resourceName: string)
    requires |InstanceProperties(defs, resourceName)| > 0
    ensures var r := BuildEnhancedDescription(defs, baseDescription, resourceName, true);
      var fields := baseDescription + FIELDS_TITLE + FieldsSummary(InstanceProperties(defs, resourceName));
      |baseDescription| < |fields| <= |r| && r[..|fields|] == fields
  {
    var props := InstanceProperties(defs, resourceName);
    var fields := baseDescription + FIELDS_TITLE + FieldsSummary(props);
    var rest := Section(KEY_FIELDS_TITLE, KeyFields(defs, props))
      + Section(EXAMPLES_TITLE, FilterExamples(resourceName, props));
    FieldsPrefix(baseDescription, FieldsSummary(props), rest);
  }

  lemma FieldsPrefix(baseDescription: string, summary: string, rest: string)
    ensures var fields := baseDescription + FIELDS_TITLE + summary;
      |baseDescription| < |fields| <= |fields + rest| && (fields + rest)[..|fields|] == fields
  {
  }

  /**
   * For a collection query with properties, the key-field section is there
   * exactly when one of the priority fields is, and the examples section
   * exactly when the resource has canned examples.
   */
  lemma EnrichmentSections(defs: Definitions, baseDescription: string, resourceName: string)
    requires |InstanceProperties(defs, resourceName)| > 0
    ensures var props := InstanceProperties(defs, resourceName);
      var fields := baseDescription + FIELDS_TITLE + FieldsSummary(props);
      var keys := if PresentFields(props, PRIORITY_FIELDS) != []
        then KEY_FIELDS_TITLE + KeyFields(defs, props) else "";
      var examples := if FilterExampleList(resourceName, props) != []
        then EXAMPLES_TITLE + FilterExamples(resourceName, props) else "";
      BuildEnhancedDescription(defs, baseDescription, resourceName, true) == fields + (keys + examples)
  {
    var props := InstanceProperties(defs, resourceName);
    KeyFieldsSection(defs, props);
    ExamplesSection(resourceName, props);
  }

  lemma KeyFieldsSection(defs: Definitions, props: Properties)
    ensures Section(KEY_FIELDS_TITLE, KeyFields(defs, props)) ==
      if PresentFields(props, PRIORITY_FIELDS) != [] then KEY_FIELDS_TITLE + KeyFields(defs, props) else ""
  {
    KeyFieldsShown(defs, props);
  }

  lemma ExamplesSection(resourceName: string, props: Properties)
    ensures Section(EXAMPLES_TITLE, FilterExamples(resourceName, props)) ==
      if FilterExampleList(resourceName, props) != [] then EXAMPLES_TITLE + FilterExamples(resourceName, props) else ""
  {
    FilterExampleCount(resourceName, props);
  }
}
