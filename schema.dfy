/**
 * The JSON-Schema-like input schema of a generated tool: the three
 * credential properties, the operation's query and path parameters, and,
 * for collection queries, the four pagination and filter properties.
 */
module Schema {
  import opened OpenApi

  /** The schema of one property of a tool's input. */
  datatype ParamSchema = ParamSchema(
    typ: string,
    description: string,
    enumValues: Option<seq<string>>,
    /** `additionalProperties: {"type": ...}`, only on `queryParams` */
    valueType: Option<string>)

  /** A tool's input schema. */
  datatype InputSchema = InputSchema(
    typ: string,
    properties: map<string, ParamSchema>,
    required: seq<string>,
    additionalProperties: bool)

  const CREDENTIAL_KEYS: seq<string> := ["host", "username", "password"]
  const COLLECTION_KEYS: set<string> := {"select", "limit", "offset", "queryParams"}
  const SCHEMA_TYPES: set<string> := {"string", "number", "integer", "boolean", "array", "object"}

  // ---------------------------------------------------------------------
  // _convert_openapi_type
  // ---------------------------------------------------------------------

  /** The JSON Schema type for an OpenAPI type; anything unknown becomes "string". */
  function ConvertOpenApiType(openApiType: string): (r: string)
    ensures r in {"number", "string", "boolean", "array", "object"}
    ensures openApiType in {"integer", "number"} ==> r == "number"
    ensures openApiType in {"string", "boolean", "array", "object"} ==> r == openApiType
    ensures openApiType !in {"integer", "number", "string", "boolean", "array", "object"} ==> r == "string"
  {
    var table := map[
      "integer" := "number",
      "number" := "number",
      "string" := "string",
      "boolean" := "boolean",
      "array" := "array",
      "object" := "object"];
    if openApiType in table then table[openApiType] else "string"
  }

  // ---------------------------------------------------------------------
  // The pieces of _generate_input_schema
  // ---------------------------------------------------------------------

  function StringProperty(description: string): ParamSchema {
    ParamSchema("string", description, None, None)
  }

  /** The two fixed groups of properties: the credentials every tool takes, the collection-query extras. */
  datatype FixedGroup = Credentials | CollectionQuery

  function FixedProperties(group: FixedGroup): map<string, ParamSchema> {
    match group
    case Credentials => map[
      "host" := StringProperty("PowerStore host (e.g., powerstore.example.com)"),
      "username" := StringProperty("PowerStore username"),
      "password" := StringProperty("PowerStore password")]
    case CollectionQuery => map[
      "select" := StringProperty("Comma-separated list of field names to return (e.g., 'id,name,state')"),
      "limit" := ParamSchema("integer", "Maximum number of results to return", None, None),
      "offset" := ParamSchema("integer", "Number of results to skip (for pagination)", None, None),
      "queryParams" := ParamSchema(
        "object",
        "Additional query filters (e.g., {'state': 'eq.ACTIVE', 'severity': 'eq.Critical'})",
        None,
        Some("string"))]
  }

  /** A parameter the schema takes in: it has a name and sits in the query or the path. */
  predicate IsDeclared(p: Param) {
    p.Param? && Truthy(p.name) && p.location in {Some("query"), Some("path")}
  }

  /** The schema built for a taken-in parameter; a missing type counts as "string". */
  function ParamSchemaOf(p: Param): ParamSchema
    requires p.Param?
  {
    ParamSchema(
      ConvertOpenApiType(if p.typ.Some? then p.typ.value else "string"),
      if p.description.Some? then p.description.value else "",
      p.enumValues,
      None)
  }

  predicate AllMappings(ps: seq<Param>) {
    forall i :: 0 <= i < |ps| ==> ps[i].Param?
  }

  /** Some taken-in parameter is named `k`. */
  predicate DeclaresName(ps: seq<Param>, k: string) {
    exists i :: 0 <= i < |ps| && IsDeclared(ps[i]) && ps[i].name.value == k
  }

  /** The `properties` dict once the loop has seen the parameters `ps`. */
  function DeclaredProperties(ps: seq<Param>): map<string, ParamSchema> {
    if ps == [] then FixedProperties(Credentials)
    else
      var acc := DeclaredProperties(ps[..|ps| - 1]);
      var p := ps[|ps| - 1];
      if IsDeclared(p) then acc[p.name.value := ParamSchemaOf(p)] else acc
  }

  /** The names the loop appends to `required`, in parameter order. */
  function RequiredNames(ps: seq<Param>): seq<string> {
    if ps == [] then []
    else
      var p := ps[|ps| - 1];
      RequiredNames(ps[..|ps| - 1]) + if IsDeclared(p) && p.required then [p.name.value] else []
  }

  /** The schema `_generate_input_schema` returns when every parameter is a mapping. */
  function SchemaFor(ps: seq<Param>, isCollection: bool): InputSchema {
    InputSchema(
      "object",
      DeclaredProperties(ps) + (if isCollection then FixedProperties(CollectionQuery) else map[]),
      CREDENTIAL_KEYS + RequiredNames(ps),
      false)
  }

  // ---------------------------------------------------------------------
  // What the schema promises
  // ---------------------------------------------------------------------

  lemma {:induction false} RequiredNamesExactly(ps: seq<Param>)
    ensures forall n :: n in RequiredNames(ps) <==>
      exists i :: 0 <= i < |ps| && IsDeclared(ps[i]) && ps[i].required && ps[i].name.value == n
  {
    if ps != [] {
      var init := ps[..|ps| - 1];
      RequiredNamesExactly(init);
      forall n | (exists i :: 0 <= i < |ps| && IsDeclared(ps[i]) && ps[i].required && ps[i].name.value == n)
        ensures n in RequiredNames(ps)
      {
        var i :| 0 <= i < |ps| && IsDeclared(ps[i]) && ps[i].required && ps[i].name.value == n;
        if i < |ps| - 1 {
          assert init[i] == ps[i];
        }
      }
      forall n | n in RequiredNames(ps)
        ensures exists i :: 0 <= i < |ps| && IsDeclared(ps[i]) && ps[i].required && ps[i].name.value == n
      {
        if n in RequiredNames(init) {
          var i :| 0 <= i < |init| && IsDeclared(init[i]) && init[i].required && init[i].name.value == n;
          assert ps[i] == init[i];
        }
      }
    }
  }

  /** The positions of the taken-in parameters marked required, in ascending order. */
  function RequiredIndices(ps: seq<Param>): seq<nat> {
    if ps == [] then []
    else
      var p := ps[|ps| - 1];
      RequiredIndices(ps[..|ps| - 1]) + if IsDeclared(p) && p.required then [|ps| - 1] else []
  }

  /** The positions are exactly those of the required taken-in parameters, ascending. */
  lemma {:induction false} RequiredIndicesExact(ps: seq<Param>)
    ensures var idx := RequiredIndices(ps);
      && (forall k :: 0 <= k < |idx| ==> idx[k] < |ps| && IsDeclared(ps[idx[k]]) && ps[idx[k]].required)
      && (forall k, l :: 0 <= k < l < |idx| ==> idx[k] < idx[l])
      && (forall i :: 0 <= i < |ps| && IsDeclared(ps[i]) && ps[i].required ==> i in idx)
  {
    if ps != [] {
      var init := ps[..|ps| - 1];
      var p := ps[|ps| - 1];
      RequiredIndicesExact(init);
      var idx0 := RequiredIndices(init);
      var extra := if IsDeclared(p) && p.required then [|ps| - 1] else [];
      assert RequiredIndices(ps) == idx0 + extra;
      forall k | 0 <= k < |idx0|
        ensures idx0[k] < |ps| - 1 && IsDeclared(ps[idx0[k]]) && ps[idx0[k]].required
      {
        assert init[idx0[k]] == ps[idx0[k]];
      }
      forall i | 0 <= i < |ps| - 1 && IsDeclared(ps[i]) && ps[i].required
        ensures i in idx0
      {
        assert init[i] == ps[i];
      }
    }
  }

  lemma {:induction false} RequiredNamesAtIndices(ps: seq<Param>)
    ensures var idx := RequiredIndices(ps);
      && |RequiredNames(ps)| == |idx|
      && forall k :: 0 <= k < |idx| ==>
           idx[k] < |ps| && IsDeclared(ps[idx[k]]) && RequiredNames(ps)[k] == ps[idx[k]].name.value
  {
    if ps != [] {
      var init := ps[..|ps| - 1];
      var p := ps[|ps| - 1];
      RequiredNamesAtIndices(init);
      var idx0, names0 := RequiredIndices(init), RequiredNames(init);
      var extra := if IsDeclared(p) && p.required then [|ps| - 1] else [];
      var more := if IsDeclared(p) && p.required then [p.name.value] else [];
      assert RequiredIndices(ps) == idx0 + extra;
      assert RequiredNames(ps) == names0 + more;
      forall k | 0 <= k < |idx0|
        ensures idx0[k] < |ps| && IsDeclared(ps[idx0[k]]) && (names0 + more)[k] == ps[idx0[k]].name.value
      {
        assert ps[idx0[k]] == init[idx0[k]];
      }
    }
  }

  /**
   * The appended names come in parameter order: the k-th is the name of the
   * k-th required taken-in parameter, and every such parameter has one.
   */
  lemma RequiredInOrder(ps: seq<Param>)
    ensures var idx := RequiredIndices(ps);
      && |RequiredNames(ps)| == |idx|
      && (forall k :: 0 <= k < |idx| ==>
            idx[k] < |ps| && IsDeclared(ps[idx[k]]) && ps[idx[k]].required
            && RequiredNames(ps)[k] == ps[idx[k]].name.value)
      && (forall k, l :: 0 <= k < l < |idx| ==> idx[k] < idx[l])
      && (forall i :: 0 <= i < |ps| && IsDeclared(ps[i]) && ps[i].required ==> i in idx)
  {
    RequiredIndicesExact(ps);
    RequiredNamesAtIndices(ps);
  }

  /**
   * `required` is the three credential keys followed by the name of every
   * taken-in parameter marked required, and nothing else.
   */
  lemma RequiredList(ps: seq<Param>, isCollection: bool)
    ensures var required := SchemaFor(ps, isCollection).required;
      && required[..3] == ["host", "username", "password"]
      && forall n :: n in required[3..] <==>
           exists i :: 0 <= i < |ps| && IsDeclared(ps[i]) && ps[i].required && ps[i].name.value == n
  {
    RequiredNamesExactly(ps);
    var required := SchemaFor(ps, isCollection).required;
    assert required[3..] == RequiredNames(ps);
  }

  /** A name is declared in `ps` when it is declared before the last parameter or by it. */
  lemma DeclaresNameLast(ps: seq<Param>, k: string)
    requires ps != []
    ensures var last := ps[|ps| - 1];
      DeclaresName(ps, k) <==>
        DeclaresName(ps[..|ps| - 1], k) || (IsDeclared(last) && last.name.value == k)
  {
    var init := ps[..|ps| - 1];
    if DeclaresName(ps, k) {
      var i :| 0 <= i < |ps| && IsDeclared(ps[i]) && ps[i].name.value == k;
      if i < |ps| - 1 {
        assert init[i] == ps[i];
      }
    }
    if DeclaresName(init, k) {
      var i :| 0 <= i < |init| && IsDeclared(init[i]) && init[i].name.value == k;
      assert ps[i] == init[i];
    }
  }

  lemma {:induction false} DeclaredPropertiesKeys(ps: seq<Param>)
    ensures forall k :: k in DeclaredProperties(ps) <==> k in CREDENTIAL_KEYS || DeclaresName(ps, k)
  {
    if ps != [] {
      DeclaredPropertiesKeys(ps[..|ps| - 1]);
      forall k ensures k in DeclaredProperties(ps) <==> k in CREDENTIAL_KEYS || DeclaresName(ps, k) {
        DeclaresNameLast(ps, k);
      }
    }
  }

  /**
   * A key is a property of the schema exactly when it is a credential key, the
   * name of a taken-in parameter, or, for a collection query, one of `select`,
   * `limit`, `offset` and `queryParams`: no parameter without a name or from
   * another location shows up.
   */
  lemma PropertyKeys(ps: seq<Param>, isCollection: bool)
    ensures forall k :: k in SchemaFor(ps, isCollection).properties <==>
      k in CREDENTIAL_KEYS || DeclaresName(ps, k) || (isCollection && k in COLLECTION_KEYS)
  {
    DeclaredPropertiesKeys(ps);
  }

  /**
   * A collection query has the four extra properties with their fixed
   * schemas; a singleton query has one of them only when an operation
   * parameter carries its name.
   */
  lemma CollectionProperties4(ps: seq<Param>, isCollection: bool)
    ensures var props := SchemaFor(ps, isCollection).properties;
      && (isCollection ==> forall k :: k in COLLECTION_KEYS ==> k in props && props[k] == FixedProperties(CollectionQuery)[k])
      && (!isCollection ==> forall k :: k in COLLECTION_KEYS ==> (k in props <==> DeclaresName(ps, k)))
  {
    DeclaredPropertiesKeys(ps);
  }

  /** The loop's later writes win: a property holds the last parameter of its name. */
  lemma {:induction false} LastDeclarationWins(ps: seq<Param>, i: nat)
    requires i < |ps| && IsDeclared(ps[i])
    requires forall j :: i < j < |ps| ==> !(IsDeclared(ps[j]) && ps[j].name.value == ps[i].name.value)
    ensures ps[i].name.value in DeclaredProperties(ps)
    ensures DeclaredProperties(ps)[ps[i].name.value] == ParamSchemaOf(ps[i])
  {
    if i < |ps| - 1 {
      var init := ps[..|ps| - 1];
      assert init[i] == ps[i];
      LastDeclarationWins(init, i);
    }
  }

  /**
   * In the finished schema a taken-in parameter that no later parameter
   * overrides has its own schema, unless it is one of the four collection
   * properties of a collection query.
   */
  lemma DeclaredParamSchema(ps: seq<Param>, isCollection: bool, i: nat)
    requires i < |ps| && IsDeclared(ps[i])
    requires forall j :: i < j < |ps| ==> !(IsDeclared(ps[j]) && ps[j].name.value == ps[i].name.value)
    requires !(isCollection && ps[i].name.value in COLLECTION_KEYS)
    ensures ps[i].name.value in SchemaFor(ps, isCollection).properties
    ensures SchemaFor(ps, isCollection).properties[ps[i].name.value] == ParamSchemaOf(ps[i])
  {
    LastDeclarationWins(ps, i);
  }

  lemma {:induction false} DeclaredPropertiesCredentials(ps: seq<Param>, k: string)
    requires k in CREDENTIAL_KEYS && !DeclaresName(ps, k)
    ensures k in DeclaredProperties(ps) && DeclaredProperties(ps)[k] == FixedProperties(Credentials)[k]
  {
    if ps != [] {
      DeclaresNameLast(ps, k);
      DeclaredPropertiesCredentials(ps[..|ps| - 1], k);
    }
  }

  /** A credential property keeps its string schema unless a parameter takes its name. */
  lemma CredentialsKept(ps: seq<Param>, isCollection: bool, k: string)
    requires k in CREDENTIAL_KEYS && !DeclaresName(ps, k)
    ensures k in SchemaFor(ps, isCollection).properties
    ensures SchemaFor(ps, isCollection).properties[k] == FixedProperties(Credentials)[k]
    ensures SchemaFor(ps, isCollection).properties[k].typ == "string"
  {
    DeclaredPropertiesCredentials(ps, k);
  }

  lemma {:induction false} DeclaredPropertiesTypes(ps: seq<Param>)
    ensures forall k :: k in DeclaredProperties(ps) ==> DeclaredProperties(ps)[k].typ in SCHEMA_TYPES
  {
    if ps != [] {
      DeclaredPropertiesTypes(ps[..|ps| - 1]);
    }
  }

  /** Every property's type is a JSON Schema type. */
  lemma PropertyTypes(ps: seq<Param>, isCollection: bool)
    ensures var props := SchemaFor(ps, isCollection).properties;
      forall k :: k in props ==> props[k].typ in SCHEMA_TYPES
  {
    DeclaredPropertiesTypes(ps);
  }
}
