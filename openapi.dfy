/**
 * The parts of a parsed OpenAPI 2.0 document that the tool generator reads.
 * Missing keys are `None` (or the default the generator applies with
 * `dict.get`), so that every read of the document is total.
 */
module OpenApi {

  datatype Option<+T> = None | Some(value: T)

  /** Python truthiness of an optional string: present and non-empty. */
  predicate Truthy(s: Option<string>) {
    s.Some? && s.value != ""
  }

  /** One entry of an operation's `parameters` list. */
  datatype Param =
    | Param(
        name: Option<string>,
        location: Option<string>,       // the "in" key
        typ: Option<string>,            // the "type" key
        description: Option<string>,
        enumValues: Option<seq<string>>,
        required: bool)
      /** An entry that is not a mapping: reading a key of it raises. */
    | MalformedParam

  /** An operation object (the value under "get"). */
  datatype Operation = Operation(
    operationId: Option<string>,
    summary: Option<string>,
    description: Option<string>,
    parameters: seq<Param>)

  /**
   * The value under a path item's "get" key: an operation, or something that
   * is not a mapping, on which `operation.get(...)` raises at once.
   */
  datatype GetEntry = Op(op: Operation) | NotAMapping

  /** One schema property of a type definition. */
  datatype Property = Property(
    description: string,                // "description", default ""
    enumValues: Option<seq<string>>,    // "enum"
    ref: string)                        // "$ref", default ""

  /** A JSON object's keys are distinct. */
  predicate DistinctKeys(ps: seq<(string, Property)>) {
    forall i, j :: 0 <= i < j < |ps| ==> ps[i].0 != ps[j].0
  }

  /** The "properties" object of a definition, in document order. */
  type Properties = ps: seq<(string, Property)> | DistinctKeys(ps) witness []

  /** A type definition: its "properties" (default {}) and its "enum" (default []). */
  datatype Definition = Definition(properties: Properties, enumValues: seq<string>)

  type Definitions = map<string, Definition>

  /**
   * A document: the "paths" table in document order, each path with the
   * value of its "get" key if it has one, and the "definitions" table.
   */
  datatype Document = Document(
    paths: seq<(string, Option<GetEntry>)>,
    definitions: Definitions)

  function Keys(ps: Properties): seq<string> {
    seq(|ps|, i requires 0 <= i < |ps| => ps[i].0)
  }

  predicate HasKey(ps: Properties, k: string) {
    exists i :: 0 <= i < |ps| && ps[i].0 == k
  }

  /** `properties[k]`: the entry under key `k`. */
  function Lookup(ps: Properties, k: string): (p: Property)
    requires HasKey(ps, k)
    ensures exists i :: 0 <= i < |ps| && ps[i] == (k, p)
  {
    if ps[0].0 == k then ps[0].1 else Lookup(ps[1..], k)
  }
}
