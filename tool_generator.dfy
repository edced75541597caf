/**
 * The tool generator itself: one tool per path that has a GET operation,
 * in document order, named by the operation id or by the path, made
 * distinct by a counter the generator keeps between calls.
 */
module ToolGen {
  import opened Strings
  import opened OpenApi
  import opened Naming
  import opened Schema
  import opened Description

  /** An MCP tool definition: `name`, `description`, `inputSchema`. */
  datatype Tool = Tool(name: string, description: string, inputSchema: InputSchema)

  /** The name a tool asks for: its `operationId` when that is non-empty, else one made from the path. */
  function Candidate(path: string, httpMethod: string, op: Operation): string {
    if Truthy(op.operationId) then op.operationId.value else ToolNameFromPath(path, httpMethod)
  }

  /**
   * The candidate is the operation id when there is one, else a name made of
   * the lower-cased method and the path: letters, digits and `_` only.
   */
  lemma CandidateName(path: string, httpMethod: string, op: Operation)
    ensures Truthy(op.operationId) ==> Candidate(path, httpMethod, op) == op.operationId.value
    ensures !Truthy(op.operationId) ==>
      var c := Candidate(path, httpMethod, op);
      c[..|httpMethod|] == Lower(Clean(httpMethod)) && IsIdentText(c)
  {
    ToolNameFromPathShape(path, httpMethod);
  }

  /** The summary, else the description, else `<METHOD> <path>`; never empty. */
  function BaseDescription(path: string, httpMethod: string, op: Operation): (r: string)
    ensures r != ""
    ensures Truthy(op.summary) ==> r == op.summary.value
    ensures !Truthy(op.summary) && Truthy(op.description) ==> r == op.description.value
    ensures !Truthy(op.summary) && !Truthy(op.description) ==> r == Upper(httpMethod) + " " + path
  {
    if Truthy(op.summary) then op.summary.value
    else if Truthy(op.description) then op.description.value
    else Upper(httpMethod) + " " + path
  }

  /** The tool built for `op` under `name` once every parameter is known to be a mapping. */
  function ToolFor(defs: Definitions, path: string, httpMethod: string, op: Operation, name: string): Tool {
    var isCollection := IsCollection(path);
    Tool(
      name,
      BuildEnhancedDescription(defs, BaseDescription(path, httpMethod, op), ResourceName(path), isCollection),
      SchemaFor(op.parameters, isCollection))
  }

  /** The tool for `op` under `name`, none when a parameter is not a mapping (the schema step raises). */
  function MaybeTool(defs: Definitions, path: string, httpMethod: string, op: Operation, name: string): (r: Option<Tool>)
    ensures r.Some? <==> AllMappings(op.parameters)
    ensures r.Some? ==> r.value.name == name
  {
    if AllMappings(op.parameters) then Some(ToolFor(defs, path, httpMethod, op, name)) else None
  }

  /**
   * `_generate_tool_from_operation`: the tool, if any, and the counters
   * afterwards. An entry that is not a mapping fails before it is named and
   * leaves the counters alone; an operation with a malformed parameter fails
   * after it is named, so its name still counts.
   */
  function GenerateOne(defs: Definitions, names: map<string, nat>, path: string, httpMethod: string, entry: GetEntry)
    : (r: (Option<Tool>, map<string, nat>))
    ensures entry.NotAMapping? ==> r == (None, names)
    ensures r.0.Some? <==> entry.Op? && AllMappings(entry.op.parameters)
  {
    match entry
    case NotAMapping => (None, names)
    case Op(op) =>
      var d := Disambiguate(names, Candidate(path, httpMethod, op), path);
      (MaybeTool(defs, path, httpMethod, op, d.0), d.1)
  }

  /** `generate_tools` over the path entries `entries`, starting from the counters `names`. */
  function GenerateAll(defs: Definitions, entries: seq<(string, Option<GetEntry>)>, names: map<string, nat>)
    : (seq<Tool>, map<string, nat>)
  {
    if entries == [] then ([], names)
    else
      var prev := GenerateAll(defs, entries[..|entries| - 1], names);
      var e := entries[|entries| - 1];
      if e.1.None? then prev
      else
        var one := GenerateOne(defs, prev.1, e.0, "get", e.1.value);
        (prev.0 + if one.0.Some? then [one.0.value] else [], one.1)
  }

  // ---------------------------------------------------------------------
  // Reference views of a document's entries
  // ---------------------------------------------------------------------

  /** The counters alone: each GET operation that is a mapping asks for its candidate once. */
  function Counters(entries: seq<(string, Option<GetEntry>)>, names: map<string, nat>): map<string, nat> {
    if entries == [] then names
    else
      var prev := Counters(entries[..|entries| - 1], names);
      var e := entries[|entries| - 1];
      if e.1.Some? && e.1.value.Op? then Disambiguate(prev, Candidate(e.0, "get", e.1.value.op), e.0).1
      else prev
  }

  /** The candidate names of the GET operations, in document order. */
  function OpCandidates(entries: seq<(string, Option<GetEntry>)>): seq<string> {
    if entries == [] then []
    else
      var e := entries[|entries| - 1];
      OpCandidates(entries[..|entries| - 1])
        + if e.1.Some? && e.1.value.Op? then [Candidate(e.0, "get", e.1.value.op)] else []
  }

  /** The GET operations that yield a tool, with their paths, in document order. */
  function Produced(entries: seq<(string, Option<GetEntry>)>): seq<(string, Operation)> {
    if entries == [] then []
    else
      var e := entries[|entries| - 1];
      Produced(entries[..|entries| - 1])
        + if e.1.Some? && e.1.value.Op? && AllMappings(e.1.value.op.parameters)
          then [(e.0, e.1.value.op)] else []
  }

  /** `name` is `candidate`, or `candidate` with a suffix `_<segments or count>` for `path`. */
  ghost predicate NamedAfter(name: string, candidate: string, path: string) {
    name == candidate || exists n: nat :: name == candidate + "_" + Suffix(path, n)
  }

  /** The description and schema a produced operation's tool carries. */
  ghost predicate ToolMatches(defs: Definitions, t: Tool, path: string, op: Operation) {
    && t.description == BuildEnhancedDescription(
         defs, BaseDescription(path, "get", op), ResourceName(path), IsCollection(path))
    && t.inputSchema == SchemaFor(op.parameters, IsCollection(path))
    && NamedAfter(t.name, Candidate(path, "get", op), path)
  }

  // ---------------------------------------------------------------------
  // What generate_tools promises
  // ---------------------------------------------------------------------

  /** A document without GET operations yields no tools and leaves the counters alone. */
  lemma {:induction false} NoGetNoTools(defs: Definitions, entries: seq<(string, Option<GetEntry>)>, names: map<string, nat>)
    requires forall i :: 0 <= i < |entries| ==> entries[i].1.None?
    ensures GenerateAll(defs, entries, names) == ([], names)
  {
    if entries != [] {
      NoGetNoTools(defs, entries[..|entries| - 1], names);
    }
  }

  /**
   * One tool per GET operation whose parameters are all mappings, in
   * document order: the k-th tool carries the enriched description and the
   * input schema of the k-th such operation and is named after its
   * candidate.
   */
  lemma {:induction false} ToolsFollowEntries(
    defs: Definitions, entries: seq<(string, Option<GetEntry>)>, names: map<string, nat>)
    ensures var tools := GenerateAll(defs, entries, names).0;
      var ok := Produced(entries);
      && |tools| == |ok|
      && forall k :: 0 <= k < |tools| ==> ToolMatches(defs, tools[k], ok[k].0, ok[k].1)
  {
    if entries != [] {
      var e := entries[|entries| - 1];
      ToolsFollowEntries(defs, entries[..|entries| - 1], names);
      if e.1.Some? && e.1.value.Op? && AllMappings(e.1.value.op.parameters) {
        var prev := GenerateAll(defs, entries[..|entries| - 1], names);
        OneToolMatches(defs, prev.1, e.0, e.1.value.op);
      }
    }
  }

  /** An operation whose parameters are all mappings yields the tool built for it, named after its candidate. */
  lemma OneToolMatches(defs: Definitions, names: map<string, nat>, path: string, op: Operation)
    requires AllMappings(op.parameters)
    ensures var r := GenerateOne(defs, names, path, "get", Op(op));
      r.0.Some? && ToolMatches(defs, r.0.value, path, op)
  {
    var d := Disambiguate(names, Candidate(path, "get", op), path);
    DisambiguatedNamedAfter(names, Candidate(path, "get", op), path);
    assert ToolMatches(defs, ToolFor(defs, path, "get", op, d.0), path, op);
  }

  lemma DisambiguatedNamedAfter(names: map<string, nat>, candidate: string, path: string)
    ensures NamedAfter(Disambiguate(names, candidate, path).0, candidate, path)
    ensures candidate in names ==> Disambiguate(names, candidate, path).0 != candidate
  {
    var d := Disambiguate(names, candidate, path);
    if candidate in names {
      assert d.0 == candidate + "_" + Suffix(path, d.1[candidate]);
      assert |d.0| > |candidate|;
    }
  }

  /** The names the tools of a run receive, in order: the counters alone decide them. */
  function ToolNames(entries: seq<(string, Option<GetEntry>)>, names: map<string, nat>): seq<string> {
    if entries == [] then []
    else
      var init := entries[..|entries| - 1];
      var e := entries[|entries| - 1];
      ToolNames(init, names)
        + if e.1.Some? && e.1.value.Op? && AllMappings(e.1.value.op.parameters)
          then [Disambiguate(Counters(init, names), Candidate(e.0, "get", e.1.value.op), e.0).0]
          else []
  }

  /** The k-th tool of a run carries the k-th of `ToolNames`. */
  lemma {:induction false} GenerateAllNames(
    defs: Definitions, entries: seq<(string, Option<GetEntry>)>, names: map<string, nat>)
    ensures var tools := GenerateAll(defs, entries, names).0;
      var toolNames := ToolNames(entries, names);
      && |tools| == |toolNames|
      && forall k :: 0 <= k < |tools| ==> tools[k].name == toolNames[k]
  {
    if entries != [] {
      var init := entries[..|entries| - 1];
      GenerateAllNames(defs, init, names);
      GenerateAllCounters(defs, init, names);
    }
  }

  /** When every candidate was already counted, no tool keeps its bare candidate name. */
  lemma {:induction false} CountedCandidatesAreSuffixed(
    entries: seq<(string, Option<GetEntry>)>, names: map<string, nat>)
    requires forall c :: c in OpCandidates(entries) ==> c in names
    ensures var toolNames := ToolNames(entries, names);
      var ok := Produced(entries);
      && |toolNames| == |ok|
      && forall k :: 0 <= k < |ok| ==> toolNames[k] != Candidate(ok[k].0, "get", ok[k].1)
  {
    if entries != [] {
      var init := entries[..|entries| - 1];
      var e := entries[|entries| - 1];
      assert forall c :: c in OpCandidates(init) ==> c in OpCandidates(entries);
      CountedCandidatesAreSuffixed(init, names);
      if e.1.Some? && e.1.value.Op? && AllMappings(e.1.value.op.parameters) {
        var cand := Candidate(e.0, "get", e.1.value.op);
        assert cand in OpCandidates(entries);
        CounterKeys(init, names);
        DisambiguatedNamedAfter(Counters(init, names), cand, e.0);
      }
    }
  }

  /** The counters `generate_tools` leaves are those `Counters` computes. */
  lemma {:induction false} GenerateAllCounters(
    defs: Definitions, entries: seq<(string, Option<GetEntry>)>, names: map<string, nat>)
    ensures GenerateAll(defs, entries, names).1 == Counters(entries, names)
  {
    if entries != [] {
      GenerateAllCounters(defs, entries[..|entries| - 1], names);
    }
  }

  /** The counters after a run hold the old keys and every candidate of a GET operation, and no more. */
  lemma {:induction false} CounterKeys(entries: seq<(string, Option<GetEntry>)>, names: map<string, nat>)
    ensures var after := Counters(entries, names);
      forall c :: c in after <==> c in names || c in OpCandidates(entries)
  {
    if entries != [] {
      CounterKeys(entries[..|entries| - 1], names);
    }
  }

  /**
   * A candidate's counter is the number of times it was asked for: counted
   * on from its old value, or from -1 for one that was new.
   */
  lemma {:induction false} CounterCounts(entries: seq<(string, Option<GetEntry>)>, names: map<string, nat>)
    ensures var after := Counters(entries, names);
      var asked := multiset(OpCandidates(entries));
      && (forall c :: c in after && c in names ==> after[c] == names[c] + asked[c])
      && (forall c :: c in after && c !in names ==> after[c] + 1 == asked[c])
  {
    if entries != [] {
      var init := entries[..|entries| - 1];
      var e := entries[|entries| - 1];
      CounterCounts(init, names);
      CounterKeys(init, names);
      if e.1.Some? && e.1.value.Op? {
        var cand := Candidate(e.0, "get", e.1.value.op);
        assert OpCandidates(entries) == OpCandidates(init) + [cand];
        if cand !in Counters(init, names) {
          assert multiset(OpCandidates(init))[cand] == 0;
        }
      } else {
        assert OpCandidates(entries) == OpCandidates(init);
      }
    }
  }

  /**
   * Calling `generate_tools` a second time on the same generator yields the
   * same number of tools with the same descriptions and schemas, but none of
   * them keeps its bare candidate name: the counters remember the first run.
   */
  lemma SecondRunRenamesEveryTool(defs: Definitions, entries: seq<(string, Option<GetEntry>)>)
    ensures var first := GenerateAll(defs, entries, map[]);
      var second := GenerateAll(defs, entries, first.1);
      var ok := Produced(entries);
      && |second.0| == |first.0| == |ok|
      && forall k :: 0 <= k < |ok| ==>
           second.0[k].description == first.0[k].description
           && second.0[k].inputSchema == first.0[k].inputSchema
           && second.0[k].name != Candidate(ok[k].0, "get", ok[k].1)
  {
    var first := GenerateAll(defs, entries, map[]);
    GenerateAllCounters(defs, entries, map[]);
    CounterKeys(entries, map[]);
    ToolsFollowEntries(defs, entries, map[]);
    ToolsFollowEntries(defs, entries, first.1);
    GenerateAllNames(defs, entries, first.1);
    CountedCandidatesAreSuffixed(entries, first.1);
  }

  /** One more entry: the run so far, followed by that entry's tool if it yields one. */
  lemma GenerateAllStep(defs: Definitions, entries: seq<(string, Option<GetEntry>)>, i: nat, names: map<string, nat>)
    requires i < |entries|
    ensures var prev := GenerateAll(defs, entries[..i], names);
      var e := entries[i];
      GenerateAll(defs, entries[..i + 1], names) ==
        if e.1.None? then prev
        else
          var one := GenerateOne(defs, prev.1, e.0, "get", e.1.value);
          (prev.0 + if one.0.Some? then [one.0.value] else [], one.1)
  {
    assert entries[..i + 1][..i] == entries[..i];
  }

  // ---------------------------------------------------------------------
  // The generator object
  // ---------------------------------------------------------------------

  class ToolGenerator {
    const spec: Document
    /** How often each candidate name has been asked for beyond the first time. */
    var toolNames: map<string, nat>

    constructor(spec: Document)
      ensures this.spec == spec && toolNames == map[]
    {
      this.spec := spec;
      toolNames := map[];
    }

    /** `generate_tools`: the tools of every GET operation, in document order. */
    method GenerateTools() returns (tools: seq<Tool>)
      modifies this
      ensures (tools, toolNames) == GenerateAll(spec.definitions, spec.paths, old(toolNames))
    {
      tools := [];
      var i := 0;
      while i < |spec.paths|
        invariant 0 <= i <= |spec.paths|
        invariant (tools, toolNames) == GenerateAll(spec.definitions, spec.paths[..i], old(toolNames))
      {
        var entry := spec.paths[i];
        GenerateAllStep(spec.definitions, spec.paths, i, old(toolNames));
        if entry.1.Some? {
          var tool := GenerateToolFromOperation(entry.0, "get", entry.1.value);
          if tool.Some? {
            tools := tools + [tool.value];
          } else {
            assert tools + [] == tools;
          }
        }
        i := i + 1;
      }
      assert spec.paths[..|spec.paths|] == spec.paths;
    }

    /** `_generate_tool_from_operation`. */
    method GenerateToolFromOperation(path: string, httpMethod: string, entry: GetEntry)
      returns (tool: Option<Tool>)
      modifies this
      ensures (tool, toolNames) == GenerateOne(spec.definitions, old(toolNames), path, httpMethod, entry)
    {
      if entry.NotAMapping? {
        return None;
      }
      var op := entry.op;
      var name := MakeUniqueName(Candidate(path, httpMethod, op), path);
      var isCollection := IsCollection(path);
      var description := BuildEnhancedDescription(
        spec.definitions, BaseDescription(path, httpMethod, op), ResourceName(path), isCollection);
      var schema := GenerateInputSchema(op, isCollection);
      if schema.None? {
        return None;
      }
      tool := Some(Tool(name, description, schema.value));
    }

    /** `_make_unique_name`: the name handed out for `candidate`, counting the request. */
    method MakeUniqueName(candidate: string, path: string) returns (name: string)
      modifies this
      ensures (name, toolNames) == Disambiguate(old(toolNames), candidate, path)
    {
      if candidate in toolNames {
        var count := toolNames[candidate] + 1;
        toolNames := toolNames[candidate := count];
        var segs := Segments(path);
        var suffix := if segs != [] then Join("_", segs) else NatToString(count);
        name := candidate + "_" + suffix;
      } else {
        toolNames := toolNames[candidate := 0];
        name := candidate;
      }
    }

    /**
     * `_generate_input_schema`: the schema when every parameter is a
     * mapping, none (the call raises) at the first one that is not.
     */
    method GenerateInputSchema(op: Operation, isCollection: bool) returns (r: Option<InputSchema>)
      ensures r.Some? <==> AllMappings(op.parameters)
      ensures r.Some? ==> r.value == SchemaFor(op.parameters, isCollection)
    {
      var ps := op.parameters;
      var properties := FixedProperties(Credentials);
      var required := CREDENTIAL_KEYS;
      var i := 0;
      while i < |ps|
        invariant 0 <= i <= |ps|
        invariant AllMappings(ps[..i])
        invariant properties == DeclaredProperties(ps[..i])
        invariant required == CREDENTIAL_KEYS + RequiredNames(ps[..i])
      {
        var p := ps[i];
        assert ps[..i + 1][..i] == ps[..i];
        if p.MalformedParam? {
          return None;
        }
        if IsDeclared(p) {
          properties := properties[p.name.value := ParamSchemaOf(p)];
          if p.required {
            required := required + [p.name.value];
          }
        }
        i := i + 1;
      }
      assert ps[..|ps|] == ps;
      if isCollection {
        properties := properties + FixedProperties(CollectionQuery);
      }
      r := Some(InputSchema("object", properties, required, false));
    }
  }
}
