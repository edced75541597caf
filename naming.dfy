/**
 * Everything the generator derives from an endpoint path: its non-parameter
 * segments, its resource name, the collection/singleton split, the tool name
 * synthesised when an operation has no operationId, and the collision
 * handling driven by the `tool_names` counter.
 */
module Naming {
  import opened Strings
  import opened OpenApi

  /** A piece of `path.split("/")` that is kept: non-empty, not a `{param}`. */
  predicate IsSegment(p: string) {
    p != "" && p[0] != '{'
  }

  /** `[p for p in parts if p and not p.startswith("{")]` */
  function KeepSegments(parts: seq<string>): seq<string> {
    if parts == [] then []
    else (if IsSegment(parts[0]) then [parts[0]] else []) + KeepSegments(parts[1..])
  }

  /** The non-parameter segments of a path, in order. */
  function Segments(path: string): seq<string> {
    KeepSegments(Split(path, '/'))
  }

  lemma {:induction false} KeepSegmentsFrom(parts: seq<string>)
    ensures forall i :: 0 <= i < |KeepSegments(parts)| ==>
      IsSegment(KeepSegments(parts)[i]) && KeepSegments(parts)[i] in parts
  {
    if parts != [] {
      KeepSegmentsFrom(parts[1..]);
    }
  }

  /** Every segment is non-empty, is not a parameter and holds no `/`. */
  lemma SegmentsAreClean(path: string)
    ensures forall i :: 0 <= i < |Segments(path)| ==>
      IsSegment(Segments(path)[i]) && '/' !in Segments(path)[i]
  {
    var parts := Split(path, '/');
    KeepSegmentsFrom(parts);
    SplitPiecesLackSep(path, '/');
    forall i | 0 <= i < |Segments(path)|
      ensures '/' !in Segments(path)[i]
    {
      var k :| 0 <= k < |parts| && parts[k] == Segments(path)[i];
    }
  }

  // ---------------------------------------------------------------------
  // _get_resource_name_from_path
  // ---------------------------------------------------------------------

  function ResourceName(path: string): string {
    var segs := Segments(path);
    if segs != [] then segs[0] else ""
  }

  lemma {:induction false} KeepSegmentsFirst(parts: seq<string>)
    ensures KeepSegments(parts) == [] <==> forall i :: 0 <= i < |parts| ==> !IsSegment(parts[i])
    ensures KeepSegments(parts) != [] ==>
      exists i :: 0 <= i < |parts| && parts[i] == KeepSegments(parts)[0] && IsSegment(parts[i]) &&
        forall j :: 0 <= j < i ==> !IsSegment(parts[j])
  {
    if parts != [] {
      KeepSegmentsFirst(parts[1..]);
      if IsSegment(parts[0]) {
        assert parts[0] == KeepSegments(parts)[0];
      } else if KeepSegments(parts) != [] {
        var i :| 0 <= i < |parts[1..]| && parts[1..][i] == KeepSegments(parts[1..])[0] &&
          IsSegment(parts[1..][i]) && forall j :: 0 <= j < i ==> !IsSegment(parts[1..][j]);
        assert parts[i + 1] == KeepSegments(parts)[0];
        assert forall j :: 0 <= j < i + 1 ==> !IsSegment(parts[j]) by {
          forall j | 0 <= j < i + 1 ensures !IsSegment(parts[j]) {
            if j > 0 { assert parts[j] == parts[1..][j - 1]; }
          }
        }
      }
      if KeepSegments(parts) == [] {
        forall i | 0 <= i < |parts| ensures !IsSegment(parts[i]) {
          if i > 0 { assert parts[i] == parts[1..][i - 1]; }
        }
      }
    }
  }

  /** No piece of `parts` is kept as a segment. */
  predicate NoSegment(parts: seq<string>) {
    forall i :: 0 <= i < |parts| ==> !IsSegment(parts[i])
  }

  /**
   * The resource name is the first piece of `path.split("/")` that is
   * non-empty and does not start with `{`, and `""` when there is none.
   */
  lemma ResourceNameIsFirstSegment(path: string)
    ensures ResourceName(path) == "" <==> NoSegment(Split(path, '/'))
    ensures ResourceName(path) != "" ==>
      var parts := Split(path, '/');
      exists i :: 0 <= i < |parts| && parts[i] == ResourceName(path) && IsSegment(parts[i]) &&
        NoSegment(parts[..i])
  {
    var parts := Split(path, '/');
    KeepSegmentsFirst(parts);
    if KeepSegments(parts) != [] {
      var i :| 0 <= i < |parts| && parts[i] == KeepSegments(parts)[0] && IsSegment(parts[i]) &&
        forall j :: 0 <= j < i ==> !IsSegment(parts[j]);
      assert NoSegment(parts[..i]);
      assert !NoSegment(parts);
    }
  }

  lemma ResourceNameOfCollection()
    ensures ResourceName("/alert") == "alert"
  {
    SegmentsOfOne("alert");
    assert "/alert" == "/" + "alert";
  }

  lemma ResourceNameOfInstance()
    ensures ResourceName("/volume/{id}") == "volume"
  {
    SegmentsOfParam("volume", "{id}");
    assert "/volume/{id}" == "/" + "volume" + "/" + "{id}";
  }

  lemma ResourceNameOfNested()
    ensures ResourceName("/appliance/{id}/node") == "appliance"
  {
    SegmentsAroundParam("appliance", "{id}", "node");
    assert "/appliance/{id}/node" == "/" + "appliance" + "/" + "{id}" + "/" + "node";
  }

  // ---------------------------------------------------------------------
  // is_collection_query
  // ---------------------------------------------------------------------

  /** A collection query is a path in which the text `{id}` does not occur. */
  predicate IsCollection(path: string) {
    !ContainsText(path, "{id}")
  }

  /** `{id}` occurs at no position of a collection path, and at some position of any other. */
  lemma IsCollectionIff(path: string)
    ensures IsCollection(path) <==> forall i: nat :: !OccursAt(path, "{id}", i)
  {
    ContainsTextAt(path, "{id}");
  }

  /** `/alert` is a collection query and `/alert/{id}` is not. */
  lemma CollectionExamples()
    ensures IsCollection("/alert")
    ensures !IsCollection("/alert/{id}")
  {
    assert '{' !in "/alert";
    MissingFirstChar("/alert", "{id}");
    ContainsEnding("/alert/", "{id}");
    assert "/alert/" + "{id}" == "/alert/{id}";
  }

  // ---------------------------------------------------------------------
  // _generate_tool_name_from_path
  // ---------------------------------------------------------------------

  /** The name accumulated over the segments, one capitalised segment at a time. */
  function CamelSegments(segs: seq<string>): string {
    if segs == [] then []
    else CamelSegments(segs[..|segs| - 1]) + Capitalize(Clean(segs[|segs| - 1]))
  }

  function ToolNameFromPath(path: string, httpMethod: string): string {
    Lower(Clean(httpMethod)) + CamelSegments(Segments(path))
  }

  function TotalLength(segs: seq<string>): nat {
    if segs == [] then 0 else TotalLength(segs[..|segs| - 1]) + |segs[|segs| - 1]|
  }

  lemma {:induction false} CamelSegmentsShape(segs: seq<string>)
    ensures IsIdentText(CamelSegments(segs))
    ensures |CamelSegments(segs)| == TotalLength(segs)
  {
    if segs != [] {
      CamelSegmentsShape(segs[..|segs| - 1]);
      CleanIsIdentText(segs[|segs| - 1]);
    }
  }

  /**
   * A synthesised tool name starts with the lower-cased method, consists of
   * letters, digits and `_` only, and has one character per character of the
   * method and of the non-parameter segments.
   */
  lemma ToolNameFromPathShape(path: string, httpMethod: string)
    ensures var name := ToolNameFromPath(path, httpMethod);
      && name[..|httpMethod|] == Lower(Clean(httpMethod))
      && IsIdentText(name)
      && |name| == |httpMethod| + TotalLength(Segments(path))
  {
    CamelSegmentsShape(Segments(path));
    CleanIsIdentText(httpMethod);
  }

  /** A segment in front contributes its capitalised, cleaned form in front of the rest. */
  lemma {:induction false} CamelSegmentsCons(s: string, segs: seq<string>)
    ensures CamelSegments([s] + segs) == Capitalize(Clean(s)) + CamelSegments(segs)
  {
    if segs == [] {
      assert [s] + segs == [s] && [s][..0] == [];
    } else {
      var init, last := segs[..|segs| - 1], segs[|segs| - 1];
      DropLastOfCons(s, segs);
      CamelSegmentsCons(s, init);
      AppendAssociative(Capitalize(Clean(s)), CamelSegments(init), Capitalize(Clean(last)));
    }
  }

  lemma DropLastOfCons<T>(x: T, xs: seq<T>)
    requires xs != []
    ensures ([x] + xs)[..|xs|] == [x] + xs[..|xs| - 1]
    ensures ([x] + xs)[|xs|] == xs[|xs| - 1]
  {
  }

  lemma AppendAssociative(a: string, b: string, c: string)
    ensures a + b + c == a + (b + c)
  {
  }

  /** A one-segment path names the method and the capitalised segment: `/volume` gives `getVolume`. */
  lemma ToolNameOfOne(a: string, httpMethod: string)
    requires IsSegment(a) && IsPlainPiece(a)
    ensures ToolNameFromPath("/" + a, httpMethod) == Lower(Clean(httpMethod)) + Capitalize(Clean(a))
  {
    SegmentsOfOne(a);
    assert [a][..0] == [];
    assert CamelSegments([a]) == [] + Capitalize(Clean(a)) == Capitalize(Clean(a));
  }

  /** Parameter segments contribute nothing to a synthesised name. */
  lemma ToolNameAroundParam(a: string, x: string, b: string, httpMethod: string)
    requires IsSegment(a) && IsPlainPiece(a) && !IsSegment(x) && IsPlainPiece(x)
    requires IsSegment(b) && IsPlainPiece(b)
    ensures ToolNameFromPath("/" + a + "/" + x + "/" + b, httpMethod)
         == Lower(Clean(httpMethod)) + Capitalize(Clean(a)) + Capitalize(Clean(b))
  {
    SegmentsAroundParam(a, x, b);
    assert [a, b][..1] == [a];
    assert [a][..0] == [];
    assert CamelSegments([a]) == Capitalize(Clean(a));
    assert CamelSegments([a, b]) == CamelSegments([a]) + Capitalize(Clean(b));
  }

  // ---------------------------------------------------------------------
  // _make_unique_name
  // ---------------------------------------------------------------------

  /** The suffix of a repeated name: the joined segments, else the count. */
  function Suffix(path: string, count: nat): string {
    var segs := Segments(path);
    if segs != [] then Join("_", segs) else NatToString(count)
  }

  /**
   * The name `_make_unique_name` returns for `candidate` and the counter map
   * it leaves behind.
   */
  function Disambiguate(names: map<string, nat>, candidate: string, path: string)
    : (r: (string, map<string, nat>))
    ensures r.1.Keys == names.Keys + {candidate}
    ensures forall k :: k in names && k != candidate ==> r.1[k] == names[k]
    ensures r.1[candidate] == if candidate in names then names[candidate] + 1 else 0
    ensures r.0 == candidate <==> candidate !in names
    ensures candidate in names ==> r.0 == candidate + "_" + Suffix(path, r.1[candidate])
  {
    if candidate in names then
      var count := names[candidate] + 1;
      (candidate + "_" + Suffix(path, count), names[candidate := count])
    else
      (candidate, names[candidate := 0])
  }

  predicate NoUnderscore(segs: seq<string>) {
    NoneContains(segs, '_')
  }

  /**
   * Two repeats of one candidate on paths whose segment lists are non-empty
   * and differ, none of the segments holding `_`, get different names.
   */
  lemma RepeatsOnDistinctSegmentsDiffer(names: map<string, nat>, candidate: string, p1: string, p2: string)
    requires candidate in names
    requires Segments(p1) != [] && Segments(p2) != []
    requires Segments(p1) != Segments(p2)
    requires NoUnderscore(Segments(p1)) && NoUnderscore(Segments(p2))
    ensures Disambiguate(Disambiguate(names, candidate, p1).1, candidate, p2).0
         != Disambiguate(names, candidate, p1).0
  {
    var first := Disambiguate(names, candidate, p1);
    var second := Disambiguate(first.1, candidate, p2);
    assert Join("_", Segments(p1)) == first.0[|candidate| + 1..];
    assert Join("_", Segments(p2)) == second.0[|candidate| + 1..];
    if Join("_", Segments(p1)) == Join("_", Segments(p2)) {
      JoinInjective(Segments(p1), Segments(p2), '_');
    }
  }

  /** Two repeats of one candidate on paths without segments get different counts. */
  lemma RepeatsWithoutSegmentsDiffer(names: map<string, nat>, candidate: string, p1: string, p2: string)
    requires candidate in names
    requires Segments(p1) == [] && Segments(p2) == []
    ensures Disambiguate(Disambiguate(names, candidate, p1).1, candidate, p2).0
         != Disambiguate(names, candidate, p1).0
  {
    var first := Disambiguate(names, candidate, p1);
    var second := Disambiguate(first.1, candidate, p2);
    NatToStringInjective(first.1[candidate], second.1[candidate]);
    assert NatToString(first.1[candidate]) == first.0[|candidate| + 1..];
    assert NatToString(second.1[candidate]) == second.0[|candidate| + 1..];
  }

  /**
   * The suffixed name is not itself recorded: a third repeat on a path with
   * the same, non-empty, non-parameter segments as the second gets the
   * second's name.
   */
  lemma SuffixedNamesCanCollide(names: map<string, nat>, candidate: string, p2: string, p3: string)
    requires candidate in names
    requires Segments(p2) == Segments(p3) && Segments(p2) != []
    ensures Disambiguate(Disambiguate(names, candidate, p2).1, candidate, p3).0
         == Disambiguate(names, candidate, p2).0
  {
  }

  /**
   * One candidate on `/a`, `/a/{x}` and `/a/{y}`, in that order, gives the
   * names `candidate`, `candidate_a` and `candidate_a` (as `getAlert` does on
   * `/alert`, `/alert/{id}` and `/alert/{name}`).
   */
  lemma ParamSiblingsCollide(candidate: string, a: string, x: string, y: string)
    requires IsSegment(a) && IsPlainPiece(a)
    requires !IsSegment(x) && IsPlainPiece(x) && !IsSegment(y) && IsPlainPiece(y)
    ensures var n1 := Disambiguate(map[], candidate, "/" + a);
      var n2 := Disambiguate(n1.1, candidate, "/" + a + "/" + x);
      var n3 := Disambiguate(n2.1, candidate, "/" + a + "/" + y);
      n1.0 == candidate && n2.0 == candidate + "_" + a && n3.0 == n2.0
  {
    SegmentsOfParam(a, x);
    SegmentsOfParam(a, y);
    var n1 := Disambiguate(map[], candidate, "/" + a);
    SuffixedNamesCanCollide(n1.1, candidate, "/" + a + "/" + x, "/" + a + "/" + y);
  }

  /**
   * Distinct segment lists can still give one suffix when a segment holds
   * `_`: a repeat on `/a_b` and a repeat on `/a/b` get the same name (as
   * `/volume_group` and `/volume/group` would).
   */
  lemma UnderscoreSegmentsCollide(names: map<string, nat>, candidate: string, a: string, b: string)
    requires candidate in names
    requires IsSegment(a) && IsPlainPiece(a) && IsSegment(b) && IsPlainPiece(b)
    ensures var first := Disambiguate(names, candidate, "/" + a + "_" + b);
      var second := Disambiguate(first.1, candidate, "/" + a + "/" + b);
      && Segments("/" + a + "_" + b) != Segments("/" + a + "/" + b)
      && second.0 == first.0
  {
    var ab := a + "_" + b;
    assert ab[0] == a[0];
    assert "/" + a + "_" + b == "/" + ab;
    SegmentsOfOne(ab);
    SegmentsOfTwo(a, b);
    assert Join("_", [a, b]) == a + "_" + Join("_", [b]);
    assert [a, b][1..] == [b];
  }

  /**
   * A count suffix can read like a segment suffix: with the candidate counted
   * at 0, a repeat on `/` (no segments, so suffixed with its count 1) and then
   * a repeat on `/1` (suffixed with its segment `1`) get the same name.
   */
  lemma CountSuffixMeetsSegment(names: map<string, nat>, candidate: string)
    requires candidate in names && names[candidate] == 0
    ensures var first := Disambiguate(names, candidate, "/");
      var second := Disambiguate(first.1, candidate, "/1");
      && Segments("/") == [] && Segments("/1") == ["1"]
      && first.0 == candidate + "_1"
      && second.0 == first.0
  {
    SplitAfterPiece("", '/', "");
    SplitWithoutSep("", '/');
    assert "/" == [] + ['/'] + [];
    assert Split("/", '/') == [[], []];
    assert KeepSegments([[]]) == [] + KeepSegments([]);
    assert Segments("/") == [];
    SegmentsOfOne("1");
    assert "/" + "1" == "/1";
    assert NatToString(1) == "1";
  }

  // ---------------------------------------------------------------------
  // Segments of the path shapes used in the examples
  // ---------------------------------------------------------------------

  predicate IsPlainPiece(a: string) {
    '/' !in a
  }

  lemma SegmentsOfOne(a: string)
    requires IsSegment(a) && IsPlainPiece(a)
    ensures Segments("/" + a) == [a]
  {
    SplitWithoutSep(a, '/');
    SplitAfterPiece("", '/', a);
    assert "/" + a == [] + ['/'] + a;
    assert Split("/" + a, '/') == [[], a];
    assert KeepSegments([a]) == [a] + KeepSegments([]);
  }

  lemma SegmentsOfParam(a: string, x: string)
    requires IsSegment(a) && IsPlainPiece(a) && !IsSegment(x) && IsPlainPiece(x)
    ensures Segments("/" + a + "/" + x) == [a]
  {
    SplitWithoutSep(x, '/');
    SplitAfterPiece(a, '/', x);
    SplitAfterPiece("", '/', a + "/" + x);
    assert "/" + a + "/" + x == [] + ['/'] + (a + ['/'] + x);
    assert Split("/" + a + "/" + x, '/') == [[], a, x];
    assert KeepSegments([x]) == [];
    assert KeepSegments([a, x]) == [a] + KeepSegments([x]);
  }

  lemma SegmentsOfTwo(a: string, b: string)
    requires IsSegment(a) && IsPlainPiece(a) && IsSegment(b) && IsPlainPiece(b)
    ensures Segments("/" + a + "/" + b) == [a, b]
  {
    SplitWithoutSep(b, '/');
    SplitAfterPiece(a, '/', b);
    SplitAfterPiece("", '/', a + "/" + b);
    assert "/" + a + "/" + b == [] + ['/'] + (a + ['/'] + b);
    assert Split("/" + a + "/" + b, '/') == [[], a, b];
    assert KeepSegments([b]) == [b] + KeepSegments([]);
    assert KeepSegments([a, b]) == [a] + KeepSegments([b]);
  }

  lemma SegmentsAroundParam(a: string, x: string, b: string)
    requires IsSegment(a) && IsPlainPiece(a) && !IsSegment(x) && IsPlainPiece(x)
    requires IsSegment(b) && IsPlainPiece(b)
    ensures Segments("/" + a + "/" + x + "/" + b) == [a, b]
  {
    SplitWithoutSep(b, '/');
    SplitAfterPiece(x, '/', b);
    SplitAfterPiece(a, '/', x + "/" + b);
    SplitAfterPiece("", '/', a + "/" + x + "/" + b);
    assert "/" + a + "/" + x + "/" + b == [] + ['/'] + (a + ['/'] + (x + ['/'] + b));
    assert Split("/" + a + "/" + x + "/" + b, '/') == [[], a, x, b];
    assert KeepSegments([b]) == [b] + KeepSegments([]);
    assert KeepSegments([x, b]) == KeepSegments([b]);
    assert KeepSegments([a, x, b]) == [a] + KeepSegments([x, b]);
  }
}
