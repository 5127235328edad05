/** The older mesh reader at the repository root (ReadSTL.py). Its line
    scanning (getFacetIndices, getFacetLoop, getVertices, getFloatsFromString,
    getTextBetweenSpaces) is the same code as in src/STL/ReadSTL.py and uses
    the definitions of module ReadStl; what differs is modelled here: vertex
    lists that `getMatrix` extends in place, the name slice that stops one
    character early, and `num_faces`, which reads an attribute that is never
    set. */
module LegacyReadStl {
  import opened Wrappers
  import opened Methods
  import opened ReadStl

  /** A vertex: a Python list that `getMatrix` appends to in place. */
  class Point {
    var coords: Vec

    constructor (coords: Vec)
      ensures this.coords == coords
    {
      this.coords := coords;
    }
  }

  /** `n` homogeneous ones. */
  function Ones(n: nat): (r: seq<real>)
    ensures |r| == n && forall i :: 0 <= i < n ==> r[i] == 1.0
  {
    seq(n, _ => 1.0)
  }

  /** The coordinates of the points, in order. */
  function Coords(points: seq<Point>): (r: seq<Vec>)
    reads points
    ensures |r| == |points| && forall k :: 0 <= k < |points| ==> r[k] == points[k].coords
  {
    seq(|points|, k reads points requires 0 <= k < |points| => points[k].coords)
  }

  class LegacyFacet {
    var normal: Vec
    var vertices: seq<Point>

    constructor (normal: Vec, vertices: seq<Point>)
      ensures this.normal == normal && this.vertices == vertices
    {
      this.normal := normal;
      this.vertices := vertices;
    }

    /** The rows are the vertex lists themselves, each with a 1 appended in
        place: a list that occurs n times in the facet gains n ones, and a
        list held once gains one entry per call. The normal is not part of
        the matrix. */
    method GetMatrix() returns (matrix: seq<Point>)
      modifies vertices
      ensures matrix == vertices
      ensures forall p :: p in vertices ==> p.coords == old(p.coords) + Ones(multiset(vertices)[p])
    {
      matrix := [];
      for i := 0 to |vertices|
        invariant matrix == vertices[..i]
        invariant forall p :: p in vertices ==> p.coords == old(p.coords) + Ones(multiset(vertices[..i])[p])
      {
        var row := vertices[i];
        row.coords := row.coords + [1.0];
        matrix := matrix + [row];
        CountStep(vertices, i);
        OnesStep(multiset(vertices[..i])[row]);
      }
      assert vertices[..|vertices|] == vertices;
    }
  }

  /** Extending a prefix by one element adds one to that element's count
      and leaves every other count alone. */
  lemma CountStep<T>(s: seq<T>, i: nat)
    requires i < |s|
    ensures forall x :: multiset(s[..i + 1])[x] == multiset(s[..i])[x] + (if x == s[i] then 1 else 0)
  {
    assert s[..i + 1] == s[..i] + [s[i]];
  }

  lemma OnesStep(n: nat)
    ensures Ones(n + 1) == Ones(n) + [1.0]
  {
  }

  /** Fresh, distinct vertex lists holding the given coordinates. */
  method MakePoints(vs: seq<Vec>) returns (points: seq<Point>)
    ensures Coords(points) == vs
    ensures forall k :: 0 <= k < |points| ==> fresh(points[k])
    ensures forall k, l :: 0 <= k < l < |points| ==> points[k] != points[l]
  {
    points := [];
    for i := 0 to |vs|
      invariant |points| == i
      invariant forall k :: 0 <= k < i ==> fresh(points[k]) && points[k].coords == vs[k]
      invariant forall k, l :: 0 <= k < l < i ==> points[k] != points[l]
    {
      var p := new Point(vs[i]);
      points := points + [p];
    }
  }

  /** Calling the older getMatrix on a facet whose vertices are distinct
      3-vectors leaves every vertex with 4 entries, the last one 1. */
  method HomogenizeOnce(f: LegacyFacet)
    requires forall k, l :: 0 <= k < l < |f.vertices| ==> f.vertices[k] != f.vertices[l]
    requires forall k :: 0 <= k < |f.vertices| ==> |f.vertices[k].coords| == 3
    modifies f.vertices
    ensures forall k :: 0 <= k < |f.vertices| ==>
      |f.vertices[k].coords| == 4 && f.vertices[k].coords == old(f.vertices[k].coords) + [1.0]
  {
    var m := f.GetMatrix();
    forall k | 0 <= k < |f.vertices|
      ensures multiset(f.vertices)[f.vertices[k]] == 1
    {
      DistinctOnce(f.vertices, k);
    }
  }

  lemma {:induction false} DistinctOnce<T>(s: seq<T>, k: nat)
    requires k < |s|
    requires forall i, j :: 0 <= i < j < |s| ==> s[i] != s[j]
    ensures multiset(s)[s[k]] == 1
  {
    var n := |s| - 1;
    assert s == s[..n] + [s[n]];
    if k == n {
      assert s[n] !in s[..n];
    } else {
      DistinctOnce(s[..n], k);
      assert s[k] != s[n];
    }
  }

  // ---------------------------------------------------------------------
  // STL
  // ---------------------------------------------------------------------

  /** getNameOfSolid of the older file: `line[f : g - 1]` with `g` the next
      space after `f`. */
  function LegacyNameOfSolid(line: string): string {
    var f := NameStart(line);
    PySlice(line, f, Find(line, " ", f) - 1)
  }

  /** The older name is the newer one without its last character. */
  lemma LegacyNameOneShorter(line: string)
    ensures var name := NameOfSolid(line);
      LegacyNameOfSolid(line) == if |name| > 0 then name[..|name| - 1] else ""
  {
    FindIsFirst(line, " ", NameStart(line));
  }

  class LegacyStl {
    var file: string
    var name: string
    var lines: seq<string>
    var faces: seq<LegacyFacet>

    constructor (file: string, name: string, lines: seq<string>, faces: seq<LegacyFacet>)
      ensures this.file == file && this.name == name && this.lines == lines && this.faces == faces
    {
      this.file := file;
      this.name := name;
      this.lines := lines;
      this.faces := faces;
    }

    /** `num_faces` reads `self.facets`, which no code assigns (the parsed
        faces are stored in `self.faces`): it always raises AttributeError,
        answered here as None. */
    method NumFaces() returns (r: Option<nat>)
      ensures r.None?
    {
      r := None;
    }
  }

  /** The older getFacets: the same scan as the newer one, building facets
      whose vertices are fresh, distinct lists. */
  method GetLegacyFacets(lines: seq<string>, parseFloat: string -> Option<real>) returns (r: Outcome<seq<LegacyFacet>>)
    ensures var spec := ParseFacets(lines, HeaderIndices(lines, |lines|), parseFloat);
      && (r.Done? <==> spec.Done?) && (r == Unterminated <==> spec == Unterminated)
      && (r.Done? ==> |r.value| == |spec.value|)
    ensures r.Done? ==> forall k :: 0 <= k < |r.value| ==>
      var spec := ParseFacets(lines, HeaderIndices(lines, |lines|), parseFloat);
      && fresh(r.value[k])
      && r.value[k].normal == spec.value[k].normal
      && Coords(r.value[k].vertices) == spec.value[k].vertices
  {
    var facetIndices := GetFacetIndices(lines);
    var facets: seq<LegacyFacet> := [];
    ghost var parsed: seq<Facet> := [];
    assert facetIndices[0..] == facetIndices;
    PrependNothing(ParseFacets(lines, facetIndices, parseFloat));
    for i := 0 to |facetIndices|
      invariant ParseFacets(lines, facetIndices, parseFloat) == Prepend(parsed, ParseFacets(lines, facetIndices[i..], parseFloat))
      invariant |facets| == |parsed|
      invariant forall k :: 0 <= k < |facets| ==>
        fresh(facets[k]) && facets[k].normal == parsed[k].normal && Coords(facets[k].vertices) == parsed[k].vertices
    {
      var facetLoop := GetFacetLoop(lines, facetIndices[i]);
      if facetLoop.None? {
        ParseStopsAt(lines, facetIndices, i, parseFloat);
        return Unterminated;
      }
      var normal := GetNormal(facetLoop.value, parseFloat);
      if normal.None? {
        ParseStopsAt(lines, facetIndices, i, parseFloat);
        return Raised;
      }
      var vertices := GetVertices(facetLoop.value, parseFloat);
      if vertices.None? {
        ParseStopsAt(lines, facetIndices, i, parseFloat);
        return Raised;
      }
      ghost var f := Facet(normal.value, vertices.value);
      ParseStep(lines, facetIndices, i, parseFloat, parsed, f);
      var points := MakePoints(vertices.value);
      var facet := new LegacyFacet(normal.value, points);
      facets := facets + [facet];
      parsed := parsed + [f];
    }
    assert facetIndices[|facetIndices|..] == [];
    return Done(facets);
  }

  /** The older constructor over the given lines: name from the first line
      (one character shorter than the newer reader's), faces from getFacets. */
  method Parse(file: string, lines: seq<string>, parseFloat: string -> Option<real>) returns (r: Outcome<LegacyStl>)
    ensures |lines| == 0 ==> r == Raised
    ensures |lines| > 0 ==>
      var spec := ParseFacets(lines, HeaderIndices(lines, |lines|), parseFloat);
      && (r.Done? <==> spec.Done?) && (r == Unterminated <==> spec == Unterminated)
      && (r.Done? ==> |r.value.faces| == |spec.value|)
    ensures r.Done? ==> fresh(r.value) && r.value.file == file && r.value.lines == lines
    ensures r.Done? ==> r.value.name == LegacyNameOfSolid(lines[0])
  {
    if |lines| == 0 {
      return Raised;
    }
    var name := LegacyNameOfSolid(lines[0]);
    var faces := GetLegacyFacets(lines, parseFloat);
    match faces {
      case Done(fs) =>
        var stl := new LegacyStl(file, name, lines, fs);
        return Done(stl);
      case Unterminated => return Unterminated;
      case Raised => return Raised;
    }
  }
}
