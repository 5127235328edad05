/** Facets, solids and the ASCII STL line parser of src/STL/ReadSTL.py.
    Reading the file is left to the caller, who passes its lines; Python's
    `float(word)` is the parameter `parseFloat`, which answers None where
    `float` raises ValueError. */
module ReadStl {
  import opened Wrappers
  import opened Methods

  /** The three ways a parse can end: with a value, with the source's
      swallowed exception (a facet loop that runs past the last line, after
      which the source stores None), or with an exception that escapes. */
  datatype Outcome<T> = Done(value: T) | Unterminated | Raised

  /** A facet as a value: its normal and its vertex list. */
  datatype Facet = Facet(normal: Vec, vertices: seq<Vec>)

  const FacetHeader: string := "facet normal"
  const FacetEnd: string := "endfacet"
  const LoopEnd: string := "endloop"

  // ---------------------------------------------------------------------
  // Python string operations
  // ---------------------------------------------------------------------

  predicate OccursAt(s: string, sub: string, i: int) {
    0 <= i && i + |sub| <= |s| && s[i..i + |sub|] == sub
  }

  /** Python's `s.find(sub, start)` for a non-negative start: the first
      position at or after `start` where `sub` occurs, or -1. */
  function Find(s: string, sub: string, start: nat): int
    decreases |s| - start
  {
    if start + |sub| > |s| then -1
    else if s[start..start + |sub|] == sub then start
    else Find(s, sub, start + 1)
  }

  /** `find` answers the first occurrence at or after `start`, and -1 only
      when there is none. */
  lemma {:induction false} FindIsFirst(s: string, sub: string, start: nat)
    ensures var r := Find(s, sub, start);
      && (r == -1 || (start <= r && OccursAt(s, sub, r)))
      && forall i :: start <= i && (r == -1 || i < r) ==> !OccursAt(s, sub, i)
    decreases |s| - start
  {
    if start + |sub| <= |s| && s[start..start + |sub|] != sub {
      FindIsFirst(s, sub, start + 1);
    }
  }

  /** `s.find(sub) != -1`. */
  predicate Contains(s: string, sub: string) {
    Find(s, sub, 0) != -1
  }

  /** Python's normalisation of a slice bound against a length `n`. */
  function SliceBound(i: int, n: nat): (r: nat)
    ensures r <= n
  {
    if i < 0 then (if i + n < 0 then 0 else i + n)
    else if i > n then n
    else i
  }

  /** Python's `s[i:j]`, negative bounds counting from the end. */
  function PySlice(s: string, i: int, j: int): string {
    var a, b := SliceBound(i, |s|), SliceBound(j, |s|);
    if a < b then s[a..b] else ""
  }

  // ---------------------------------------------------------------------
  // getNameOfSolid
  // ---------------------------------------------------------------------

  /** Start of the name: two past the first space (one past it if there is
      no space). */
  function NameStart(line: string): nat {
    FindIsFirst(line, " ", 0);
    Find(line, " ", 0) + 2
  }

  /** getNameOfSolid: `line[f : line.find(" ", f)]` with `f` two past the
      first space. */
  function NameOfSolid(line: string): string {
    var f := NameStart(line);
    PySlice(line, f, Find(line, " ", f))
  }

  /** The name is the text from two past the first space up to the next
      space; when there is no next space the slice bound -1 drops the last
      character, which for a line from `readlines` is its newline. Either
      way the name holds no space. */
  lemma NameOfSolidIs(line: string)
    ensures var f, g, name := NameStart(line), Find(line, " ", NameStart(line)), NameOfSolid(line);
      && (g != -1 ==> f <= g < |line| && name == line[f..g])
      && (g == -1 ==> name == if f < |line| - 1 then line[f..|line| - 1] else "")
      && forall i :: 0 <= i < |name| ==> name[i] != ' '
  {
    var f := NameStart(line);
    var g := Find(line, " ", f);
    FindIsFirst(line, " ", f);
    NoSpaceBefore(line, f, g);
  }

  /** No space between `f` and the next space `g` (or the end of the line
      when there is none). */
  lemma NoSpaceBefore(line: string, f: nat, g: int)
    requires g == Find(line, " ", f)
    ensures forall i :: f <= i < |line| && (g == -1 || i < g) ==> line[i] != ' '
  {
    FindIsFirst(line, " ", f);
    forall i | f <= i < |line| && (g == -1 || i < g)
      ensures line[i] != ' '
    {
      assert !OccursAt(line, " ", i);
      assert line[i..i + 1] == [line[i]];
    }
  }

  // ---------------------------------------------------------------------
  // getTextBetweenSpaces
  // ---------------------------------------------------------------------

  /** The positions of the space characters of `line` at or after `from`,
      in increasing order. */
  function SpacePositions(line: string, from: nat): (r: seq<nat>)
    requires from <= |line|
    ensures forall k :: 0 <= k < |r| ==> from <= r[k] < |line|
    decreases |line| - from
  {
    if from == |line| then []
    else if line[from] == ' ' then [from] + SpacePositions(line, from + 1)
    else SpacePositions(line, from + 1)
  }

  /** Every listed position holds a space. */
  lemma {:induction false} SpacePositionsAreSpaces(line: string, from: nat)
    requires from <= |line|
    ensures forall k :: 0 <= k < |SpacePositions(line, from)| ==> line[SpacePositions(line, from)[k]] == ' '
    decreases |line| - from
  {
    if from < |line| {
      SpacePositionsAreSpaces(line, from + 1);
    }
  }

  /** The positions come in increasing order. */
  lemma {:induction false} SpacePositionsIncrease(line: string, from: nat)
    requires from <= |line|
    ensures forall k, l :: 0 <= k < l < |SpacePositions(line, from)| ==>
      SpacePositions(line, from)[k] < SpacePositions(line, from)[l]
    decreases |line| - from
  {
    if from < |line| {
      SpacePositionsIncrease(line, from + 1);
      var rest := SpacePositions(line, from + 1);
      if line[from] == ' ' {
        var r := [from] + rest;
        assert SpacePositions(line, from) == r;
        assert forall k :: 0 < k < |r| ==> r[k] == rest[k - 1];
      } else {
        assert SpacePositions(line, from) == rest;
      }
    }
  }

  /** Every space at or after `from` is listed; `m` is its place. */
  lemma {:induction false} SpacePositionIndex(line: string, from: nat, i: nat) returns (m: nat)
    requires from <= i < |line| && line[i] == ' '
    ensures m < |SpacePositions(line, from)| && SpacePositions(line, from)[m] == i
    decreases |line| - from
  {
    if line[from] == ' ' && i == from {
      m := 0;
    } else {
      var m' := SpacePositionIndex(line, from + 1, i);
      m := if line[from] == ' ' then m' + 1 else m';
    }
  }

  /** The slice bounds of `getTextBetweenSpaces`: every space position,
      then the length of the line. */
  function Boundaries(line: string): seq<nat> {
    SpacePositions(line, 0) + [|line|]
  }

  lemma BoundariesIncrease(line: string)
    ensures var b := Boundaries(line);
      && |b| == |SpacePositions(line, 0)| + 1
      && (forall k :: 0 <= k < |b| ==> b[k] <= |line|)
      && (forall k, l :: 0 <= k < l < |b| ==> b[k] < b[l])
  {
    SpacePositionsIncrease(line, 0);
  }

  lemma BoundaryOrder(line: string, k: nat, l: nat)
    requires k <= l < |Boundaries(line)|
    ensures Boundaries(line)[k] <= Boundaries(line)[l] <= |line|
  {
    BoundariesIncrease(line);
  }

  /** The words of `getTextBetweenSpaces`: the slice between each pair of
      consecutive boundaries. */
  function Words(line: string): (w: seq<string>)
    ensures |w| == |SpacePositions(line, 0)|
  {
    BoundariesIncrease(line);
    var b := Boundaries(line);
    seq(|b| - 1, k requires 0 <= k < |b| - 1 => line[b[k]..b[k + 1]])
  }

  /** Word k runs from boundary k to boundary k+1. */
  lemma WordIs(line: string, k: nat)
    requires k < |Words(line)|
    ensures var b := Boundaries(line); b[k] < b[k + 1] <= |line| && Words(line)[k] == line[b[k]..b[k + 1]]
  {
    BoundariesIncrease(line);
  }

  function Concat(ws: seq<string>): string {
    if |ws| == 0 then "" else Concat(ws[..|ws| - 1]) + ws[|ws| - 1]
  }

  /** Each word starts with its own space character. */
  lemma WordsStartWithSpace(line: string)
    ensures |Words(line)| == |SpacePositions(line, 0)|
    ensures forall k :: 0 <= k < |Words(line)| ==> |Words(line)[k]| > 0 && Words(line)[k][0] == ' '
  {
    SpacePositionsAreSpaces(line, 0);
    forall k | 0 <= k < |Words(line)|
      ensures |Words(line)[k]| > 0 && Words(line)[k][0] == ' '
    {
      WordIs(line, k);
      assert Boundaries(line)[k] == SpacePositions(line, 0)[k];
    }
  }

  /** No word holds a space after its first character. */
  lemma WordsHaveOneSpace(line: string)
    ensures forall k, j :: 0 <= k < |Words(line)| && 1 <= j < |Words(line)[k]| ==> Words(line)[k][j] != ' '
  {
    forall k, j | 0 <= k < |Words(line)| && 1 <= j < |Words(line)[k]|
      ensures Words(line)[k][j] != ' '
    {
      NoSpaceInWord(line, k, j);
    }
  }

  lemma NoSpaceInWord(line: string, k: nat, j: nat)
    requires k < |Words(line)| && 1 <= j < |Words(line)[k]|
    ensures Words(line)[k][j] != ' '
  {
    var b := Boundaries(line);
    WordIs(line, k);
    var i := b[k] + j;
    assert Words(line)[k][j] == line[i];
    if line[i] == ' ' {
      var m := SpacePositionIndex(line, 0, i);
      assert b[m] == i;
      BoundariesIncrease(line);
    }
  }

  /** The words put back together give the line from its first space on. */
  lemma WordsConcat(line: string)
    ensures Concat(Words(line)) == line[Boundaries(line)[0]..]
  {
    var w := Words(line);
    WordsPrefix(line, |w|);
    assert w[..|w|] == w;
  }

  lemma {:induction false} WordsPrefix(line: string, n: nat)
    requires n <= |Words(line)|
    ensures var b := Boundaries(line); b[0] <= b[n] && Concat(Words(line)[..n]) == line[b[0]..b[n]]
  {
    var b := Boundaries(line);
    var w := Words(line);
    BoundaryOrder(line, 0, n);
    if n > 0 {
      WordsPrefix(line, n - 1);
      WordIs(line, n - 1);
      assert w[..n][..n - 1] == w[..n - 1];
      assert line[b[0]..b[n]] == line[b[0]..b[n - 1]] + line[b[n - 1]..b[n]];
    }
  }

  method GetTextBetweenSpaces(line: string) returns (out: seq<string>)
    ensures out == Words(line)
  {
    out := [];
    var indices := SpacePositions(line, 0);
    indices := indices + [|line|];
    assert indices == Boundaries(line);
    for i := 0 to |indices| - 1
      invariant out == Words(line)[..i]
    {
      WordIs(line, i);
      var word := line[indices[i]..indices[i + 1]];
      out := out + [word];
    }
  }

  // ---------------------------------------------------------------------
  // getFloatsFromString
  // ---------------------------------------------------------------------

  /** The words that parse as floats, parsed, in order; the others are
      skipped. */
  function ParsedFloats(words: seq<string>, parseFloat: string -> Option<real>): (r: Vec)
    ensures |r| <= |words|
  {
    if |words| == 0 then []
    else
      var init := ParsedFloats(words[..|words| - 1], parseFloat);
      match parseFloat(words[|words| - 1])
      case Some(x) => init + [x]
      case None => init
  }

  /** When every word parses, there is one float per word, in order. */
  lemma {:induction false} ParsedFloatsAll(words: seq<string>, parseFloat: string -> Option<real>)
    requires forall k :: 0 <= k < |words| ==> parseFloat(words[k]).Some?
    ensures |ParsedFloats(words, parseFloat)| == |words|
    ensures forall k :: 0 <= k < |words| ==> ParsedFloats(words, parseFloat)[k] == parseFloat(words[k]).value
  {
    if |words| > 0 {
      var init := words[..|words| - 1];
      ParsedFloatsAll(init, parseFloat);
    }
  }

  function FloatsOf(line: string, parseFloat: string -> Option<real>): Vec {
    ParsedFloats(Words(line), parseFloat)
  }

  method GetFloatsFromString(line: string, parseFloat: string -> Option<real>) returns (out: Vec)
    ensures out == FloatsOf(line, parseFloat)
  {
    out := [];
    var words := GetTextBetweenSpaces(line);
    for i := 0 to |words|
      invariant out == ParsedFloats(words[..i], parseFloat)
    {
      assert words[..i + 1][..i] == words[..i];
      match parseFloat(words[i]) {
        case Some(coord) => out := out + [coord];
        case None =>
      }
    }
    assert words[..|words|] == words;
  }

  // ---------------------------------------------------------------------
  // getFacetIndices
  // ---------------------------------------------------------------------

  /** The indices below `n` of the lines that contain "facet normal". */
  function HeaderIndices(lines: seq<string>, n: nat): seq<nat>
    requires n <= |lines|
  {
    if n == 0 then []
    else HeaderIndices(lines, n - 1) + (if Contains(lines[n - 1], FacetHeader) then [n - 1] else [])
  }

  /** Exactly the header lines below `n`, in increasing order. */
  lemma {:induction false} HeaderIndicesAre(lines: seq<string>, n: nat)
    requires n <= |lines|
    ensures var r := HeaderIndices(lines, n);
      && (forall k :: 0 <= k < |r| ==> r[k] < n && Contains(lines[r[k]], FacetHeader))
      && (forall k, l :: 0 <= k < l < |r| ==> r[k] < r[l])
      && (forall i :: 0 <= i < n && Contains(lines[i], FacetHeader) ==> i in r)
  {
    if n > 0 {
      HeaderIndicesAre(lines, n - 1);
    }
  }

  method GetFacetIndices(lines: seq<string>) returns (facetIndices: seq<nat>)
    ensures facetIndices == HeaderIndices(lines, |lines|)
  {
    facetIndices := [];
    for i := 0 to |lines|
      invariant facetIndices == HeaderIndices(lines, i)
    {
      if Find(lines[i], FacetHeader, 0) != -1 {
        facetIndices := facetIndices + [i];
      }
    }
  }

  // ---------------------------------------------------------------------
  // getFacetLoop, getVertices, getNormal
  // ---------------------------------------------------------------------

  /** The first line at or after `from` that contains `sub`. */
  function FirstLineWith(lines: seq<string>, sub: string, from: nat): (r: Option<nat>)
    ensures r.Some? ==> from <= r.value < |lines|
    decreases |lines| - from
  {
    if from >= |lines| then None
    else if Contains(lines[from], sub) then Some(from)
    else FirstLineWith(lines, sub, from + 1)
  }

  lemma {:induction false} FirstLineWithIs(lines: seq<string>, sub: string, from: nat)
    ensures var r := FirstLineWith(lines, sub, from);
      && (r.Some? ==> Contains(lines[r.value], sub))
      && forall j :: from <= j < |lines| && (r.None? || j < r.value) ==> !Contains(lines[j], sub)
    decreases |lines| - from
  {
    if from < |lines| && !Contains(lines[from], sub) {
      FirstLineWithIs(lines, sub, from + 1);
    }
  }

  /** getFacetLoop as a value. */
  function FacetLoop(lines: seq<string>, index: nat): Option<seq<string>> {
    match FirstLineWith(lines, FacetEnd, index)
    case None => None
    case Some(j) => Some(lines[index..j])
  }

  /** The lines from `index` up to, not including, the first line at or
      after it that contains "endfacet"; None where the source's scan runs
      past the last line and raises IndexError. */
  lemma FacetLoopIs(lines: seq<string>, index: nat)
    ensures var r := FacetLoop(lines, index);
      && (r.None? <==> forall j :: index <= j < |lines| ==> !Contains(lines[j], FacetEnd))
      && (r.Some? ==>
        var j := index + |r.value|;
        && j < |lines| && Contains(lines[j], FacetEnd) && r.value == lines[index..j]
        && forall k :: index <= k < j ==> !Contains(lines[k], FacetEnd))
  {
    FirstLineWithIs(lines, FacetEnd, index);
  }

  method GetFacetLoop(lines: seq<string>, index: nat) returns (r: Option<seq<string>>)
    ensures r == FacetLoop(lines, index)
  {
    if index >= |lines| {
      return None;
    }
    var facetLoop := [];
    var i := index;
    while !Contains(lines[i], FacetEnd)
      invariant index <= i < |lines|
      invariant facetLoop == lines[index..i]
      invariant FirstLineWith(lines, FacetEnd, index) == FirstLineWith(lines, FacetEnd, i)
      decreases |lines| - i
    {
      facetLoop := facetLoop + [lines[i]];
      FirstLineSkip(lines, FacetEnd, i);
      i := i + 1;
      if i >= |lines| {
        return None;
      }
    }
    return Some(facetLoop);
  }

  /** getVertices as a value. */
  function VerticesOf(facetLoop: seq<string>, parseFloat: string -> Option<real>): Option<seq<Vec>> {
    match FirstLineWith(facetLoop, LoopEnd, 2)
    case None => None
    case Some(j) => Some(seq(j - 2, k requires 0 <= k < j - 2 => FloatsOf(facetLoop[k + 2], parseFloat)))
  }

  /** One vertex per loop line from line 2 up to, not including, the first
      line containing "endloop"; None where the source raises IndexError. */
  lemma VerticesOfIs(facetLoop: seq<string>, parseFloat: string -> Option<real>)
    ensures var r := VerticesOf(facetLoop, parseFloat);
      && (r.None? <==> forall j :: 2 <= j < |facetLoop| ==> !Contains(facetLoop[j], LoopEnd))
      && (r.Some? ==>
        var j := 2 + |r.value|;
        && j < |facetLoop| && Contains(facetLoop[j], LoopEnd)
        && (forall k :: 2 <= k < j ==> !Contains(facetLoop[k], LoopEnd))
        && forall k :: 0 <= k < |r.value| ==> r.value[k] == FloatsOf(facetLoop[k + 2], parseFloat))
  {
    FirstLineWithIs(facetLoop, LoopEnd, 2);
  }

  method GetVertices(facetLoop: seq<string>, parseFloat: string -> Option<real>) returns (r: Option<seq<Vec>>)
    ensures r == VerticesOf(facetLoop, parseFloat)
  {
    if 2 >= |facetLoop| {
      return None;
    }
    var vertices := [];
    var index := 2;
    while !Contains(facetLoop[index], LoopEnd)
      invariant 2 <= index < |facetLoop|
      invariant |vertices| == index - 2
      invariant forall k :: 0 <= k < |vertices| ==> vertices[k] == FloatsOf(facetLoop[k + 2], parseFloat)
      invariant FirstLineWith(facetLoop, LoopEnd, 2) == FirstLineWith(facetLoop, LoopEnd, index)
      decreases |facetLoop| - index
    {
      var v := GetFloatsFromString(facetLoop[index], parseFloat);
      vertices := vertices + [v];
      FirstLineSkip(facetLoop, LoopEnd, index);
      index := index + 1;
      if index >= |facetLoop| {
        return None;
      }
    }
    VerticesFound(facetLoop, parseFloat, index, vertices);
    return Some(vertices);
  }

  lemma FirstLineSkip(lines: seq<string>, sub: string, i: nat)
    requires i < |lines| && !Contains(lines[i], sub)
    ensures FirstLineWith(lines, sub, i) == FirstLineWith(lines, sub, i + 1)
  {
  }

  lemma VerticesFound(facetLoop: seq<string>, parseFloat: string -> Option<real>, j: nat, vertices: seq<Vec>)
    requires 2 <= j < |facetLoop| && Contains(facetLoop[j], LoopEnd)
    requires FirstLineWith(facetLoop, LoopEnd, 2) == FirstLineWith(facetLoop, LoopEnd, j)
    requires |vertices| == j - 2
    requires forall k :: 0 <= k < |vertices| ==> vertices[k] == FloatsOf(facetLoop[k + 2], parseFloat)
    ensures VerticesOf(facetLoop, parseFloat) == Some(vertices)
  {
    assert FirstLineWith(facetLoop, LoopEnd, j) == Some(j);
    assert vertices == seq(j - 2, k requires 0 <= k < j - 2 => FloatsOf(facetLoop[k + 2], parseFloat));
  }

  /** The floats of the first loop line; None where the loop is empty and
      the source raises IndexError. */
  method GetNormal(facetLoop: seq<string>, parseFloat: string -> Option<real>) returns (r: Option<Vec>)
    ensures |facetLoop| == 0 ==> r == None
    ensures |facetLoop| > 0 ==> r == Some(FloatsOf(facetLoop[0], parseFloat))
  {
    if |facetLoop| == 0 {
      return None;
    }
    var normal := GetFloatsFromString(facetLoop[0], parseFloat);
    return Some(normal);
  }

  /** parseFacetLoop as a value: the normal, then the vertices. */
  function FacetOfLoop(facetLoop: seq<string>, parseFloat: string -> Option<real>): Option<Facet> {
    if |facetLoop| == 0 then None
    else match VerticesOf(facetLoop, parseFloat)
      case None => None
      case Some(vs) => Some(Facet(FloatsOf(facetLoop[0], parseFloat), vs))
  }

  // ---------------------------------------------------------------------
  // getFacets
  // ---------------------------------------------------------------------

  function Prepend(fs: seq<Facet>, o: Outcome<seq<Facet>>): Outcome<seq<Facet>> {
    if o.Done? then Done(fs + o.value) else o
  }

  /** getFacets over the given header indices, in order: the first facet
      loop that runs past the last line ends the parse as Unterminated, the
      first loop whose normal or vertices cannot be read raises. */
  function ParseFacets(lines: seq<string>, indices: seq<nat>, parseFloat: string -> Option<real>): (r: Outcome<seq<Facet>>)
    ensures r.Done? ==> |r.value| == |indices|
  {
    if |indices| == 0 then Done([])
    else match FacetLoop(lines, indices[0])
      case None => Unterminated
      case Some(facetLoop) =>
        match FacetOfLoop(facetLoop, parseFloat)
        case None => Raised
        case Some(f) => Prepend([f], ParseFacets(lines, indices[1..], parseFloat))
  }

  /** Over increasing header indices, the parse is Unterminated only when
      the last header has no "endfacet" after it; and when it has none, no
      facet list comes back. */
  lemma {:induction false} UnterminatedMeansLastOpen(lines: seq<string>, indices: seq<nat>, parseFloat: string -> Option<real>)
    requires forall k, l :: 0 <= k < l < |indices| ==> indices[k] < indices[l]
    ensures ParseFacets(lines, indices, parseFloat) == Unterminated ==>
      |indices| > 0 && FacetLoop(lines, indices[|indices| - 1]).None?
    ensures |indices| > 0 && FacetLoop(lines, indices[|indices| - 1]).None? ==>
      !ParseFacets(lines, indices, parseFloat).Done?
  {
    if |indices| > 0 {
      var last := indices[|indices| - 1];
      var rest := indices[1..];
      var loop := FacetLoop(lines, indices[0]);
      if loop.None? {
        assert indices[0] <= last;
        FacetLoopIs(lines, indices[0]);
        FacetLoopIs(lines, last);
      } else if FacetOfLoop(loop.value, parseFloat).Some? {
        var f := FacetOfLoop(loop.value, parseFloat).value;
        assert ParseFacets(lines, indices, parseFloat) == Prepend([f], ParseFacets(lines, rest, parseFloat));
        if |rest| == 0 {
          assert last == indices[0];
        } else {
          UnterminatedMeansLastOpen(lines, rest, parseFloat);
          assert rest[|rest| - 1] == last;
        }
      } else {
        assert ParseFacets(lines, indices, parseFloat) == Raised;
      }
    }
  }

  method GetFacets(lines: seq<string>, parseFloat: string -> Option<real>) returns (r: Outcome<seq<StlFacet>>)
    ensures var spec := ParseFacets(lines, HeaderIndices(lines, |lines|), parseFloat);
      && (r.Done? <==> spec.Done?) && (r == Unterminated <==> spec == Unterminated)
      && (r.Done? ==> Snapshot(r.value) == spec.value)
    ensures r.Done? ==> forall k :: 0 <= k < |r.value| ==> fresh(r.value[k]) && r.value[k].numVertices == |r.value[k].vertices|
  {
    var facetIndices := GetFacetIndices(lines);
    var facets: seq<StlFacet> := [];
    ghost var parsed: seq<Facet> := [];
    assert facetIndices[0..] == facetIndices;
    assert Snapshot(facets) == parsed;
    PrependNothing(ParseFacets(lines, facetIndices, parseFloat));
    for i := 0 to |facetIndices|
      invariant ParseFacets(lines, facetIndices, parseFloat) == Prepend(parsed, ParseFacets(lines, facetIndices[i..], parseFloat))
      invariant Snapshot(facets) == parsed
      invariant forall k :: 0 <= k < |facets| ==> fresh(facets[k]) && facets[k].numVertices == |facets[k].vertices|
    {
      var facetLoop := GetFacetLoop(lines, facetIndices[i]);
      if facetLoop.None? {
        ParseStopsAt(lines, facetIndices, i, parseFloat);
        return Unterminated;
      }
      var normal := GetNormal(facetLoop.value, parseFloat);
      if normal.None? {
        ParseStopsAt(lines, facetIndices, i, parseFloat);
        return Raised;
      }
      var vertices := GetVertices(facetLoop.value, parseFloat);
      if vertices.None? {
        ParseStopsAt(lines, facetIndices, i, parseFloat);
        return Raised;
      }
      ghost var f := Facet(normal.value, vertices.value);
      ParseStep(lines, facetIndices, i, parseFloat, parsed, f);
      var facet := new StlFacet(normal.value, vertices.value);
      SnapshotAppend(facets, facet);
      facets := facets + [facet];
      parsed := parsed + [f];
    }
    assert facetIndices[|facetIndices|..] == [];
    return Done(facets);
  }

  lemma PrependNothing(o: Outcome<seq<Facet>>)
    ensures Prepend([], o) == o
  {
    if o.Done? {
      assert [] + o.value == o.value;
    }
  }

  /** A facet that parses moves the parse one header on. */
  lemma ParseStep(lines: seq<string>, indices: seq<nat>, i: nat, parseFloat: string -> Option<real>, parsed: seq<Facet>, f: Facet)
    requires i < |indices| && FacetLoop(lines, indices[i]).Some?
    requires FacetOfLoop(FacetLoop(lines, indices[i]).value, parseFloat) == Some(f)
    ensures Prepend(parsed, ParseFacets(lines, indices[i..], parseFloat))
      == Prepend(parsed + [f], ParseFacets(lines, indices[i + 1..], parseFloat))
  {
    assert indices[i..][0] == indices[i] && indices[i..][1..] == indices[i + 1..];
    var rest := ParseFacets(lines, indices[i + 1..], parseFloat);
    if rest.Done? {
      assert parsed + ([f] + rest.value) == (parsed + [f]) + rest.value;
    }
  }

  /** A facet that does not parse ends the parse with its own outcome. */
  lemma ParseStopsAt(lines: seq<string>, indices: seq<nat>, i: nat, parseFloat: string -> Option<real>)
    requires i < |indices|
    requires FacetLoop(lines, indices[i]).None? || FacetOfLoop(FacetLoop(lines, indices[i]).value, parseFloat).None?
    ensures ParseFacets(lines, indices[i..], parseFloat) ==
      if FacetLoop(lines, indices[i]).None? then Unterminated else Raised
  {
    assert indices[i..][0] == indices[i];
  }

  // ---------------------------------------------------------------------
  // STL_Facet
  // ---------------------------------------------------------------------

  /** Python's `row[0:3]`. */
  function Take3(row: Vec): Vec {
    if |row| <= 3 then row else row[..3]
  }

  /** A copy of `l` with the homogeneous coordinate 1 appended. */
  function Homogenize(l: Vec): (r: Vec)
    ensures |r| == |l| + 1 && r[..|l|] == l && r[|l|] == 1.0
  {
    l + [1.0]
  }

  /** Dropping the homogeneous coordinate again restores a 3-vector. */
  lemma HomogenizeRoundTrip(l: Vec)
    requires |l| == 3
    ensures Take3(Homogenize(l)) == l
  {
  }

  class StlFacet {
    var normal: Vec
    var vertices: seq<Vec>
    var numVertices: nat

    constructor (normal: Vec, vertices: seq<Vec>)
      ensures this.normal == normal && this.vertices == vertices && numVertices == |vertices|
    {
      this.normal := normal;
      this.vertices := vertices;
      numVertices := |vertices|;
    }

    /** Row 0 of `A` gives the normal and row k+1 vertex k, each cut to its
        first three entries; vertices beyond the rows and the vertex count
        stay as they were. More rows than vertices raise IndexError in the
        source, hence the bound. */
    method LoadFromMatrix(A: seq<Vec>)
      requires 1 <= |A| <= |vertices| + 1
      modifies this
      ensures normal == Take3(A[0])
      ensures |vertices| == |old(vertices)| && numVertices == old(numVertices)
      ensures forall k :: 0 <= k < |A| - 1 ==> vertices[k] == Take3(A[k + 1])
      ensures forall k :: |A| - 1 <= k < |vertices| ==> vertices[k] == old(vertices)[k]
    {
      normal := Take3(A[0]);
      for row := 1 to |A|
        invariant |vertices| == |old(vertices)| && numVertices == old(numVertices)
        invariant normal == Take3(A[0])
        invariant forall k :: 0 <= k < row - 1 ==> vertices[k] == Take3(A[k + 1])
        invariant forall k :: row - 1 <= k < |vertices| ==> vertices[k] == old(vertices)[k]
      {
        vertices := vertices[row - 1 := Take3(A[row])];
      }
    }

    /** A copy of the vertex list; as a value it is unaffected by later
        updates of the facet. */
    method CopyVertices() returns (r: seq<Vec>)
      ensures r == vertices
    {
      r := vertices;
    }

    /** n+1 rows: the homogenised normal, then each homogenised vertex. The
        facet itself is left as it was. */
    method GetMatrix() returns (matrix: seq<Vec>)
      ensures |matrix| == |vertices| + 1
      ensures matrix[0] == Homogenize(normal)
      ensures forall k :: 0 <= k < |vertices| ==> matrix[k + 1] == Homogenize(vertices[k])
    {
      matrix := [Homogenize(normal)];
      for i := 0 to |vertices|
        invariant |matrix| == i + 1 && matrix[0] == Homogenize(normal)
        invariant forall k :: 0 <= k < i ==> matrix[k + 1] == Homogenize(vertices[k])
      {
        matrix := matrix + [Homogenize(vertices[i])];
      }
    }

    /** Export followed by import leaves a facet of 3-vectors as it was. */
    method ReloadFromMatrix()
      requires |normal| == 3 && forall k :: 0 <= k < |vertices| ==> |vertices[k]| == 3
      modifies this
      ensures normal == old(normal) && vertices == old(vertices) && numVertices == old(numVertices)
    {
      var matrix := GetMatrix();
      forall k | 0 <= k < |vertices| {
        HomogenizeRoundTrip(vertices[k]);
      }
      HomogenizeRoundTrip(normal);
      LoadFromMatrix(matrix);
    }

    /** Entry `axis` of every vertex, in vertex order; a vertex too short
        for it raises IndexError in the source. */
    method Coordinates(axis: nat) returns (c: seq<real>)
      requires forall k :: 0 <= k < |vertices| ==> axis < |vertices[k]|
      ensures |c| == |vertices|
      ensures forall k :: 0 <= k < |vertices| ==> c[k] == vertices[k][axis]
    {
      c := [];
      for i := 0 to |vertices|
        invariant |c| == i
        invariant forall k :: 0 <= k < i ==> c[k] == vertices[k][axis]
      {
        c := c + [vertices[i][axis]];
      }
    }

    method GetXCoordinates() returns (x: seq<real>)
      requires forall k :: 0 <= k < |vertices| ==> 0 < |vertices[k]|
      ensures |x| == |vertices| && forall k :: 0 <= k < |vertices| ==> x[k] == vertices[k][0]
    {
      x := Coordinates(0);
    }

    method GetYCoordinates() returns (y: seq<real>)
      requires forall k :: 0 <= k < |vertices| ==> 1 < |vertices[k]|
      ensures |y| == |vertices| && forall k :: 0 <= k < |vertices| ==> y[k] == vertices[k][1]
    {
      y := Coordinates(1);
    }

    method GetZCoordinates() returns (z: seq<real>)
      requires forall k :: 0 <= k < |vertices| ==> 2 < |vertices[k]|
      ensures |z| == |vertices| && forall k :: 0 <= k < |vertices| ==> z[k] == vertices[k][2]
    {
      z := Coordinates(2);
    }
  }

  /** The facets as values. */
  function Snapshot(faces: seq<StlFacet>): (r: seq<Facet>)
    reads faces
    ensures |r| == |faces|
    ensures forall k :: 0 <= k < |faces| ==> r[k] == Facet(faces[k].normal, faces[k].vertices)
  {
    seq(|faces|, k reads faces requires 0 <= k < |faces| => Facet(faces[k].normal, faces[k].vertices))
  }

  lemma SnapshotAppend(faces: seq<StlFacet>, f: StlFacet)
    ensures Snapshot(faces + [f]) == Snapshot(faces) + [Facet(f.normal, f.vertices)]
  {
  }

  // ---------------------------------------------------------------------
  // STL
  // ---------------------------------------------------------------------

  /** All vertices of the faces, face by face, duplicates kept. */
  function AllVertices(faces: seq<StlFacet>): seq<Vec>
    reads faces
  {
    if |faces| == 0 then [] else AllVertices(faces[..|faces| - 1]) + faces[|faces| - 1].vertices
  }

  function VertexCount(faces: seq<StlFacet>): nat
    reads faces
  {
    if |faces| == 0 then 0 else VertexCount(faces[..|faces| - 1]) + |faces[|faces| - 1].vertices|
  }

  /** The list holds one entry per vertex of every face, and every vertex
      of every face is in it, at the place after the earlier faces. */
  lemma {:induction false} AllVerticesLength(faces: seq<StlFacet>)
    ensures |AllVertices(faces)| == VertexCount(faces)
  {
    if |faces| > 0 {
      AllVerticesLength(faces[..|faces| - 1]);
    }
  }

  /** Vertex j of face k sits in the list right after the vertices of the
      faces before k. */
  lemma {:induction false} AllVerticesAt(faces: seq<StlFacet>, k: nat, j: nat)
    requires k < |faces| && j < |faces[k].vertices|
    ensures VertexCount(faces[..k]) + j < |AllVertices(faces)|
    ensures AllVertices(faces)[VertexCount(faces[..k]) + j] == faces[k].vertices[j]
  {
    var init := faces[..|faces| - 1];
    AllVerticesLength(faces);
    AllVerticesLength(init);
    VertexCountPrefix(faces, k);
    if k < |faces| - 1 {
      assert init[..k] == faces[..k];
      AllVerticesAt(init, k, j);
    } else {
      assert faces[..k] == init;
    }
  }

  lemma {:induction false} VertexCountPrefix(faces: seq<StlFacet>, k: nat)
    requires k < |faces|
    ensures VertexCount(faces[..k]) + |faces[k].vertices| <= VertexCount(faces)
  {
    if k < |faces| - 1 {
      assert faces[..|faces| - 1][..k] == faces[..k];
      VertexCountPrefix(faces[..|faces| - 1], k);
    } else {
      assert faces[..|faces| - 1] == faces[..k];
    }
  }

  /** A solid. `lines` is None for a solid made by emptyCopy: `STL(None)`
      never parses a file, so such an object has no `lines` attribute. */
  class Stl {
    var file: string
    var name: string
    var lines: Option<seq<string>>
    var faces: seq<StlFacet>

    constructor (file: string, name: string, lines: Option<seq<string>>, faces: seq<StlFacet>)
      ensures this.file == file && this.name == name && this.lines == lines && this.faces == faces
    {
      this.file := file;
      this.name := name;
      this.lines := lines;
      this.faces := faces;
    }

    /** A new solid with this one's name and file, no lines (the copy is
        never parsed), and no face or the given one. This solid is not
        changed. */
    method EmptyCopy(facet: Option<StlFacet>) returns (out: Stl)
      ensures fresh(out)
      ensures out.name == name && out.file == file && out.lines.None?
      ensures out.faces == if facet.Some? then [facet.value] else []
    {
      out := new Stl(file, name, None, []);
      if facet.Some? {
        out.faces := out.faces + [facet.value];
      }
    }

    method NumFaces() returns (n: nat)
      ensures n == |faces|
    {
      n := |faces|;
    }

    method GetAllVertices() returns (out: seq<Vec>)
      ensures out == AllVertices(faces)
    {
      out := [];
      for i := 0 to |faces|
        invariant out == AllVertices(faces[..i])
      {
        var face := faces[i];
        for j := 0 to |face.vertices|
          invariant out == AllVertices(faces[..i]) + face.vertices[..j]
        {
          out := out + [face.vertices[j]];
        }
        assert faces[..i + 1][..i] == faces[..i];
        assert face.vertices[..|face.vertices|] == face.vertices;
      }
      assert faces[..|faces|] == faces;
    }
  }

  /** parseFile over the given lines: the name comes from the first line
      and the faces from getFacets. An empty file raises IndexError; a
      swallowed facet-loop exception leaves the source's object with faces
      None, reported here as Unterminated. */
  method ParseFile(file: string, lines: seq<string>, parseFloat: string -> Option<real>) returns (r: Outcome<Stl>)
    ensures |lines| == 0 ==> r == Raised
    ensures |lines| > 0 ==>
      var spec := ParseFacets(lines, HeaderIndices(lines, |lines|), parseFloat);
      && (r.Done? <==> spec.Done?) && (r == Unterminated <==> spec == Unterminated)
      && (r.Done? ==> Snapshot(r.value.faces) == spec.value)
    ensures r.Done? ==> fresh(r.value) && r.value.file == file && r.value.lines == Some(lines)
    ensures r.Done? ==> r.value.name == NameOfSolid(lines[0])
  {
    if |lines| == 0 {
      return Raised;
    }
    var name := NameOfSolid(lines[0]);
    var faces := GetFacets(lines, parseFloat);
    match faces {
      case Done(fs) =>
        var stl := new Stl(file, name, Some(lines), fs);
        return Done(stl);
      case Unterminated => return Unterminated;
      case Raised => return Raised;
    }
  }
}
