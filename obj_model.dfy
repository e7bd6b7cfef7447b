/**
 * The OBJ loader of class Model (model.cpp): the pools it grows, the line dispatch of
 * loadOBJ, the three attribute parsers and the face parser. The specification is a set
 * of functions on the value of the four pools; the class Model below implements it
 * on fields that its methods grow in place.
 */
module ObjModel {
  import opened Wrappers
  import opened StreamText
  import opened Triangulation

  /**
   * A `glm::vec3` read by `s >> x >> y >> z` from `text`. Float conversion is not part
   * of this model, so the record keeps the text it is read from and nothing else.
   */
  datatype Vec3 = Vec3From(text: string)

  /** A `glm::vec2` read by `s >> x >> y` from `text`. */
  datatype Vec2 = Vec2From(text: string)

  /** The four growable member vectors of Model. */
  datatype Pools = Pools(vertices: seq<Vec3>, texCoords: seq<Vec2>, normals: seq<Vec3>, indices: seq<UInt32>)

  const EmptyPools := Pools([], [], [], [])

  /** The record kind a line's leading tag selects. */
  datatype LineKind = VertexLine | TexCoordLine | NormalLine | FaceLine | Ignored

  /** `line.substr(0, n)`: the first n characters, or the whole line when it is shorter. */
  function Prefix(line: string, n: nat): string {
    if n <= |line| then line[..n] else line
  }

  predicate HasTag(line: string, tag: string) {
    Prefix(line, |tag|) == tag
  }

  /** The if / else-if chain of loadOBJ: the first tag that matches picks the parser. */
  function Classify(line: string): (k: LineKind)
    ensures k == VertexLine <==> |line| >= 2 && line[0] == 'v' && line[1] == ' '
    ensures k == TexCoordLine <==> |line| >= 3 && line[0] == 'v' && line[1] == 't' && line[2] == ' '
    ensures k == NormalLine <==> |line| >= 3 && line[0] == 'v' && line[1] == 'n' && line[2] == ' '
    ensures k == FaceLine <==> |line| >= 2 && line[0] == 'f' && line[1] == ' '
    ensures |line| < 2 ==> k == Ignored
  {
    if HasTag(line, "v ") then VertexLine
    else if HasTag(line, "vt ") then TexCoordLine
    else if HasTag(line, "vn ") then NormalLine
    else if HasTag(line, "f ") then FaceLine
    else Ignored
  }

  /** The position index a face reference stands for: `vertexStream >> vIndex`, then `vIndex - 1`. */
  function PositionRef(token: string): UInt32 {
    Decrement(ExtractUInt(token))
  }

  /** The position indices of a face's references, one per reference, in order. */
  function PositionRefs(tokens: seq<string>): (vs: seq<UInt32>)
    ensures |vs| == |tokens|
    ensures forall j :: 0 <= j < |vs| ==> vs[j] == PositionRef(tokens[j])
  {
    if tokens == [] then [] else [PositionRef(tokens[0])] + PositionRefs(tokens[1..])
  }

  /** The entries parseFace appends to `indices` for the face text after the "f " tag. */
  function FaceIndices(payload: string): seq<UInt32> {
    Triangulate(PositionRefs(Tokens(payload)))
  }

  /** The pools after loadOBJ has handled one line: the parser its tag selects appends to its own pool. */
  function Step(p: Pools, line: string): Pools {
    match Classify(line)
    case VertexLine => p.(vertices := p.vertices + [Vec3From(line[2..])])
    case TexCoordLine => p.(texCoords := p.texCoords + [Vec2From(line[3..])])
    case NormalLine => p.(normals := p.normals + [Vec3From(line[3..])])
    case FaceLine => p.(indices := p.indices + FaceIndices(line[2..]))
    case Ignored => p
  }

  /** The pools after loadOBJ has handled `lines` in order, starting from `p`. */
  function LoadLines(p: Pools, lines: seq<string>): Pools {
    if lines == [] then p else Step(LoadLines(p, lines[..|lines| - 1]), lines[|lines| - 1])
  }

  /** Each pool of `p` followed by the same pool of `q`. */
  function Append(p: Pools, q: Pools): Pools {
    Pools(p.vertices + q.vertices, p.texCoords + q.texCoords, p.normals + q.normals, p.indices + q.indices)
  }

  /** The number of lines among `lines` that Classify sends to `kind`. */
  function CountKind(lines: seq<string>, kind: LineKind): nat {
    if lines == [] then 0
    else CountKind(lines[..|lines| - 1], kind) + (if Classify(lines[|lines| - 1]) == kind then 1 else 0)
  }

  /** The number of index entries the face lines among `lines` contribute. */
  function FaceEntries(lines: seq<string>): nat {
    if lines == [] then 0
    else
      var last := lines[|lines| - 1];
      FaceEntries(lines[..|lines| - 1]) + (if Classify(last) == FaceLine then |FaceIndices(last[2..])| else 0)
  }

  // ---------------------------------------------------------------------------
  // One line

  /**
   * A line reaches at most one parser: a vertex, texture or normal line adds exactly one
   * record to its own pool; a face line adds only to `indices`; any other line changes nothing.
   * What was in the pools before stays in place.
   */
  lemma StepChangesOnePool(p: Pools, line: string)
    ensures var q := Step(p, line);
      && q.vertices == p.vertices + (if Classify(line) == VertexLine then [Vec3From(line[2..])] else [])
      && q.texCoords == p.texCoords + (if Classify(line) == TexCoordLine then [Vec2From(line[3..])] else [])
      && q.normals == p.normals + (if Classify(line) == NormalLine then [Vec3From(line[3..])] else [])
      && q.indices == p.indices + (if Classify(line) == FaceLine then FaceIndices(line[2..]) else [])
  {
  }

  /** A face with N references adds 3 * (N - 2) entries, none for N < 3, each a reference's position index. */
  lemma FaceGrowth(payload: string)
    ensures var n := |Tokens(payload)|;
      |FaceIndices(payload)| == if n < 3 then 0 else 3 * (n - 2)
    ensures forall k :: 0 <= k < |FaceIndices(payload)| ==>
      FanCorner(k) < |Tokens(payload)| && FaceIndices(payload)[k] == PositionRef(Tokens(payload)[FanCorner(k)])
  {
    forall k | 0 <= k < |FaceIndices(payload)|
      ensures FanCorner(k) < |Tokens(payload)| && FaceIndices(payload)[k] == PositionRef(Tokens(payload)[FanCorner(k)])
    {
      TriangulateAt(PositionRefs(Tokens(payload)), k);
    }
  }

  /** The texture and normal fields of a reference never reach `indices`. */
  lemma TextureAndNormalIgnored(d: string, t: string, n: string)
    requires AllDigits(d)
    ensures PositionRef(d + "/" + t) == PositionRef(d)
    ensures PositionRef(d + "/" + t + "/" + n) == PositionRef(d)
    ensures PositionRef(d + "//" + n) == PositionRef(d)
  {
    LeadingDigitsOfNumber(d, "/" + t);
    assert d + "/" + t == d + ("/" + t);
    LeadingDigitsOfNumber(d, "/" + t + "/" + n);
    assert d + "/" + t + "/" + n == d + ("/" + t + "/" + n);
    LeadingDigitsOfNumber(d, "//" + n);
    assert d + "//" + n == d + ("//" + n);
    LeadingDigitsOfNumber(d, []);
    assert d + [] == d;
  }

  /** Reference number n (1-based in the text) becomes position index n - 1, whatever follows its digits. */
  lemma PositionRefOfNumber(n: nat, rest: string)
    requires 1 <= n <= UINT_MAX
    requires rest == [] || !IsDigit(rest[0])
    ensures PositionRef(DecimalString(n) + rest) == n - 1
  {
    ExtractUIntOfDecimal(n, rest);
  }

  /** A reference without leading digits, or with the number 0, wraps around to UINT_MAX. */
  lemma PositionRefWraps(token: string)
    requires token == [] || !IsDigit(token[0]) || ExtractUInt(token) == 0
    ensures PositionRef(token) == UINT_MAX
  {
  }

  /** `N/N/N` with a one-digit N references position N - 1. */
  lemma FullReferenceOfDigit(c: char)
    requires '1' <= c <= '9'
    ensures IsWord([c, '/', c, '/', c])
    ensures PositionRef([c, '/', c, '/', c]) == c as int - '1' as int
  {
    TextureAndNormalIgnored([c], [c], [c]);
    assert [c] + "/" + [c] + "/" + [c] == [c, '/', c, '/', c];
    var n := c as int - '0' as int;
    assert DecimalString(n) == [c];
    PositionRefOfNumber(n, []);
    assert DecimalString(n) + [] == [c];
  }

  /** A face whose references are separated by single spaces gives the triangulation of their position indices. */
  lemma FaceOfWords(ws: seq<string>)
    requires forall j :: 0 <= j < |ws| ==> IsWord(ws[j])
    ensures FaceIndices(JoinWords(ws)) == Triangulate(PositionRefs(ws))
  {
    TokensOfJoinWords(ws);
  }

  /** `f 1/1/1 2/2/2 3/3/3` appends exactly 0, 1, 2 to `indices`. */
  lemma FaceWithAllFields()
    ensures FaceIndices(JoinWords(["1/1/1", "2/2/2", "3/3/3"])) == [0, 1, 2]
  {
    var ws := ["1/1/1", "2/2/2", "3/3/3"];
    FullReferenceOfDigit('1');
    FullReferenceOfDigit('2');
    FullReferenceOfDigit('3');
    FaceOfWords(ws);
    assert PositionRefs(ws) == [0, 1, 2];
  }

  /** A `v ` line appends one position, read from the text after the tag. */
  lemma VertexLineStep(p: Pools, rest: string)
    ensures Step(p, "v " + rest) == p.(vertices := p.vertices + [Vec3From(rest)])
  {
    var line := "v " + rest;
    assert line[0] == 'v' && line[1] == ' ' && line[2..] == rest;
  }

  /** A `vt ` line appends one texture coordinate, read from the text after the tag. */
  lemma TexCoordLineStep(p: Pools, rest: string)
    ensures Step(p, "vt " + rest) == p.(texCoords := p.texCoords + [Vec2From(rest)])
  {
    var line := "vt " + rest;
    assert line[0] == 'v' && line[1] == 't' && line[2] == ' ' && line[3..] == rest;
  }

  /** A `vn ` line appends one normal, read from the text after the tag. */
  lemma NormalLineStep(p: Pools, rest: string)
    ensures Step(p, "vn " + rest) == p.(normals := p.normals + [Vec3From(rest)])
  {
    var line := "vn " + rest;
    assert line[0] == 'v' && line[1] == 'n' && line[2] == ' ' && line[3..] == rest;
  }

  /** An `f ` line appends the triangulation of the references after the tag. */
  lemma FaceLineStep(p: Pools, rest: string)
    ensures Step(p, "f " + rest) == p.(indices := p.indices + FaceIndices(rest))
  {
    var line := "f " + rest;
    assert line[0] == 'f' && line[1] == ' ' && line[2..] == rest;
  }

  lemma AppendAssoc<T>(a: seq<T>, b: seq<T>, c: seq<T>)
    ensures (a + b) + c == a + (b + c)
  {
  }

  /** One `s >> vertexData` in parseFace: the word at the front and the references after it. */
  lemma ReadOneReference(rest: string)
    requires rest != [] && !IsSpace(rest[0])
    ensures var n := WordLength(rest);
      PositionRefs(Tokens(rest)) == [PositionRef(rest[..n])] + PositionRefs(Tokens(SkipSpace(rest[n..])))
  {
    var n := WordLength(rest);
    var ts := Tokens(rest[n..]);
    assert Tokens(rest) == [rest[..n]] + ts;
    assert ([rest[..n]] + ts)[1..] == ts;
  }

  // ---------------------------------------------------------------------------
  // A whole file

  lemma StepAfterAppend(p: Pools, q: Pools, line: string)
    ensures Step(Append(p, q), line) == Append(p, Step(q, line))
  {
    match Classify(line)
    case VertexLine => AppendAssoc(p.vertices, q.vertices, [Vec3From(line[2..])]);
    case TexCoordLine => AppendAssoc(p.texCoords, q.texCoords, [Vec2From(line[3..])]);
    case NormalLine => AppendAssoc(p.normals, q.normals, [Vec3From(line[3..])]);
    case FaceLine => AppendAssoc(p.indices, q.indices, FaceIndices(line[2..]));
    case Ignored =>
  }

  lemma StepIndices(p: Pools, line: string)
    ensures |Step(p, line).indices| == |p.indices| + (if Classify(line) == FaceLine then |FaceIndices(line[2..])| else 0)
  {
  }

  lemma AppendEmpty(p: Pools)
    ensures Append(p, EmptyPools) == p
  {
    assert p.vertices + [] == p.vertices && p.texCoords + [] == p.texCoords;
    assert p.normals + [] == p.normals && p.indices + [] == p.indices;
  }

  /**
   * Loading never clears the pools: the result is the old contents followed by what
   * the same lines load into empty pools. In particular a reload appends.
   */
  lemma {:induction false} LoadAppends(p: Pools, lines: seq<string>)
    ensures LoadLines(p, lines) == Append(p, LoadLines(EmptyPools, lines))
  {
    if lines == [] {
      AppendEmpty(p);
    } else {
      var init := lines[..|lines| - 1];
      LoadAppends(p, init);
      StepAfterAppend(p, LoadLines(EmptyPools, init), lines[|lines| - 1]);
    }
  }

  /**
   * Each attribute pool gains one record per line of its kind, `indices` gains the entries
   * of the face lines, and the old contents of every pool stay a prefix.
   */
  lemma {:induction false} LoadCounts(p: Pools, lines: seq<string>)
    ensures var q := LoadLines(p, lines);
      && |q.vertices| == |p.vertices| + CountKind(lines, VertexLine)
      && |q.texCoords| == |p.texCoords| + CountKind(lines, TexCoordLine)
      && |q.normals| == |p.normals| + CountKind(lines, NormalLine)
      && |q.indices| == |p.indices| + FaceEntries(lines)
      && p.vertices <= q.vertices && p.texCoords <= q.texCoords
      && p.normals <= q.normals && p.indices <= q.indices
  {
    if lines != [] {
      LoadCounts(p, lines[..|lines| - 1]);
      StepChangesOnePool(LoadLines(p, lines[..|lines| - 1]), lines[|lines| - 1]);
    }
  }

  /** The index stream stays a whole number of triangles. */
  lemma {:induction false} LoadKeepsTriangles(p: Pools, lines: seq<string>)
    requires |p.indices| % 3 == 0
    ensures |LoadLines(p, lines).indices| % 3 == 0
  {
    if lines != [] {
      var init := lines[..|lines| - 1];
      LoadKeepsTriangles(p, init);
      StepIndices(LoadLines(p, init), lines[|lines| - 1]);
    }
  }

  /** A file of only comments, directives and blank lines leaves every pool as it was. */
  lemma {:induction false} IgnoredLinesChangeNothing(p: Pools, lines: seq<string>)
    requires forall j :: 0 <= j < |lines| ==> Classify(lines[j]) == Ignored
    ensures LoadLines(p, lines) == p
  {
    if lines != [] {
      IgnoredLinesChangeNothing(p, lines[..|lines| - 1]);
    }
  }

  // ---------------------------------------------------------------------------
  // The class

  /**
   * The first half of parseFace: `while (s >> vertexData)` takes one word at a time
   * and keeps `vIndex - 1` of each; the texture and normal fields are dropped.
   */
  method ReadPositionRefs(payload: string) returns (vIndices: seq<UInt32>)
    ensures vIndices == PositionRefs(Tokens(payload))
  {
    vIndices := [];
    var rest := SkipSpace(payload);
    while rest != []
      invariant rest == [] || !IsSpace(rest[0])
      invariant vIndices + PositionRefs(Tokens(rest)) == PositionRefs(Tokens(payload))
      decreases |rest|
    {
      var n := WordLength(rest);
      var vertexData := rest[..n];
      var next := SkipSpace(rest[n..]);
      ReadOneReference(rest);
      AppendAssoc(vIndices, [PositionRef(vertexData)], PositionRefs(Tokens(next)));
      vIndices := vIndices + [PositionRef(vertexData)];
      rest := next;
    }
    assert vIndices + [] == vIndices;
  }

  class Model {
    var vertices: seq<Vec3>
    var texCoords: seq<Vec2>
    var normals: seq<Vec3>
    var indices: seq<UInt32>

    /** The current value of the four pools. */
    function Contents(): Pools
      reads this
    {
      Pools(vertices, texCoords, normals, indices)
    }

    /** `Model::Model()`: all four vectors start empty. */
    constructor ()
      ensures Contents() == EmptyPools
    {
      vertices, texCoords, normals, indices := [], [], [], [];
    }

    /** `parseVertex`: one position, read from the text after the "v " tag. */
    method ParseVertex(line: string)
      requires |line| >= 2
      modifies this
      ensures vertices == old(vertices) + [Vec3From(line[2..])]
      ensures texCoords == old(texCoords) && normals == old(normals) && indices == old(indices)
    {
      vertices := vertices + [Vec3From(line[2..])];
    }

    /** `parseTexCoord`: one texture coordinate, read from the text after the "vt " tag. */
    method ParseTexCoord(line: string)
      requires |line| >= 3
      modifies this
      ensures texCoords == old(texCoords) + [Vec2From(line[3..])]
      ensures vertices == old(vertices) && normals == old(normals) && indices == old(indices)
    {
      texCoords := texCoords + [Vec2From(line[3..])];
    }

    /** `parseNormal`: one normal, read from the text after the "vn " tag. */
    method ParseNormal(line: string)
      requires |line| >= 3
      modifies this
      ensures normals == old(normals) + [Vec3From(line[3..])]
      ensures vertices == old(vertices) && texCoords == old(texCoords) && indices == old(indices)
    {
      normals := normals + [Vec3From(line[3..])];
    }

    /**
     * `parseFace`: reads the references after the "f " tag and appends the triangle,
     * the quad split or the fan of their position indices to `indices`.
     */
    method ParseFace(line: string)
      requires |line| >= 2
      modifies this
      ensures indices == old(indices) + FaceIndices(line[2..])
      ensures vertices == old(vertices) && texCoords == old(texCoords) && normals == old(normals)
    {
      var vIndices := ReadPositionRefs(line[2..]);
      AppendTriangles(vIndices);
    }

    /**
     * The second half of parseFace: 3 references are appended as they are, 4 as two
     * triangles, more than 4 as a fan from the first; fewer than 3 append nothing.
     */
    method AppendTriangles(vIndices: seq<UInt32>)
      modifies this
      ensures indices == old(indices) + Triangulate(vIndices)
      ensures vertices == old(vertices) && texCoords == old(texCoords) && normals == old(normals)
    {
      var count := |vIndices|;
      if count == 3 {
        indices := indices + [vIndices[0], vIndices[1], vIndices[2]];
      } else if count == 4 {
        indices := indices + [vIndices[0], vIndices[1], vIndices[2]];
        indices := indices + [vIndices[0], vIndices[2], vIndices[3]];
        assert indices == old(indices) + Triangulate(vIndices);
      } else if count > 4 {
        for i := 1 to count - 1
          invariant vertices == old(vertices) && texCoords == old(texCoords) && normals == old(normals)
          invariant indices + FanFrom(vIndices, i) == old(indices) + FanFrom(vIndices, 1)
        {
          var triangle := [vIndices[0], vIndices[i], vIndices[i + 1]];
          AppendAssoc(indices, triangle, FanFrom(vIndices, i + 1));
          indices := indices + triangle;
        }
      }
    }

    /**
     * `loadOBJ`: `None` stands for a file that cannot be opened, which returns false and
     * changes nothing. Otherwise every line goes to the parser its tag selects, on top of
     * whatever the pools already hold, and the result is true.
     */
    method LoadOBJ(file: Option<seq<string>>) returns (ok: bool)
      modifies this
      ensures ok <==> file.Some?
      ensures file.None? ==> Contents() == old(Contents())
      ensures file.Some? ==> Contents() == LoadLines(old(Contents()), file.value)
    {
      if file.None? {
        return false;
      }
      var lines := file.value;
      var i := 0;
      while i < |lines|
        invariant 0 <= i <= |lines|
        invariant Contents() == LoadLines(old(Contents()), lines[..i])
      {
        var line := lines[i];
        assert lines[..i + 1][..i] == lines[..i];
        match Classify(line) {
          case VertexLine => ParseVertex(line);
          case TexCoordLine => ParseTexCoord(line);
          case NormalLine => ParseNormal(line);
          case FaceLine => ParseFace(line);
          case Ignored =>
        }
        i := i + 1;
      }
      assert lines[..|lines|] == lines;
      return true;
    }
  }
}
