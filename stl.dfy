/** The ASCII STL reader of flatpack (main.go): a line-oriented recogniser with
    fixed keywords. Each `facet normal` line begins a face of exactly six more
    lines; every other line is skipped, and any malformed face aborts the whole
    run. The file arrives already split into lines; strconv.ParseFloat is the
    parameter `parse`, and a panic is a `Fail` result carrying the reason. */
module Stl {
  import opened Geometry

  datatype Option<T> = None | Some(value: T)

  /** Why the reader panics, one constructor per panic in main.go. */
  datatype Error =
    | InvalidVertex
    | InvalidVertexX
    | InvalidVertexY
    | InvalidVertexZ
    | MissingOuterLoop
    | MissingVertex(name: string)
    | MissingEndloop
    | MissingEndfacet

  /** The text each panic prints. */
  function Message(e: Error): string
  {
    match e
    case InvalidVertex => "invalid vertex"
    case InvalidVertexX => "invalid vertex X"
    case InvalidVertexY => "invalid vertex Y"
    case InvalidVertexZ => "invalid vertex Z"
    case MissingOuterLoop => "invalid facet: missing outer loop"
    case MissingVertex(name) => "invalid facet: missing " + name
    case MissingEndloop => "invalid facet: missing endloop"
    case MissingEndfacet => "invalid facet: missing endfacet"
  }

  /** The errors readFace can raise: readVertexFromScanner is only ever
      called with the names v0, v1 and v2. */
  predicate Raised(e: Error)
  {
    e.MissingVertex? ==> e.name in ["v0", "v1", "v2"]
  }

  /** Distinct panics print distinct texts, so the text alone tells which
      check of the reader failed. */
  lemma MessageIdentifiesPanic(e1: Error, e2: Error)
    requires Raised(e1) && Raised(e2) && Message(e1) == Message(e2)
    ensures e1 == e2
  {
    // The lengths 14, 16, 25, 30, 31 and 33 tell the kinds of panic apart;
    // among texts of one length, the last character does.
    var m := Message(e1);
    assert |m| == |Message(e2)| && m[|m| - 1] == Message(e2)[|m| - 1];
  }

  datatype Result<T> = Ok(value: T) | Fail(error: Error) {
    predicate IsFailure() {
      Fail?
    }

    function PropagateFailure<U>(): Result<U>
      requires Fail?
    {
      Fail(error)
    }

    function Extract(): T
      requires Ok?
    {
      value
    }
  }

  // ----- Splitting a line into fields (strings.Fields) -----

  /** unicode.IsSpace: the Latin-1 spaces and the Unicode White_Space set. */
  predicate IsSpace(c: char)
  {
    c == '\t' || c == '\n' || c == '\U{000B}' || c == '\U{000C}' || c == '\r' || c == ' '
    || c == '\U{0085}' || c == '\U{00A0}' || c == '\U{1680}'
    || ('\U{2000}' <= c <= '\U{200A}')
    || c == '\U{2028}' || c == '\U{2029}' || c == '\U{202F}' || c == '\U{205F}' || c == '\U{3000}'
  }

  predicate NoSpace(t: string)
  {
    forall i :: 0 <= i < |t| ==> !IsSpace(t[i])
  }

  /** The number of characters before the first space of s. */
  function TokenLength(s: string): (n: nat)
    ensures n <= |s|
    ensures NoSpace(s[..n])
    ensures n < |s| ==> IsSpace(s[n])
  {
    if s == [] || IsSpace(s[0]) then 0 else 1 + TokenLength(s[1..])
  }

  /** strings.Fields: the maximal runs of non-space characters of s, in order. */
  function Fields(s: string): (r: seq<string>)
    ensures forall i :: 0 <= i < |r| ==> r[i] != [] && NoSpace(r[i])
    ensures s != [] && !IsSpace(s[0]) ==> r != [] && r[0] == s[..TokenLength(s)]
    decreases |s|
  {
    if s == [] then []
    else if IsSpace(s[0]) then Fields(s[1..])
    else
      var n := TokenLength(s);
      [s[..n]] + Fields(s[n..])
  }

  /** The tokens ts written out with one space between neighbours. */
  function Join(ts: seq<string>): string
  {
    if |ts| == 0 then ""
    else if |ts| == 1 then ts[0]
    else ts[0] + " " + Join(ts[1..])
  }

  lemma {:induction false} TokenLengthOfToken(t: string, rest: string)
    requires NoSpace(t)
    requires rest == [] || IsSpace(rest[0])
    ensures TokenLength(t + rest) == |t|
    decreases |t|
  {
    if t == [] {
      assert t + rest == rest;
    } else {
      assert (t + rest)[0] == t[0];
      assert (t + rest)[1..] == t[1..] + rest;
      TokenLengthOfToken(t[1..], rest);
    }
  }

  /** A token followed by a space (or by nothing) is the first field. */
  lemma FieldsOfToken(t: string, rest: string)
    requires t != [] && NoSpace(t)
    requires rest == [] || IsSpace(rest[0])
    ensures Fields(t + rest) == [t] + Fields(rest)
  {
    TokenLengthOfToken(t, rest);
    assert (t + rest)[0] == t[0];
    assert (t + rest)[..|t|] == t;
    assert (t + rest)[|t|..] == rest;
  }

  /** Fields undoes Join on tokens that are non-empty and free of spaces. */
  lemma {:induction false} FieldsOfJoin(ts: seq<string>)
    requires forall i :: 0 <= i < |ts| ==> ts[i] != [] && NoSpace(ts[i])
    ensures Fields(Join(ts)) == ts
    decreases |ts|
  {
    if |ts| == 0 {
    } else if |ts| == 1 {
      FieldsOfToken(ts[0], "");
      assert ts[0] + "" == ts[0];
    } else {
      var tail := Join(ts[1..]);
      assert Join(ts) == ts[0] + (" " + tail);
      FieldsOfToken(ts[0], " " + tail);
      assert (" " + tail)[1..] == tail;
      FieldsOfJoin(ts[1..]);
      assert ts == [ts[0]] + ts[1..];
    }
  }

  /** A line that starts with `facet normal` has at least two fields, so the
      slice Fields(line)[2:] in readFace never panics. */
  lemma FacetHeaderFields(line: string)
    requires "facet normal" <= line
    ensures |Fields(line)| >= 2 && Fields(line)[0] == "facet"
  {
    assert line[..5] == "facet";
    assert line[5] == ' ';
    var n := TokenLength(line);
    assert n == 5;
    assert line[5..][0] == ' ';
    assert line[5..][1..] == line[6..];
    assert line[6..][0] == 'n';
  }

  // ----- Reading one vertex (readVertex, readVertexFromScanner) -----

  /** readVertex: exactly three fields, each of which must parse; the first
      failure in the order count, X, Y, Z names the panic. */
  function ReadVertex(str: seq<string>, parse: string -> Option<real>): (r: Result<V3>)
    ensures r.Ok? <==> |str| == 3 && parse(str[0]).Some? && parse(str[1]).Some? && parse(str[2]).Some?
    ensures r.Ok? ==> r.value == V3(parse(str[0]).value, parse(str[1]).value, parse(str[2]).value)
    ensures |str| != 3 ==> r == Fail(InvalidVertex)
  {
    if |str| != 3 then Fail(InvalidVertex)
    else match parse(str[0])
      case None => Fail(InvalidVertexX)
      case Some(x) =>
        match parse(str[1])
        case None => Fail(InvalidVertexY)
        case Some(y) =>
          match parse(str[2])
          case None => Fail(InvalidVertexZ)
          case Some(z) => Ok(V3(x, y, z))
  }

  /** The vertex that readVertexFromScanner reads from the first of the lines
      rest: the line must start with `vertex `, and the fields after the
      keyword are the coordinates. */
  function VertexLine(rest: seq<string>, name: string, parse: string -> Option<real>): (r: Result<V3>)
    ensures r.Ok? ==> rest != [] && "vertex " <= rest[0] && |Fields(rest[0])| == 4
    ensures rest == [] ==> r == Fail(MissingVertex(name))
  {
    if rest == [] || !("vertex " <= rest[0]) then Fail(MissingVertex(name))
    else
      assert rest[0][0] == 'v';
      ReadVertex(Fields(rest[0])[1..], parse)
  }

  // ----- Reading one face (readFace) -----

  /** The face that readFace reads, given its `facet normal` line and the
      lines that follow it. Only the first six of those lines are read. */
  function FacetOf(rest: seq<string>, normalLine: string, parse: string -> Option<real>): (r: Result<F>)
    requires |Fields(normalLine)| >= 2
    ensures r.Ok? ==> |rest| >= 6
  {
    var n :- ReadVertex(Fields(normalLine)[2..], parse);
    LoopOf(rest, n, parse)
  }

  /** The six lines from `outer loop` to `endfacet` around a face whose
      normal n has been read. */
  function LoopOf(rest: seq<string>, n: V3, parse: string -> Option<real>): (r: Result<F>)
    ensures r.Ok? ==> |rest| >= 6 && r.value.n == n
  {
    if rest == [] || rest[0] != "outer loop" then Fail(MissingOuterLoop)
    else
      var v0 :- VertexLine(rest[1..], "v0", parse);
      var v1 :- VertexLine(rest[2..], "v1", parse);
      var v2 :- VertexLine(rest[3..], "v2", parse);
      EndOf(rest, F(n, [v0, v1, v2]))
  }

  /** The `endloop` and `endfacet` lines that close a face f. */
  function EndOf(rest: seq<string>, f: F): (r: Result<F>)
    ensures r.Ok? <==> |rest| >= 6 && rest[4] == "endloop" && rest[5] == "endfacet"
    ensures r.Ok? ==> r.value == f
  {
    if |rest| < 5 || rest[4] != "endloop" then Fail(MissingEndloop)
    else if |rest| < 6 || rest[5] != "endfacet" then Fail(MissingEndfacet)
    else Ok(f)
  }

  /** A line that readVertexFromScanner accepts, stated on its own. */
  ghost predicate IsVertexLine(line: string, parse: string -> Option<real>)
  {
    var f := Fields(line);
    "vertex " <= line && |f| == 4 && forall k :: 1 <= k < 4 ==> parse(f[k]).Some?
  }

  /** The coordinates of a line for which IsVertexLine holds. */
  ghost function VertexValue(line: string, parse: string -> Option<real>): V3
    requires IsVertexLine(line, parse)
  {
    var f := Fields(line);
    V3(parse(f[1]).value, parse(f[2]).value, parse(f[3]).value)
  }

  /** A well-formed facet, stated line by line: a normal line with three
      numbers after `facet normal`, then the loop of WellFormedLoop. */
  ghost predicate WellFormedFacet(rest: seq<string>, normalLine: string, parse: string -> Option<real>)
    requires |Fields(normalLine)| >= 2
  {
    var f := Fields(normalLine);
    |f| == 5 && (forall k :: 2 <= k < 5 ==> parse(f[k]).Some?) && WellFormedLoop(rest, parse)
  }

  /** `outer loop`, three vertex lines, `endloop` and `endfacet`, each
      keyword compared exactly. */
  ghost predicate WellFormedLoop(rest: seq<string>, parse: string -> Option<real>)
  {
    |rest| >= 6
    && rest[0] == "outer loop"
    && (forall i :: 1 <= i < 4 ==> IsVertexLine(rest[i], parse))
    && rest[4] == "endloop"
    && rest[5] == "endfacet"
  }

  /** readFace succeeds exactly on well-formed facets. */
  lemma FacetOfAccepts(rest: seq<string>, normalLine: string, parse: string -> Option<real>)
    requires |Fields(normalLine)| >= 2
    ensures FacetOf(rest, normalLine, parse).Ok? <==> WellFormedFacet(rest, normalLine, parse)
  {
    NormalAccepts(normalLine, parse);
    match ReadVertex(Fields(normalLine)[2..], parse)
    case Ok(n) => LoopAccepts(rest, n, parse);
    case Fail(_) =>
  }

  lemma LoopAccepts(rest: seq<string>, n: V3, parse: string -> Option<real>)
    ensures LoopOf(rest, n, parse).Ok? <==> WellFormedLoop(rest, parse)
  {
    if |rest| >= 4 {
      VertexLineAccepts(rest[1..], "v0", parse);
      VertexLineAccepts(rest[2..], "v1", parse);
      VertexLineAccepts(rest[3..], "v2", parse);
      assert rest[1..][0] == rest[1] && rest[2..][0] == rest[2] && rest[3..][0] == rest[3];
    } else if |rest| >= 3 {
      VertexLineAccepts(rest[1..], "v0", parse);
      VertexLineAccepts(rest[2..], "v1", parse);
    } else if |rest| >= 2 {
      VertexLineAccepts(rest[1..], "v0", parse);
    }
  }

  /** The face readFace returns: the normal comes from the fields after
      `facet normal`, and the corners are the three vertex lines in file
      order. */
  lemma FacetOfValue(rest: seq<string>, normalLine: string, parse: string -> Option<real>)
    requires |Fields(normalLine)| >= 2
    requires FacetOf(rest, normalLine, parse).Ok?
    ensures var f := Fields(normalLine);
      var face := FacetOf(rest, normalLine, parse).value;
      |f| == 5
      && face.n == V3(parse(f[2]).value, parse(f[3]).value, parse(f[4]).value)
      && IsVertexLine(rest[1], parse) && face.v[0] == VertexValue(rest[1], parse)
      && IsVertexLine(rest[2], parse) && face.v[1] == VertexValue(rest[2], parse)
      && IsVertexLine(rest[3], parse) && face.v[2] == VertexValue(rest[3], parse)
  {
    NormalAccepts(normalLine, parse);
    VertexLineAccepts(rest[1..], "v0", parse);
    VertexLineAccepts(rest[2..], "v1", parse);
    VertexLineAccepts(rest[3..], "v2", parse);
    assert rest[1..][0] == rest[1] && rest[2..][0] == rest[2] && rest[3..][0] == rest[3];
  }

  /** The normal is read from the fields of its line after `facet normal`. */
  lemma NormalAccepts(normalLine: string, parse: string -> Option<real>)
    requires |Fields(normalLine)| >= 2
    ensures var f := Fields(normalLine);
      var r := ReadVertex(f[2..], parse);
      (r.Ok? <==> |f| == 5 && forall k :: 2 <= k < 5 ==> parse(f[k]).Some?)
      && (r.Ok? ==> r.value == V3(parse(f[2]).value, parse(f[3]).value, parse(f[4]).value))
  {
    var f := Fields(normalLine);
    if |f| == 5 {
      assert f[2..][0] == f[2] && f[2..][1] == f[3] && f[2..][2] == f[4];
    }
  }

  /** readVertexFromScanner accepts exactly the vertex lines. */
  lemma VertexLineAccepts(rest: seq<string>, name: string, parse: string -> Option<real>)
    requires rest != []
    ensures VertexLine(rest, name, parse).Ok? <==> IsVertexLine(rest[0], parse)
    ensures VertexLine(rest, name, parse).Ok? ==> VertexLine(rest, name, parse).value == VertexValue(rest[0], parse)
  {
    var f := Fields(rest[0]);
    if "vertex " <= rest[0] {
      assert rest[0][0] == 'v';
      assert |f[1..]| == 3 <==> |f| == 4;
      if |f| == 4 {
        assert f[1..][0] == f[1] && f[1..][1] == f[2] && f[1..][2] == f[3];
      }
    }
  }

  /** Only the six lines after the header decide the face. */
  lemma FacetOfLocal(rest: seq<string>, more: seq<string>, normalLine: string, parse: string -> Option<real>)
    requires |Fields(normalLine)| >= 2
    requires |rest| >= 6
    ensures FacetOf(rest + more, normalLine, parse) == FacetOf(rest, normalLine, parse)
  {
    var both := rest + more;
    assert both[0] == rest[0] && both[4] == rest[4] && both[5] == rest[5];
    VertexLineHead(both[1..], rest[1..], "v0", parse);
    VertexLineHead(both[2..], rest[2..], "v1", parse);
    VertexLineHead(both[3..], rest[3..], "v2", parse);
  }

  /** Every error readFace reports is one the panics of main.go raise, so
      its message names the failed check (MessageIdentifiesPanic). */
  lemma FacetOfRaises(rest: seq<string>, normalLine: string, parse: string -> Option<real>)
    requires |Fields(normalLine)| >= 2
    ensures FacetOf(rest, normalLine, parse).Fail? ==> Raised(FacetOf(rest, normalLine, parse).error)
  {
    var n := ReadVertex(Fields(normalLine)[2..], parse);
    if n.Ok? {
      LoopOfRaises(rest, n.value, parse);
    }
  }

  lemma LoopOfRaises(rest: seq<string>, n: V3, parse: string -> Option<real>)
    ensures LoopOf(rest, n, parse).Fail? ==> Raised(LoopOf(rest, n, parse).error)
  {
    if rest != [] && rest[0] == "outer loop" {
      VertexLineNames(rest[1..], "v0", parse);
      if VertexLine(rest[1..], "v0", parse).Ok? {
        VertexLineNames(rest[2..], "v1", parse);
        if VertexLine(rest[2..], "v1", parse).Ok? {
          VertexLineNames(rest[3..], "v2", parse);
        }
      }
    }
  }

  /** A missing vertex is reported under the name it was read for. */
  lemma VertexLineNames(rest: seq<string>, name: string, parse: string -> Option<real>)
    ensures var r := VertexLine(rest, name, parse);
      r.Fail? && r.error.MissingVertex? ==> r.error.name == name
  {
  }

  /** Running out of lines anywhere inside a face is a failure. */
  lemma TruncatedFacetFails(rest: seq<string>, normalLine: string, parse: string -> Option<real>)
    requires |Fields(normalLine)| >= 2 && |rest| < 6
    ensures FacetOf(rest, normalLine, parse).Fail?
  {
  }

  /** readVertexFromScanner looks at one line only. */
  lemma VertexLineHead(x: seq<string>, y: seq<string>, name: string, parse: string -> Option<real>)
    requires x != [] && y != [] && x[0] == y[0]
    ensures VertexLine(x, name, parse) == VertexLine(y, name, parse)
  {
  }

  /** An indented `outer loop` line is not `outer loop`: the reader rejects
      the face even though its normal is fine. */
  lemma IndentedOuterLoopRejected(rest: seq<string>, normalLine: string, parse: string -> Option<real>)
    requires |Fields(normalLine)| >= 2
    requires ReadVertex(Fields(normalLine)[2..], parse).Ok?
    requires rest != [] && rest[0] != [] && IsSpace(rest[0][0])
    ensures FacetOf(rest, normalLine, parse) == Fail(MissingOuterLoop)
  {
    assert rest[0] != "outer loop" by {
      assert !IsSpace("outer loop"[0]);
    }
  }

  // ----- The whole file (the loop in main) -----

  predicate IsHeader(line: string)
  {
    "facet normal" <= line
  }

  /** The faces main collects from lines: a header line starts a face that
      takes the next six lines, any other line is skipped, and the first
      malformed face is the result. */
  function MeshOf(lines: seq<string>, parse: string -> Option<real>): (r: Result<seq<F>>)
    ensures r.Ok? ==> 7 * |r.value| <= |lines|
    decreases |lines|
  {
    if lines == [] then Ok([])
    else if !IsHeader(lines[0]) then MeshOf(lines[1..], parse)
    else
      FacetHeaderFields(lines[0]);
      var f :- FacetOf(lines[1..], lines[0], parse);
      var rest :- MeshOf(lines[7..], parse);
      Ok([f] + rest)
  }

  /** The faces o collected so far, in front of whatever r yields. */
  function Prepend(o: seq<F>, r: Result<seq<F>>): (p: Result<seq<F>>)
    ensures p.Ok? <==> r.Ok?
    ensures p.Ok? ==> |p.value| == |o| + |r.value| && p.value[..|o|] == o && p.value[|o|..] == r.value
    ensures p.Fail? ==> p.error == r.error
  {
    match r
    case Ok(v) => Ok(o + v)
    case Fail(e) => Fail(e)
  }

  /** A header line makes main read a face from the next six lines and then
      go on after them; a malformed face is the whole result. */
  lemma MeshOfHeader(lines: seq<string>, parse: string -> Option<real>)
    requires lines != [] && IsHeader(lines[0])
    ensures |Fields(lines[0])| >= 2
    ensures var r := FacetOf(lines[1..], lines[0], parse);
      MeshOf(lines, parse) == if r.Fail? then Fail(r.error) else Prepend([r.value], MeshOf(lines[7..], parse))
  {
    FacetHeaderFields(lines[0]);
  }

  lemma PrependAssociates(o1: seq<F>, o2: seq<F>, r: Result<seq<F>>)
    ensures Prepend(o1, Prepend(o2, r)) == Prepend(o1 + o2, r)
  {
    match r
    case Ok(v) => assert o1 + (o2 + v) == (o1 + o2) + v;
    case Fail(_) =>
  }

  /** Reading is streaming: once a prefix reads cleanly, the rest of the file
      is read as if on its own, and its faces come after the prefix's. */
  lemma {:induction false} MeshOfAppend(a: seq<string>, b: seq<string>, fa: seq<F>, parse: string -> Option<real>)
    requires MeshOf(a, parse) == Ok(fa)
    ensures MeshOf(a + b, parse) == Prepend(fa, MeshOf(b, parse))
    decreases |a|, 1
  {
    if a == [] {
      assert a + b == b;
      match MeshOf(b, parse)
      case Ok(v) => assert fa + v == v;
      case Fail(_) =>
    } else if !IsHeader(a[0]) {
      var ab := a + b;
      assert ab[0] == a[0];
      assert ab[1..] == a[1..] + b;
      MeshOfAppend(a[1..], b, fa, parse);
    } else {
      MeshOfAppendAtHeader(a, b, fa, parse);
    }
  }

  lemma {:induction false} MeshOfAppendAtHeader(a: seq<string>, b: seq<string>, fa: seq<F>, parse: string -> Option<real>)
    requires a != [] && IsHeader(a[0])
    requires MeshOf(a, parse) == Ok(fa)
    ensures MeshOf(a + b, parse) == Prepend(fa, MeshOf(b, parse))
    decreases |a|, 0
  {
    var ab := a + b;
    MeshOfHeader(a, parse);
    assert FacetOf(a[1..], a[0], parse).Ok?;
    DropAppend(a, b, 1);
    DropAppend(a, b, 7);
    assert ab[0] == a[0];
    MeshOfHeader(ab, parse);
    FacetOfLocal(a[1..], b, a[0], parse);
    var f := FacetOf(a[1..], a[0], parse).value;
    var tail := MeshOf(a[7..], parse).value;
    assert fa == [f] + tail;
    MeshOfAppend(a[7..], b, tail, parse);
    PrependAssociates([f], tail, MeshOf(b, parse));
  }

  lemma DropAppend(a: seq<string>, b: seq<string>, k: nat)
    requires k <= |a|
    ensures (a + b)[k..] == a[k..] + b
  {
  }

  /** Lines none of which starts with `facet normal` yield no faces. */
  lemma {:induction false} NoHeaderNoFaces(lines: seq<string>, parse: string -> Option<real>)
    requires forall i :: 0 <= i < |lines| ==> !IsHeader(lines[i])
    ensures MeshOf(lines, parse) == Ok([])
    decreases |lines|
  {
    if lines != [] {
      NoHeaderNoFaces(lines[1..], parse);
    }
  }

  /** Lines that are not headers, such as `solid` and `endsolid`, can be put
      in front of a file without changing what it reads as. */
  lemma SkippedLinesChangeNothing(junk: seq<string>, b: seq<string>, parse: string -> Option<real>)
    requires forall i :: 0 <= i < |junk| ==> !IsHeader(junk[i])
    ensures MeshOf(junk + b, parse) == MeshOf(b, parse)
  {
    NoHeaderNoFaces(junk, parse);
    MeshOfAppend(junk, b, [], parse);
    match MeshOf(b, parse)
    case Ok(v) => assert [] + v == v;
    case Fail(_) =>
  }

  /** An indented header is not a header: the line is skipped. */
  lemma IndentedHeaderSkipped(line: string, rest: seq<string>, parse: string -> Option<real>)
    requires line != [] && IsSpace(line[0])
    ensures MeshOf([line] + rest, parse) == MeshOf(rest, parse)
  {
    if IsHeader(line) {
      assert false;
    }
    assert ([line] + rest)[1..] == rest;
  }

  /** One malformed face after a cleanly read prefix aborts the whole read
      with that face's error: none of the prefix's faces survive. */
  lemma MalformedFacetAborts(a: seq<string>, b: seq<string>, fa: seq<F>, parse: string -> Option<real>)
    requires MeshOf(a, parse) == Ok(fa)
    requires b != [] && IsHeader(b[0])
    requires (FacetHeaderFields(b[0]); FacetOf(b[1..], b[0], parse).Fail?)
    ensures (FacetHeaderFields(b[0]); MeshOf(a + b, parse) == Fail(FacetOf(b[1..], b[0], parse).error))
  {
    MeshOfAppend(a, b, fa, parse);
  }

  // ----- Writing STL text, the partner of reading it -----

  /** fmt writes x as one non-empty token that parse reads back as x. Only
      the values actually written need this: no formatting of reals into
      strings can do it for every real. */
  ghost predicate WritesBack(parse: string -> Option<real>, fmt: real -> string, x: real)
  {
    fmt(x) != [] && NoSpace(fmt(x)) && parse(fmt(x)) == Some(x)
  }

  ghost predicate WritesVertex(parse: string -> Option<real>, fmt: real -> string, v: V3)
  {
    WritesBack(parse, fmt, v.x) && WritesBack(parse, fmt, v.y) && WritesBack(parse, fmt, v.z)
  }

  /** The normal and the three corners of f all write back. */
  ghost predicate WritesFace(parse: string -> Option<real>, fmt: real -> string, f: F)
  {
    WritesVertex(parse, fmt, f.n)
    && WritesVertex(parse, fmt, f.v[0]) && WritesVertex(parse, fmt, f.v[1]) && WritesVertex(parse, fmt, f.v[2])
  }

  function VertexText(v: V3, fmt: real -> string): string
  {
    Join(["vertex", fmt(v.x), fmt(v.y), fmt(v.z)])
  }

  function NormalText(n: V3, fmt: real -> string): string
  {
    Join(["facet", "normal", fmt(n.x), fmt(n.y), fmt(n.z)])
  }

  /** The seven lines of one face, as an ASCII STL writer puts them. */
  function FacetText(f: F, fmt: real -> string): seq<string>
  {
    [NormalText(f.n, fmt),
     "outer loop",
     VertexText(f.v[0], fmt),
     VertexText(f.v[1], fmt),
     VertexText(f.v[2], fmt),
     "endloop",
     "endfacet"]
  }

  function MeshText(fs: seq<F>, fmt: real -> string): seq<string>
  {
    if fs == [] then [] else FacetText(fs[0], fmt) + MeshText(fs[1..], fmt)
  }

  lemma VertexTextReads(v: V3, name: string, more: seq<string>, parse: string -> Option<real>, fmt: real -> string)
    requires WritesVertex(parse, fmt, v)
    ensures VertexLine([VertexText(v, fmt)] + more, name, parse) == Ok(v)
  {
    var line := VertexText(v, fmt);
    VertexTextFields(v, parse, fmt);
    assert "vertex " <= line by {
      JoinHead(["vertex", fmt(v.x), fmt(v.y), fmt(v.z)]);
    }
    ReadWrittenVertex(v, parse, fmt);
    assert Fields(line)[1..] == [fmt(v.x), fmt(v.y), fmt(v.z)];
  }

  lemma VertexTextFields(v: V3, parse: string -> Option<real>, fmt: real -> string)
    requires WritesVertex(parse, fmt, v)
    ensures Fields(VertexText(v, fmt)) == ["vertex", fmt(v.x), fmt(v.y), fmt(v.z)]
  {
    assert NoSpace("vertex");
    FieldsOfJoin(["vertex", fmt(v.x), fmt(v.y), fmt(v.z)]);
  }

  lemma NormalTextReads(n: V3, parse: string -> Option<real>, fmt: real -> string)
    requires WritesVertex(parse, fmt, n)
    ensures IsHeader(NormalText(n, fmt))
    ensures |Fields(NormalText(n, fmt))| >= 2
    ensures ReadVertex(Fields(NormalText(n, fmt))[2..], parse) == Ok(n)
  {
    NormalTextFields(n, parse, fmt);
    NormalTextHeader(n, fmt);
    ReadWrittenVertex(n, parse, fmt);
    assert Fields(NormalText(n, fmt))[2..] == [fmt(n.x), fmt(n.y), fmt(n.z)];
  }

  lemma NormalTextFields(n: V3, parse: string -> Option<real>, fmt: real -> string)
    requires WritesVertex(parse, fmt, n)
    ensures Fields(NormalText(n, fmt)) == ["facet", "normal", fmt(n.x), fmt(n.y), fmt(n.z)]
  {
    assert NoSpace("facet") && NoSpace("normal");
    FieldsOfJoin(["facet", "normal", fmt(n.x), fmt(n.y), fmt(n.z)]);
  }

  lemma NormalTextHeader(n: V3, fmt: real -> string)
    ensures IsHeader(NormalText(n, fmt))
  {
    var ts := ["facet", "normal", fmt(n.x), fmt(n.y), fmt(n.z)];
    JoinHead(ts);
    JoinHead(ts[1..]);
    assert ts[1..][1..] == ts[2..];
    HeaderOfText(Join(ts[2..]));
  }

  lemma JoinHead(ts: seq<string>)
    requires |ts| >= 2
    ensures Join(ts) == ts[0] + " " + Join(ts[1..])
  {
  }

  lemma HeaderOfText(rest: string)
    ensures IsHeader("facet" + " " + ("normal" + " " + rest))
  {
    assert ("facet" + " " + ("normal" + " " + rest))[..12] == "facet normal";
  }

  /** The three written coordinates of v read back as v. */
  lemma ReadWrittenVertex(v: V3, parse: string -> Option<real>, fmt: real -> string)
    requires WritesVertex(parse, fmt, v)
    ensures ReadVertex([fmt(v.x), fmt(v.y), fmt(v.z)], parse) == Ok(v)
  {
  }

  lemma FacetOfText(f: F, parse: string -> Option<real>, fmt: real -> string)
    requires WritesFace(parse, fmt, f)
    ensures |Fields(NormalText(f.n, fmt))| >= 2
    ensures FacetOf(FacetText(f, fmt)[1..], NormalText(f.n, fmt), parse) == Ok(f)
  {
    NormalTextReads(f.n, parse, fmt);
    var lines := FacetText(f, fmt);
    var rest := lines[1..];
    CornerTextReads(f, 0, "v0", parse, fmt);
    CornerTextReads(f, 1, "v1", parse, fmt);
    CornerTextReads(f, 2, "v2", parse, fmt);
    assert rest[1..] == lines[2..] && rest[2..] == lines[3..] && rest[3..] == lines[4..];
    LoopOfLines(rest, f, parse);
  }

  /** The line written for corner j, followed by the rest of the face. */
  lemma CornerTextReads(f: F, j: int, name: string, parse: string -> Option<real>, fmt: real -> string)
    requires 0 <= j < 3 && WritesVertex(parse, fmt, f.v[j])
    ensures VertexLine(FacetText(f, fmt)[j + 2..], name, parse) == Ok(f.v[j])
  {
    var lines := FacetText(f, fmt);
    VertexTextReads(f.v[j], name, lines[j + 3..], parse, fmt);
    assert lines[j + 2..] == [VertexText(f.v[j], fmt)] + lines[j + 3..];
  }

  /** The lines of a face, each already known to read correctly. */
  lemma LoopOfLines(rest: seq<string>, f: F, parse: string -> Option<real>)
    requires |rest| == 6 && rest[0] == "outer loop" && rest[4] == "endloop" && rest[5] == "endfacet"
    requires VertexLine(rest[1..], "v0", parse) == Ok(f.v[0])
    requires VertexLine(rest[2..], "v1", parse) == Ok(f.v[1])
    requires VertexLine(rest[3..], "v2", parse) == Ok(f.v[2])
    ensures LoopOf(rest, f.n, parse) == Ok(f)
  {
    assert f.v == [f.v[0], f.v[1], f.v[2]];
  }

  /** A written face reads back as itself. */
  lemma FacetTextReads(f: F, parse: string -> Option<real>, fmt: real -> string)
    requires WritesFace(parse, fmt, f)
    ensures MeshOf(FacetText(f, fmt), parse) == Ok([f])
  {
    var lines := FacetText(f, fmt);
    NormalTextReads(f.n, parse, fmt);
    MeshOfHeader(lines, parse);
    FacetOfText(f, parse, fmt);
    assert lines[7..] == [];
    assert [f] + [] == [f];
  }

  /** Round trip: reading the text written for faces fs, between a `solid`
      and an `endsolid` line, gives back fs in order. */
  lemma {:induction false} MeshTextReads(fs: seq<F>, parse: string -> Option<real>, fmt: real -> string)
    requires forall i :: 0 <= i < |fs| ==> WritesFace(parse, fmt, fs[i])
    ensures MeshOf(MeshText(fs, fmt), parse) == Ok(fs)
    decreases |fs|
  {
    if fs != [] {
      FacetTextReads(fs[0], parse, fmt);
      forall i | 0 <= i < |fs[1..]|
        ensures WritesFace(parse, fmt, fs[1..][i])
      {
        assert fs[1..][i] == fs[i + 1];
      }
      MeshTextReads(fs[1..], parse, fmt);
      MeshOfAppend(FacetText(fs[0], fmt), MeshText(fs[1..], fmt), [fs[0]], parse);
      assert [fs[0]] + fs[1..] == fs;
    }
  }

  lemma SolidRoundTrip(fs: seq<F>, parse: string -> Option<real>, fmt: real -> string)
    requires forall i :: 0 <= i < |fs| ==> WritesFace(parse, fmt, fs[i])
    ensures MeshOf(["solid flatpack"] + MeshText(fs, fmt) + ["endsolid flatpack"], parse) == Ok(fs)
  {
    MeshTextReads(fs, parse, fmt);
    SolidLinesSkipped(MeshText(fs, fmt), fs, parse);
  }

  /** The `solid` and `endsolid` lines around the faces are skipped. */
  lemma SolidLinesSkipped(body: seq<string>, fs: seq<F>, parse: string -> Option<real>)
    requires MeshOf(body, parse) == Ok(fs)
    ensures MeshOf(["solid flatpack"] + body + ["endsolid flatpack"], parse) == Ok(fs)
  {
    assert !IsHeader("solid flatpack") by {
      assert "solid flatpack"[0] != "facet normal"[0];
    }
    assert !IsHeader("endsolid flatpack") by {
      assert "endsolid flatpack"[0] != "facet normal"[0];
    }
    SkippedLinesChangeNothing(["solid flatpack"], body + ["endsolid flatpack"], parse);
    NoHeaderNoFaces(["endsolid flatpack"], parse);
    MeshOfAppend(body, ["endsolid flatpack"], fs, parse);
    assert fs + [] == fs;
    assert ["solid flatpack"] + body + ["endsolid flatpack"] == ["solid flatpack"] + (body + ["endsolid flatpack"]);
  }

  // ----- The reader itself, over a scanner -----

  /** bufio.Scanner over a file already split into lines: pos lines have been
      scanned, and token is the line the last Scan produced. */
  class Scanner {
    const lines: seq<string>
    var pos: nat
    var token: string

    ghost predicate Valid()
      reads this
    {
      pos <= |lines|
    }

    constructor (lines: seq<string>)
      ensures this.lines == lines && pos == 0 && token == [] && Valid()
    {
      this.lines := lines;
      pos := 0;
      token := [];
    }

    /** Advances to the next line; at the end of the file it returns false
        and the token becomes empty. */
    method Scan() returns (more: bool)
      requires Valid()
      modifies this
      ensures Valid()
      ensures more <==> old(pos) < |lines|
      ensures more ==> pos == old(pos) + 1 && token == lines[old(pos)]
      ensures !more ==> pos == old(pos) && token == []
    {
      if pos < |lines| {
        token := lines[pos];
        pos := pos + 1;
        more := true;
      } else {
        token := [];
        more := false;
      }
    }

    function Text(): string
      reads this
    {
      token
    }
  }

  /** readVertexFromScanner: scans one line and reads it as a vertex. */
  method ReadVertexFromScanner(s: Scanner, name: string, parse: string -> Option<real>) returns (r: Result<V3>)
    requires s.Valid()
    modifies s
    ensures s.Valid()
    ensures r == VertexLine(s.lines[old(s.pos)..], name, parse)
    ensures r.Ok? ==> s.pos == old(s.pos) + 1
  {
    ghost var rest := s.lines[s.pos..];
    var more := s.Scan();
    if !more || !("vertex " <= s.Text()) {
      return Fail(MissingVertex(name));
    }
    assert rest[0] == s.Text();
    r := ReadVertex(Fields(s.Text())[1..], parse);
  }

  /** readFace: the normal comes from the header's fields, then six more lines
      are scanned and checked in order. */
  method ReadFace(s: Scanner, normalLine: string, parse: string -> Option<real>) returns (r: Result<F>)
    requires s.Valid() && |Fields(normalLine)| >= 2
    modifies s
    ensures s.Valid()
    ensures r == FacetOf(s.lines[old(s.pos)..], normalLine, parse)
    ensures r.Ok? ==> s.pos == old(s.pos) + 6
  {
    ghost var rest := s.lines[s.pos..];
    ghost var p := s.pos;
    var n :- ReadVertex(Fields(normalLine)[2..], parse);
    var more := s.Scan();
    if !more || s.Text() != "outer loop" {
      return Fail(MissingOuterLoop);
    }
    assert s.lines[s.pos..] == rest[1..];
    var v0 :- ReadVertexFromScanner(s, "v0", parse);
    assert s.lines[s.pos..] == rest[2..];
    var v1 :- ReadVertexFromScanner(s, "v1", parse);
    assert s.lines[s.pos..] == rest[3..];
    var v2 :- ReadVertexFromScanner(s, "v2", parse);
    assert s.pos == p + 4;
    more := s.Scan();
    if !more || s.Text() != "endloop" {
      return Fail(MissingEndloop);
    }
    more := s.Scan();
    if !more || s.Text() != "endfacet" {
      return Fail(MissingEndfacet);
    }
    r := Ok(F(n, [v0, v1, v2]));
  }

  /** The loop in main: scans every line, reads a face at each header and
      appends it, and stops at the first malformed face. */
  method ReadMesh(lines: seq<string>, parse: string -> Option<real>) returns (r: Result<seq<F>>)
    ensures r == MeshOf(lines, parse)
  {
    var s := new Scanner(lines);
    var o: seq<F> := [];
    var more := s.Scan();
    while more
      invariant s.lines == lines && s.Valid()
      invariant more ==> 1 <= s.pos && s.token == lines[s.pos - 1]
      invariant !more ==> s.pos == |lines|
      invariant MeshOf(lines, parse) == Prepend(o, MeshOf(lines[if more then s.pos - 1 else s.pos..], parse))
      decreases |lines| - s.pos, more
    {
      var line := s.Text();
      ghost var here := lines[s.pos - 1..];
      assert here[0] == line && here[1..] == lines[s.pos..];
      if IsHeader(line) {
        MeshOfHeader(here, parse);
        var face := ReadFace(s, line, parse);
        if face.Fail? {
          return Fail(face.error);
        }
        assert here[7..] == lines[s.pos..];
        PrependAssociates(o, [face.value], MeshOf(lines[s.pos..], parse));
        o := o + [face.value];
      }
      more := s.Scan();
    }
    assert o + [] == o;
    r := Ok(o);
  }
}
