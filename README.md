# flatpack core, modelled in Dafny

flatpack turns an ASCII STL mesh into SVG polygons. It reads the faces of the
mesh from STL text. It normalises the mesh into a cube of side `s`, rotates each
face towards the viewer, and prints one polygon per face. This project models
two parts of it:

- **The geometry kernel** (`geometry.dfy`, module `Geometry`). It holds the
  vector `V3`, the face `F` and the rotation `R`. It has the operations `Add`,
  `Subtract`, `Dot`, `Cross` and `Scale`, Rodrigues' rotation `Rotate`, and the
  face rotation `RotateFace`. Coordinates are exact reals.
- **The normalisation** (`normalize.dfy`, module `Normalizer`). `Normalize`
  runs as the source does:
  - a nested loop folds every corner into six running minima and maxima;
  - a second loop fills the output sequence face by face.

  The loops are the methods `BoundingBox` and `Rescale`, and `Normalize` calls
  both. The methods are proved against the specification functions `Lowest`,
  `Highest`, `MaxRange` and `Normalized`. The lemmas prove the promised bounds:
  - every output coordinate lies in `[0, s]`;
  - on every axis some output corner sits at 0;
  - on some axis some corner reaches `s`;
  - normalising the result again with the same `s` changes nothing.
- **The STL reader** (`stl.dfy`, module `Stl`). It models `readVertex`,
  `readVertexFromScanner`, `readFace` and the scan loop of `main`.
  - The reader works over a `Scanner` class, which is a cursor over the lines
    of the file, as `bufio.Scanner` is.
  - Three methods mirror the source: `ReadVertexFromScanner`, `ReadFace` and
    `ReadMesh`.
  - Each is proved equal to a pure reading function: `VertexLine`, `FacetOf` or
    `MeshOf`.
  - Lemmas about those functions give:
    - an independent line-by-line description of an accepted face;
    - streaming composition;
    - skipped lines;
    - abort on a malformed face;
    - a round trip through `FacetText` and `MeshText`, a small STL writer that exists only in the model (flatpack has none). The round trip assumes only that each number actually written comes out as one token that `parse` reads back as that number (`WritesBack`).
  - `strconv.ParseFloat` is the parameter `parse: string -> Option<real>`.
  - A `panic` is a `Fail` result; its `Error` names the panic, and `Message`
    gives the exact text. The texts of the panics `readFace` can raise are
    pairwise distinct, so the text alone tells which check failed.

ASCII STL files conventionally indent `outer loop`, `vertex`, `endloop` and
`endfacet` under `facet normal`. The code in
`src/main.go` does not trim lines: it compares `outer loop`, `endloop` and
`endfacet` exactly, and it tests the prefixes `facet normal` and `vertex `
from the first character. The model follows the code.
- `IndentedOuterLoopRejected`: an indented `outer loop` line aborts the read.
- `IndentedHeaderSkipped`: an indented `facet normal` line is skipped.

## Model

| member | source | states |
|---|---|---|
| Geometry.Scale | src/geometry/geometry.go:28-34 | no contract: the formula of the source, each coordinate times s |
| Geometry.Add | src/geometry/geometry.go:89-95 | no contract: the formula of the source, coordinate-wise sum |
| Geometry.Subtract | src/geometry/geometry.go:97-103 | no contract: the formula of the source, coordinate-wise difference |
| Geometry.Dot | src/geometry/geometry.go:105-107 | no contract: the formula of the source; its laws are the Dot lemmas below |
| Geometry.Cross | src/geometry/geometry.go:109-115 | no contract: the formula of the source; its laws are the Cross lemmas below |
| Geometry.Rotate | src/geometry/geometry.go:44-54 | no contract: Rodrigues' formula as the source writes it, with cos and sin passed in; its laws are the Rotate lemmas below |
| Geometry.RotateFace | src/geometry/geometry.go:67-76 | the new face's normal is the rotated normal and corner i is the rotated corner i, for each of the three corners |
| Geometry.SubtractSelf | src/geometry/geometry.go:97-103 | subtracting a vector from itself gives the zero vector |
| Geometry.AddSelfIsDoubling | src/geometry/geometry.go:89-95 | adding a vector to itself equals scaling it by 2 |
| Geometry.AddSubtractInverse | src/geometry/geometry.go:89-103 | Subtract undoes Add and Add undoes Subtract |
| Geometry.DotSelfIsSquaredLength | src/geometry/geometry.go:105-107 | Dot(v, v) is x*x + y*y + z*z and is never negative |
| Geometry.DotExample | src/geometry/geometry_test.go:74-80 | Dot((1,2,3),(1,2,3)) = 14 |
| Geometry.DotSymmetric | src/geometry/geometry.go:105-107 | Dot is symmetric |
| Geometry.CrossSelf | src/geometry/geometry_test.go:82-88 | the cross product of a vector with itself is zero |
| Geometry.CrossOrthogonal | src/geometry/geometry.go:109-115 | Cross(a, b) is orthogonal to a and to b |
| Geometry.CrossAnticommutes | src/geometry/geometry.go:109-115 | Cross(b, a) = -Cross(a, b) |
| Geometry.ScaleSquaredLength | src/geometry/geometry.go:28-34 | scaling by s multiplies the squared length by s*s, the exact form of the length test |
| Geometry.RotateByZeroIsIdentity | src/geometry/geometry.go:44-54 | a rotation with cosine 1 and sine 0 leaves every vector in place |
| Geometry.RotateFixesAxis | src/geometry/geometry.go:44-54 | a rotation about a unit axis leaves the axis in place |
| Geometry.RotateHalfTurnAboutZ | src/geometry/geometry_test.go:38-50 | a half turn about z sends (x, y, 0) to (-x, -y, 0), so (1,0,0) goes to (-1,0,0) |
| Geometry.RotateQuarterTurnAboutZ | src/geometry/geometry.go:44-54 | a quarter turn about z sends (x, y, 0) to (-y, x, 0) |
| Geometry.RotateFaceByZeroIsIdentity | src/geometry/geometry.go:67-76 | rotating a face by angle 0 gives the same face |
| Normalizer.Min | src/geometry/geometry.go:134-136 | no contract: math.Min on two reals |
| Normalizer.Max | src/geometry/geometry.go:134-136 | no contract: math.Max on two reals, also used for maxRange at line 141 |
| Normalizer.Minimums | src/geometry/geometry.go:142 | no contract: the vector of the three minima; MinimumsCoord states its coordinates |
| Normalizer.Range | src/geometry/geometry.go:140 | no contract: maximum minus minimum on one axis (xRange, yRange, zRange) |
| Normalizer.MaxRange | src/geometry/geometry.go:141 | no contract: the largest of the three ranges |
| Normalizer.NormalizedFace | src/geometry/geometry.go:145-152 | no contract: one output face, normal copied and corners moved and scaled; RescaledCorner states a coordinate of it |
| Normalizer.Rescaled | src/geometry/geometry.go:144-153 | no contract: NormalizedFace applied to every face in order |
| Normalizer.Lowest | src/geometry/geometry.go:129-138 | the minimum on an axis is at most every corner coordinate and is the coordinate of some corner |
| Normalizer.Highest | src/geometry/geometry.go:129-138 | the maximum on an axis is at least every corner coordinate and is the coordinate of some corner |
| Normalizer.Normalized | src/geometry/geometry.go:126-155 | the result has as many faces as the input and face i keeps the normal of input face i |
| Normalizer.TracksStep | src/geometry/geometry.go:132-137 | one Min/Max step keeps the running minimum and maximum exact over the corners seen so far |
| Normalizer.TracksNextFace | src/geometry/geometry.go:132-138 | after three corners of face i the running values cover face i |
| Normalizer.TracksAll | src/geometry/geometry.go:132-138 | after the last face the running minimum and maximum are Lowest and Highest |
| Normalizer.LowestUnique | src/geometry/geometry.go:129-138 | an attained lower bound is the minimum |
| Normalizer.HighestUnique | src/geometry/geometry.go:129-138 | an attained upper bound is the maximum |
| Normalizer.BoundingBox | src/geometry/geometry.go:129-138 | the six accumulators end as the least and greatest coordinate on each axis |
| Normalizer.Rescale | src/geometry/geometry.go:144-153 | output face i is input face i translated by the minimums and scaled by s / maxRange, normal copied |
| Normalizer.Normalize | src/geometry/geometry.go:126-156 | the result is the translated and scaled mesh Normalized(o, s) |
| Normalizer.RescaledWithinCube | src/geometry/geometry.go:144-153 | when every corner lies in the box [m, m + M] the rescaled corners lie in [0, s] |
| Normalizer.RescaledCornerWithin | src/geometry/geometry.go:148-150 | one corner inside the box lands in [0, s] |
| Normalizer.RescaledCornerAtMinimum | src/geometry/geometry.go:148-150 | a corner at the box minimum lands at 0 |
| Normalizer.RescaledCornerAtSide | src/geometry/geometry.go:148-150 | a corner at the far side of the widest range lands at s |
| Normalizer.RescaledCornerAtProduct | src/geometry/geometry.go:148-150 | the same, for a scale factor k with M * k = s |
| Normalizer.RescaledCorner | src/geometry/geometry.go:148-150 | a rescaled coordinate is (coordinate - minimum) * k |
| Normalizer.NormalizedWithinCube | src/geometry/geometry.go:140-153 | for maxRange > 0 and s >= 0 every output coordinate lies in [0, s] |
| Normalizer.NormalizedTouchesOrigin | src/geometry/geometry.go:129-150 | on each axis some output corner has coordinate 0 |
| Normalizer.NormalizedReachesSide | src/geometry/geometry.go:140-150 | on some axis some output corner has coordinate s |
| Normalizer.NormalizedIdempotent | src/geometry/geometry.go:126-156 | for maxRange > 0 and s > 0 the normalised mesh has maxRange exactly s, and normalising it again with s returns it unchanged |
| Normalizer.NormalizedFixed | src/geometry/geometry.go:140-153 | a mesh whose box minimum is the origin and whose maxRange is s > 0 is its own normalisation with s |
| Normalizer.NormalizedMaxRange | src/geometry/geometry.go:140-153 | after normalising with s >= 0 the largest extent is exactly s |
| Normalizer.NormalizedRangeAtMost | src/geometry/geometry.go:140-153 | after normalising, the extent along each axis is at most s |
| Normalizer.NormalizedWidestAxis | src/geometry/geometry.go:140-153 | after normalising, some axis has extent exactly s |
| Normalizer.MaxRangeReached | src/geometry/geometry.go:140-141 | three extents at most s, one of them equal to s, give maxRange s |
| Normalizer.NormalizedMinimums | src/geometry/geometry.go:129-150 | after normalising, the box minimum is the origin |
| Normalizer.NormalizedLowest | src/geometry/geometry.go:129-150 | after normalising, the least coordinate on each axis is 0 |
| Normalizer.RescaledByOne | src/geometry/geometry.go:144-153 | moving by the zero vector and scaling by 1 gives every face back unchanged |
| Normalizer.MinimumsCoord | src/geometry/geometry.go:142 | the minimums vector holds the least coordinate of each axis |
| Normalizer.CornerCoord | src/geometry/geometry.go:148-150 | a coordinate of Subtract(v, m).Scale(k) is (v - m) * k on that axis |
| Stl.Message | src/main.go:58 | no contract: the exact panic texts of src/main.go lines 58, 66, 69, 80 and 87-100; MessageIdentifiesPanic states what they tell apart |
| Stl.MessageIdentifiesPanic | src/main.go:54-104 | two panics that readFace can raise and that print the same text are the same panic |
| Stl.FacetOfRaises | src/main.go:54-76 | every error of readFace is one of those panics: a missing vertex is named v0, v1 or v2 |
| Stl.LoopOfRaises | src/main.go:57-70 | the same for the six lines after the header |
| Stl.VertexLineNames | src/main.go:78-81 | a missing vertex is reported under the name it was read for |
| Stl.IsHeader | src/main.go:29 | no contract: the `facet normal` prefix test of the source |
| Stl.Fields | src/main.go:82 | every field is non-empty and free of spaces, and a line starting with a non-space begins with its first token |
| Stl.FieldsOfJoin | src/main.go:82 | splitting tokens joined by single spaces gives the tokens back |
| Stl.FacetHeaderFields | src/main.go:55 | a line starting with `facet normal` has at least two fields, so the slice from index 2 never panics |
| Stl.ReadVertex | src/main.go:85-104 | succeeds exactly when there are three fields that all parse, giving (x, y, z) in order; a wrong count is "invalid vertex" |
| Stl.VertexLine | src/main.go:78-83 | succeeds only on a line starting with `vertex ` that has four fields; no line left is "missing" + the vertex name |
| Stl.FacetOf | src/main.go:54-76 | a face is read only if at least six lines follow the header |
| Stl.LoopOf | src/main.go:57-75 | a face is read only from six lines and keeps the normal read before |
| Stl.EndOf | src/main.go:65-70 | the face is closed exactly when lines 5 and 6 are `endloop` and `endfacet` |
| Stl.FacetOfAccepts | src/main.go:54-76 | readFace succeeds exactly on a well-formed facet: three numbers after `facet normal`, `outer loop`, three vertex lines with three numbers, `endloop`, `endfacet` |
| Stl.LoopAccepts | src/main.go:57-70 | the six lines after the header are accepted exactly when they are well formed |
| Stl.NormalAccepts | src/main.go:55 | the normal is read exactly when the header has three numeric fields after `facet normal`, in order |
| Stl.FacetOfValue | src/main.go:54-76 | the face's normal is the header's numbers and its corners are the three vertex lines in file order |
| Stl.VertexLineAccepts | src/main.go:78-83 | a vertex is read exactly from a vertex line, with its three numbers in order |
| Stl.FacetOfLocal | src/main.go:57-70 | only the six lines after the header decide the face |
| Stl.TruncatedFacetFails | src/main.go:57-70 | running out of lines anywhere inside a face is a failure |
| Stl.VertexLineHead | src/main.go:78-83 | reading a vertex looks at one line only |
| Stl.IndentedOuterLoopRejected | src/main.go:57-59 | an indented `outer loop` line fails with "missing outer loop" |
| Stl.MeshOf | src/main.go:27-33 | a clean read of n faces uses at least 7n lines |
| Stl.Prepend | src/main.go:31 | the collected faces come first, then the faces of the rest; a failure stays the failure |
| Stl.MeshOfHeader | src/main.go:29-31 | at a header the read is the face from the next six lines followed by the rest, or that face's error |
| Stl.MeshOfAppend | src/main.go:27-33 | after a cleanly read prefix the rest reads on its own and its faces follow the prefix's |
| Stl.MeshOfAppendAtHeader | src/main.go:29-31 | the same, when the prefix starts with a header |
| Stl.NoHeaderNoFaces | src/main.go:27-33 | lines with no `facet normal` header give no faces |
| Stl.SkippedLinesChangeNothing | src/main.go:29 | non-header lines in front of a file change nothing |
| Stl.IndentedHeaderSkipped | src/main.go:29 | an indented `facet normal` line is skipped |
| Stl.MalformedFacetAborts | src/main.go:27-33 | one malformed face after a clean prefix makes the whole read fail with that face's error |
| Stl.VertexTextReads | src/main.go:78-83 | a written vertex line reads back as the vertex, when its three coordinates write back |
| Stl.NormalTextReads | src/main.go:55 | a written header is a header and its normal reads back, when its three coordinates write back |
| Stl.FacetOfText | src/main.go:54-76 | the seven written lines of a face read back as that face, when its twelve numbers write back |
| Stl.CornerTextReads | src/main.go:61-63 | the written line of corner j reads back as corner j |
| Stl.LoopOfLines | src/main.go:57-75 | six lines that each read correctly give the face |
| Stl.FacetTextReads | src/main.go:27-33 | the whole read of one written face is that face, when its numbers write back |
| Stl.MeshTextReads | src/main.go:27-33 | reading written faces gives them back in order, when every face's numbers write back |
| Stl.SolidRoundTrip | src/main.go:24-33 | the same between `solid` and `endsolid` lines |
| Stl.SolidLinesSkipped | src/main.go:29 | `solid` and `endsolid` lines around a clean read change nothing |
| Stl.Scanner.constructor | src/main.go:24 | a fresh scanner is at the first line |
| Stl.Scanner.Text | src/main.go:28 | no contract: the line the last Scan produced (s.Text()) |
| Stl.Scanner.Scan | src/main.go:27 | moves to the next line and returns true, or returns false at the end with an empty token |
| Stl.ReadVertexFromScanner | src/main.go:78-83 | scans one line and returns what VertexLine reads from it |
| Stl.ReadFace | src/main.go:54-76 | returns what FacetOf reads after the header; on success exactly six lines are consumed |
| Stl.ReadMesh | src/main.go:24-33 | scanning the whole file returns MeshOf of its lines |

## Left out

- `V3.Len`, `V3.Unit` and `RotationBetween` need `math.Sqrt`, `math.Pow` and `math.Acos` on float64. Their tests compare exact floating-point results, which a real-number model cannot reproduce.
- Geometry.Rotate: `math.Cos` and `math.Sin` are outside the model. The caller passes `cosQ` and `sinQ` as parameters, and nothing ties them to the angle `q`.
- Geometry.Rotate: that the rotation preserves lengths and is linear is not proved.
- The `String()` methods and JSON marshalling are calls into `encoding/json`.
- float64 rounding, NaN and infinities are not modelled; all arithmetic is exact.
- Normalizer.BoundingBox: it seeds the running minima and maxima with the first corner instead of the `±Inf` seeds, because `±Inf` are not reals. On a non-empty mesh both give the same result. On an empty mesh the six values are unspecified and unused.
- Normalizer.Normalize: requires `maxRange > 0` for a non-empty mesh. The source divides by zero there and produces non-finite coordinates.
- Normalizer.Normalize: the source's single function is split into two loop methods, `BoundingBox` and `Rescale`, plus the code between them.
- Faces are values here, not pointers. Aliasing between input and output faces is not modelled. The input cannot change, and the copied normal is a fresh value.
- Stl: `strconv.ParseFloat` is the parameter `parse`. Which strings it accepts, and how it rounds, is not modelled.
- Stl.Scanner: the file arrives already split into lines. `bufio.ScanLines` splitting (including dropping `\r`), its 64 KiB token limit, and the `s.Err()` check at `src/main.go:35-37` are not modelled.
- Stl.Fields: strings are sequences of Unicode characters. Go's UTF-8 decoding of invalid bytes is not modelled.
- The command-line and file plumbing of `main` is not modelled: the `os.Args` check, `os.Open("simple.stl")` and `defer file.Close()` (`src/main.go:14-22`).
- Also not modelled from `main`: the per-face rotation loop, whose result is never used, and the call into `writeMarkup` (`src/main.go:39-51`).
- `writeMarkup` is SVG output through `fmt` with `%.5f` formatting (`src/main.go:106-122`).
