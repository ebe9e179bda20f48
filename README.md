# RecognizeBitmap shape classifier and mesh deformation, in Dafny

This project models the original logic of `WpfApp1/MainWindow.xaml.cs`, a WPF window that
(1) reduces a bitmap to contours and labels the first contour it can classify
(triangle, square, rectangle, pentagon, hexagon, octagon, circle, ellipse, or "unknown"),
(2) uses that label to pick one of eight displacement formulas and adds `0.1 * f(x, y)`
to the z of every vertex of a four-vertex quad mesh, and
(3) exports the mesh as XML3D text: positions as one `x y z` token stream, indices
joined by single spaces.

Modules:

- `Wrappers` (wrappers.dfy): `Option`.
- `Geometry` (geometry.dfy): the mesh vertex `Point3`.
- `Shapes` (shapes.dfy): the label datatype and its strings, a contour's features,
  the threshold predicates `IsSquareAspect`, `IsCircle` and `IsEllipse`, the per-contour
  decision `ClassifyContour`, the recursive specification `Classify`, and the
  classification loop `RecognizeDeformationType`, which is proved equal to `Classify`.
- `Deformations` (deformations.dfy): sin, cos and tan as a `Trig` value, the formula
  table `Offset`, ASCII `ToLower`, the switch `SelectDeformation`, and the per-vertex
  specification `Shift`/`Deformed`.
- `Xml3d` (xml3d.dfy): `Join` (string.Join), a space tokenizer `Tokens`, integer
  formatting, and the position and index texts.
- `Window` (window.dfy): the `Mesh` class, which holds a `positions` array and a
  `triangleIndices` sequence. Its constructor `SetupViewport` builds the quad.
  `ApplyFormula` is the copy-rewrite-install loop shared by the eight `Apply*Deformation`
  methods. `ApplyDeformation` is the label switch, and `ExportToXML3D` produces the export
  text. `Run` is the window constructor's start-up sequence.

Each contour is given by the features the vision library would compute for it:
the approximated vertex count, the bounding box of the approximation, the circularity
`area / (pi * radius^2)` and the I3 shape-matching distance to the fitted ellipse.
Trigonometry arrives as the function fields of `Trig`, and real-number formatting as a
parameter `fmt: real -> string`.

The model adds a `Mesh.Valid()` invariant that the code never checks: indices come in
triples, each below the position count. `SetupViewport` establishes it, and every mutating
method preserves it.

## Model

| member | source | states |
|---|---|---|
| `Shapes.ClassifyContour` | WpfApp1/MainWindow.xaml.cs:73-115 | a single contour's decision is never the label "unknown"; None means the search goes on |
| `Shapes.IsSquareAspect` | WpfApp1/MainWindow.xaml.cs:81-84 | the square test 0.95 <= width/height <= 1.05, both bounds inclusive, failing for a zero height; its properties are stated by `FourVertexLabel` and `SquareAspectIntegerForm` |
| `Shapes.IsCircle` | WpfApp1/MainWindow.xaml.cs:121-134 | the circle test abs(1 - circularity) <= 0.2, bound inclusive; `CircleBand` states it accepts exactly [0.8, 1.2] |
| `Shapes.IsEllipse` | WpfApp1/MainWindow.xaml.cs:136-152 | the ellipse test match < 0.2, strict; `ManyVertexOrder` states where it decides |
| `Shapes.Classify` | WpfApp1/MainWindow.xaml.cs:71-118 | the result is "unknown" or the label of some contour of the sequence |
| `Shapes.RecognizeDeformationType` | WpfApp1/MainWindow.xaml.cs:59-119 | the loop with early return yields the name of `Classify(contours)`, the first decisive contour's label or "unknown" |
| `Shapes.FourVertexLabel` | WpfApp1/MainWindow.xaml.cs:79-92 | a 4-vertex approximation always gives a label: square exactly when 0.95 <= width/height <= 1.05 (both inclusive), otherwise rectangle |
| `Shapes.SquareAspectIntegerForm` | WpfApp1/MainWindow.xaml.cs:81-84 | for a positive height the square test is 95·height <= 100·width <= 105·height |
| `Shapes.SquareAndRectangleExamples` | WpfApp1/MainWindow.xaml.cs:79-92 | a 100x100 bounding box gives square, 100x60 gives rectangle |
| `Shapes.UndecidedIff` | WpfApp1/MainWindow.xaml.cs:75-115 | a contour gives no label exactly when it has fewer than 3 vertices, or 7, or more than 8 and fails both curve tests |
| `Shapes.CircleBand` | WpfApp1/MainWindow.xaml.cs:121-134 | the circle test `abs(1 - circularity) <= 0.2` accepts exactly circularity in [0.8, 1.2] |
| `Shapes.ManyVertexOrder` | WpfApp1/MainWindow.xaml.cs:105-115 | above 8 vertices a passing circle test gives circle whatever the ellipse test says; otherwise ellipse when match < 0.2 (strict); otherwise no label |
| `Shapes.ClassifyFirstDecisive` | WpfApp1/MainWindow.xaml.cs:71-116 | if contour i is decisive and all earlier ones are not, the result is contour i's label |
| `Shapes.FirstFixedCountDecides` | WpfApp1/MainWindow.xaml.cs:71-104 | a first decisive contour with 3, 5, 6 or 8 vertices gives triangle, pentagon, hexagon or octagon |
| `Shapes.ClassifyIgnoresLater` | WpfApp1/MainWindow.xaml.cs:71-116 | once the sequence holds a decisive contour, appending further contours never changes the result |
| `Shapes.SkipUndecided` | WpfApp1/MainWindow.xaml.cs:71-116 | a contour without a label (for example 0, 1, 2 or 7 vertices) is passed over: the result is that of the rest |
| `Shapes.ClassifyUnknownIff` | WpfApp1/MainWindow.xaml.cs:59-119 | the result is "unknown" exactly when no contour is decisive, the empty sequence included |
| `Shapes.NamesIdentifyLabels` | WpfApp1/MainWindow.xaml.cs:75-118 | every result is one of the nine label strings, and distinct labels have distinct strings |
| `Deformations.ToLower` | WpfApp1/MainWindow.xaml.cs:157 | lower-casing keeps the length and lower-cases each character in place |
| `Deformations.SelectDeformation` | WpfApp1/MainWindow.xaml.cs:155-187 | the switch on the lower-cased label; `SelectDeformationIff`, `SelectIgnoresCase` and `SelectOfLabel` state what it selects |
| `Deformations.Offset` | WpfApp1/MainWindow.xaml.cs:199-318 | the eight formulas sin(x), cos(x), tan(x), sin(x+y), cos(x+y), tan(x+y), sin(x·y), cos(x·y); `DeformedAt` states how they enter z |
| `Deformations.Shift` | WpfApp1/MainWindow.xaml.cs:196-200 | one vertex rewritten with x, y kept and z + f(x, y)·0.1; stated per vertex by `DeformedAt` |
| `Deformations.Deformed` | WpfApp1/MainWindow.xaml.cs:196-202 | every vertex rewritten in order; `DeformedAt` and `DeformedLength` state its length and contents |
| `Deformations.ToLowerIdempotent` | WpfApp1/MainWindow.xaml.cs:157 | lower-casing twice is lower-casing once |
| `Deformations.SelectIgnoresCase` | WpfApp1/MainWindow.xaml.cs:157 | the dispatch gives the same answer for a string and its lower-cased form |
| `Deformations.SelectDeformationIff` | WpfApp1/MainWindow.xaml.cs:155-187 | a formula is selected exactly when the lower-cased string is the name of that formula's shape |
| `Deformations.ShapeInjective` | WpfApp1/MainWindow.xaml.cs:157-182 | distinct formulas belong to distinct labels, none to "unknown": each label selects at most one formula |
| `Deformations.LabelNamesLowerCase` | WpfApp1/MainWindow.xaml.cs:75-118 | the classifier's strings contain no upper-case letter |
| `Deformations.SelectOfLabel` | WpfApp1/MainWindow.xaml.cs:155-187 | each of the eight classifier labels selects the formula of its own shape; "unknown" selects none |
| `Deformations.DeformedAt` | WpfApp1/MainWindow.xaml.cs:189-323 | a deformation keeps the vertex count and each vertex's x and y, and sets z to z + f(x, y)·0.1 with the selected formula |
| `Deformations.DeformedLength` | WpfApp1/MainWindow.xaml.cs:196-202 | a deformation keeps the number of vertices |
| `Deformations.DeformTwiceAddsTwice` | WpfApp1/MainWindow.xaml.cs:196-200 | deforming twice adds the displacement twice to z and leaves x, y alone |
| `Deformations.DeformNotIdempotent` | WpfApp1/MainWindow.xaml.cs:196-200 | where some vertex has a non-zero displacement, deforming twice differs from deforming once |
| `Xml3d.NatText` | WpfApp1/MainWindow.xaml.cs:350 | a natural number's text is a non-empty string of decimal digits |
| `Xml3d.IntText` | WpfApp1/MainWindow.xaml.cs:350 | an integer's text is a single non-empty space-free token: an optional minus sign, then digits |
| `Xml3d.NatTextValue` | WpfApp1/MainWindow.xaml.cs:350 | reading back the digits of a natural number's text gives the number |
| `Xml3d.IntTextValue` | WpfApp1/MainWindow.xaml.cs:350 | an integer's text starts with a digit exactly when it is non-negative, and reads back as the integer |
| `Xml3d.IntTextInjective` | WpfApp1/MainWindow.xaml.cs:350 | distinct integers have distinct texts |
| `Xml3d.IntTexts` | WpfApp1/MainWindow.xaml.cs:338-350 | the index texts keep the indices' count and stored order |
| `Xml3d.Join` | WpfApp1/MainWindow.xaml.cs:345-350 | string.Join with a separator; `TokensOfJoin` states that splitting a space-joined text gives back its tokens |
| `Xml3d.PositionText` | WpfApp1/MainWindow.xaml.cs:345 | the vertex texts "x y z" joined by spaces; `PositionTextIsTokenStream` and `PositionTokenLayout` state its token layout |
| `Xml3d.IndexText` | WpfApp1/MainWindow.xaml.cs:350 | the index texts joined by spaces; `IndexTokenLayout` states that it reads back as the indices in stored order |
| `Xml3d.PositionTokens` | WpfApp1/MainWindow.xaml.cs:345 | the flat position stream has 3·N tokens |
| `Xml3d.TokensOfJoin` | WpfApp1/MainWindow.xaml.cs:345-350 | joining tokens with single spaces and splitting the text at spaces gives the tokens back |
| `Xml3d.PositionTextIsTokenStream` | WpfApp1/MainWindow.xaml.cs:345 | the joined "x y z" vertex texts are the flat stream x0 y0 z0 x1 ... joined by single spaces |
| `Xml3d.PositionTokensAt` | WpfApp1/MainWindow.xaml.cs:345 | tokens 3k, 3k+1 and 3k+2 of the stream are x, y and z of vertex k |
| `Xml3d.PositionTokenLayout` | WpfApp1/MainWindow.xaml.cs:337-346 | with a space-free number format the position text holds exactly 3·N tokens, x y z of each vertex in vertex order |
| `Xml3d.IndexTokenLayout` | WpfApp1/MainWindow.xaml.cs:348-351 | the index text holds one token per index, in stored order, each reading back as that index |
| `Window.Mesh.SetupViewport` | WpfApp1/MainWindow.xaml.cs:35-52 | the start-up mesh has the four quad positions and the six indices 0 1 2 2 3 0, all below 4, and is valid |
| `Window.Mesh.ApplyFormula` | WpfApp1/MainWindow.xaml.cs:189-323 | an Apply*Deformation installs a fresh position array equal to the deformed old positions; indices are untouched and the mesh stays valid |
| `Window.Mesh.ApplyDeformation` | WpfApp1/MainWindow.xaml.cs:155-187 | a known label (any case) applies its formula without a notice; any other string leaves positions and indices unchanged and yields "Unknown deformation type." |
| `Window.Mesh.ExportToXML3D` | WpfApp1/MainWindow.xaml.cs:325-357 | the position text is the x y z stream of the positions (3·N tokens under a space-free format); the index text splits back into the indices' texts in stored order; for a valid mesh it holds 3·M tokens, each reading back as an index below the position count |
| `Window.QuadStaysValid` | WpfApp1/MainWindow.xaml.cs:40-49 | 4 positions and 6 indices, all below 4, still valid after any deformation |
| `Window.QuadIndexTexts` | WpfApp1/MainWindow.xaml.cs:44-49 | the quad's index tokens are 0 1 2 2 3 0 |
| `Window.SquareOnQuad` | WpfApp1/MainWindow.xaml.cs:206-221 | the square formula on the quad gives z = cos(-1)·0.1, cos(1)·0.1, cos(1)·0.1, cos(-1)·0.1 |
| `Window.Run` | WpfApp1/MainWindow.xaml.cs:23-33 | start-up returns the classification's label, shows the notice exactly for "unknown", exports the quad deformed by the label's formula (or unchanged), with 12 position tokens and index tokens 0 1 2 2 3 0 |

## Left out

- Image loading and processing (`ImRead`, `CvtColor`, `GaussianBlur`, `Canny`, `FindContours`, `ApproxPolyDP`, `ArcLength`, `BoundingRect`, `ContourArea`, `MinEnclosingCircle`, `FitEllipse`, `Ellipse2Poly`, `MatchShapes`) are foreign library calls. Their results enter as the fields of `Contour`.
- The contour hierarchy returned by `FindContours` is never read, so it is not modelled.
- `Math.Sin`, `Math.Cos`, `Math.Tan` and `Math.PI` are floating-point library functions. The model takes them as the uninterpreted functions of `Trig`, or as the already computed circularity.
- Doubles are modelled as exact reals. There is no rounding, NaN or infinity, except that a zero bounding-box height is treated as failing the square test, as an infinite or NaN ratio does.
- `Shapes.IsSquareAspect`: the `(float)` cast is treated as exact division. In the source, a ratio of exactly 0.95 (19x20) rounds to a float just below the double 0.95 and is labelled rectangle, while the model says square.
- `Deformations.ToLower`: only ASCII letters are lower-cased. Culture-dependent and non-ASCII case mappings of `string.ToLower` are not modelled.
- The double-to-string formatting of positions is the parameter `fmt`. The token-count facts assume it never produces an empty or space-containing text.
- The XML element and attribute construction (`XmlDocument`, `OuterXml`) is left out. The model produces only the text content of the position and index elements.
- `File.WriteAllText` is file output and is left out.
- `MessageBox.Show` is UI output. It becomes the returned notice string.
- The WPF window and scene wiring are left out: `InitializeComponent`, `Model3DGroup`, `GeometryModel3D` and the material. The model holds the group's single mesh directly. Looping over `_modelGroup.Children`, which always holds that one mesh, is therefore not modelled.
- The eight `Apply*Deformation` methods are one method, `Window.Mesh.ApplyFormula`, whose formula argument is taken from the `Offset` table.
