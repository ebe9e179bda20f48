/**
 * The window's mesh and the start-up pipeline: the quad built at start-up,
 * the in-place deformation of its positions, the label dispatch and the
 * export text, and the constructor's sequence classify, deform, export.
 */
module Window {
  import opened Wrappers
  import opened Shapes
  import opened Geometry
  import opened Deformations
  import opened Xml3d

  /** The four corners of the start-up quad, in insertion order. */
  function QuadPositions(): seq<Point3> {
    [Point3(-1.0, -1.0, 0.0), Point3(1.0, -1.0, 0.0), Point3(1.0, 1.0, 0.0), Point3(-1.0, 1.0, 0.0)]
  }

  /** Its two triangles, (0, 1, 2) and (2, 3, 0). */
  function QuadIndices(): seq<int> {
    [0, 1, 2, 2, 3, 0]
  }

  /** The mesh geometry: a position buffer and a flat triangle index list. */
  class Mesh {
    var positions: array<Point3>
    var triangleIndices: seq<int>

    /** Indices come in triples and each refers to a position. */
    ghost predicate Valid()
      reads this
    {
      |triangleIndices| % 3 == 0 &&
      forall k :: 0 <= k < |triangleIndices| ==> 0 <= triangleIndices[k] < positions.Length
    }

    /** The scene set-up: a unit quad of four positions and six indices. */
    constructor SetupViewport()
      ensures Valid() && fresh(positions)
      ensures positions[..] == QuadPositions() && triangleIndices == QuadIndices()
    {
      var quad := QuadPositions();
      positions := new Point3[4](i requires 0 <= i < 4 => quad[i]);
      triangleIndices := QuadIndices();
    }

    /**
     * One Apply*Deformation: copy the positions to a fresh array, rewrite
     * every vertex's z with the formula, and install the copy.
     */
    method ApplyFormula(d: Deformation, trig: Trig)
      requires Valid()
      modifies this
      ensures Valid() && fresh(positions)
      ensures positions[..] == Deformed(old(positions[..]), d, trig)
      ensures triangleIndices == old(triangleIndices)
    {
      ghost var before := positions[..];
      var source := positions;
      var n := source.Length;
      var points := new Point3[n](i requires 0 <= i < n reads source => source[i]);
      for i := 0 to n
        invariant positions == source && source[..] == before
        invariant triangleIndices == old(triangleIndices)
        invariant forall k :: 0 <= k < i ==> points[k] == Shift(before[k], d, trig)
        invariant forall k :: i <= k < n ==> points[k] == before[k]
      {
        var point := points[i];
        points[i] := Point3(point.x, point.y, point.z + Offset(d, trig, point.x, point.y) * Amplitude);
      }
      positions := points;
      DeformedLength(before, d, trig);
      forall k | 0 <= k < n
        ensures points[..][k] == Deformed(before, d, trig)[k]
      {
        DeformedAt(before, d, trig, k);
      }
    }

    /**
     * The dispatch on the lower-cased label: a known label applies its
     * formula; any other string changes nothing and yields the notice.
     */
    method ApplyDeformation(deformationType: string, trig: Trig) returns (notice: Option<string>)
      requires Valid()
      modifies this
      ensures Valid() && triangleIndices == old(triangleIndices)
      ensures SelectDeformation(deformationType).Some? ==>
                positions[..] == Deformed(old(positions[..]), SelectDeformation(deformationType).value, trig) &&
                notice == None
      ensures SelectDeformation(deformationType) == None ==>
                positions == old(positions) && positions[..] == old(positions[..]) &&
                notice == Some(UnknownNotice)
    {
      match SelectDeformation(deformationType)
      case Some(d) =>
        ApplyFormula(d, trig);
        notice := None;
      case None =>
        notice := Some(UnknownNotice);
    }

    /** The texts of the position and index elements of the exported document. */
    method ExportToXML3D(fmt: real -> string) returns (positionText: string, indexText: string)
      ensures positionText == PositionText(positions[..], fmt)
      ensures positionText == Join(" ", PositionTokens(positions[..], fmt))
      ensures TokenFormat(fmt) ==>
                Tokens(positionText) == PositionTokens(positions[..], fmt) &&
                |Tokens(positionText)| == 3 * positions.Length
      ensures indexText == Join(" ", IntTexts(triangleIndices))
      ensures Tokens(indexText) == IntTexts(triangleIndices)
      ensures Valid() ==>
                |Tokens(indexText)| % 3 == 0 &&
                forall k :: 0 <= k < |Tokens(indexText)| ==>
                  0 <= SignedValue(Tokens(indexText)[k]) < positions.Length
    {
      positionText := PositionText(positions[..], fmt);
      indexText := IndexText(triangleIndices);
      PositionTextIsTokenStream(positions[..], fmt);
      ghost var tokenFormat := TokenFormat(fmt);
      if tokenFormat {
        PositionTokenLayout(positions[..], fmt);
      }
      IndexTokenLayout(triangleIndices);
    }
  }

  /** Deforming keeps the quad's indices valid: they depend only on the vertex count. */
  lemma QuadStaysValid(d: Deformation, trig: Trig)
    ensures |Deformed(QuadPositions(), d, trig)| == |QuadPositions()| == 4
    ensures |QuadIndices()| == 6
    ensures forall k :: 0 <= k < |QuadIndices()| ==> 0 <= QuadIndices()[k] < |Deformed(QuadPositions(), d, trig)|
  {
    DeformedLength(QuadPositions(), d, trig);
  }

  /** The quad's index text is "0 1 2 2 3 0". */
  lemma QuadIndexTexts()
    ensures IntTexts(QuadIndices()) == ["0", "1", "2", "2", "3", "0"]
  {
  }

  /** The square formula on the quad: each z becomes cos(x) * 0.1. */
  lemma SquareOnQuad(trig: Trig)
    ensures Deformed(QuadPositions(), CosX, trig) ==
              [Point3(-1.0, -1.0, trig.cos(-1.0) * 0.1), Point3(1.0, -1.0, trig.cos(1.0) * 0.1),
               Point3(1.0, 1.0, trig.cos(1.0) * 0.1), Point3(-1.0, 1.0, trig.cos(-1.0) * 0.1)]
  {
    var q := QuadPositions();
    DeformedLength(q, CosX, trig);
    forall k | 0 <= k < 4 ensures Deformed(q, CosX, trig)[k] == Shift(q[k], CosX, trig) {
      DeformedAt(q, CosX, trig, k);
    }
  }

  /**
   * The window's start-up sequence after the image has been reduced to
   * contour features: set up the quad, classify, deform, export.
   */
  method Run(contours: seq<Contour>, trig: Trig, fmt: real -> string)
    returns (deformationType: string, notice: Option<string>, positionText: string, indexText: string)
    ensures deformationType == Classify(contours).Name()
    ensures notice == None <==> Classify(contours) != Unknown
    ensures notice != None ==> notice == Some(UnknownNotice)
    ensures Classify(contours) == Unknown ==> positionText == PositionText(QuadPositions(), fmt)
    ensures Classify(contours) != Unknown ==>
              SelectDeformation(deformationType).Some? &&
              SelectDeformation(deformationType).value.Shape() == Classify(contours) &&
              positionText == PositionText(Deformed(QuadPositions(), SelectDeformation(deformationType).value, trig), fmt)
    ensures TokenFormat(fmt) ==> |Tokens(positionText)| == 12
    ensures Tokens(indexText) == ["0", "1", "2", "2", "3", "0"]
  {
    var mesh := new Mesh.SetupViewport();
    deformationType := RecognizeDeformationType(contours);
    SelectOfLabel(Classify(contours));
    notice := mesh.ApplyDeformation(deformationType, trig);
    ghost var exported := mesh.positions[..];
    assert Classify(contours) == Unknown ==> exported == QuadPositions();
    positionText, indexText := mesh.ExportToXML3D(fmt);
    QuadIndexTexts();
    ghost var deformed := SelectDeformation(deformationType);
    if deformed.Some? {
      DeformedLength(QuadPositions(), deformed.value, trig);
    }
  }
}
