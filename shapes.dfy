/**
 * The shape classifier of MainWindow: a per-contour decision on the features
 * the vision library computes for a contour, and the search over the contour
 * sequence that stops at the first contour giving a label.
 */
module Shapes {
  import opened Wrappers

  /** The nine labels the classifier can return. */
  datatype ShapeLabel =
    | Triangle | Square | Rectangle | Pentagon | Hexagon | Octagon | Circle | Ellipse | Unknown
  {
    /** The string the classifier returns for this label. */
    function Name(): string {
      match this
      case Triangle => "triangle"
      case Square => "square"
      case Rectangle => "rectangle"
      case Pentagon => "pentagon"
      case Hexagon => "hexagon"
      case Octagon => "octagon"
      case Circle => "circle"
      case Ellipse => "ellipse"
      case Unknown => "unknown"
    }
  }

  /**
   * What the classifier learns about one contour from the vision library:
   * the vertex count of its polygon approximation, the bounding box of that
   * approximation, the circularity area / (pi * radius^2) of the contour
   * against its minimum enclosing circle, and the shape-matching distance
   * between the contour and the ellipse fitted to it.
   */
  datatype Contour = Contour(approxLen: nat, width: int, height: int, circularity: real, matchDistance: real)

  const SquareLow: real := 0.95
  const SquareHigh: real := 1.05
  const CircleTolerance: real := 0.2
  const EllipseThreshold: real := 0.2

  function Abs(x: real): real { if x < 0.0 then -x else x }

  /**
   * The aspect-ratio test width / height in [0.95, 1.05]. A zero height
   * gives an infinite or undefined ratio in floating point, which fails
   * both comparisons.
   */
  predicate IsSquareAspect(width: int, height: int) {
    height != 0 && SquareLow <= (width as real) / (height as real) <= SquareHigh
  }

  /** The circle test: |1 - circularity| <= 0.2, bound included. */
  predicate IsCircle(circularity: real) {
    Abs(1.0 - circularity) <= CircleTolerance
  }

  /** The ellipse test: the matching distance is strictly below 0.2. */
  predicate IsEllipse(matchDistance: real) {
    matchDistance < EllipseThreshold
  }

  /** The decision for one contour; None means the search moves on. */
  function ClassifyContour(c: Contour): (r: Option<ShapeLabel>)
    ensures r != Some(Unknown)
  {
    if c.approxLen == 3 then Some(Triangle)
    else if c.approxLen == 4 then
      if IsSquareAspect(c.width, c.height) then Some(Square) else Some(Rectangle)
    else if c.approxLen == 5 then Some(Pentagon)
    else if c.approxLen == 6 then Some(Hexagon)
    else if c.approxLen == 8 then Some(Octagon)
    else if c.approxLen > 8 then
      if IsCircle(c.circularity) then Some(Circle)
      else if IsEllipse(c.matchDistance) then Some(Ellipse)
      else None
    else None
  }

  predicate Decisive(c: Contour) { ClassifyContour(c).Some? }

  /** The label of the first decisive contour, or Unknown when there is none. */
  function Classify(cs: seq<Contour>): (r: ShapeLabel)
    ensures r == Unknown || exists j :: 0 <= j < |cs| && ClassifyContour(cs[j]) == Some(r)
  {
    if cs == [] then Unknown
    else match ClassifyContour(cs[0])
      case Some(found) => found
      case None =>
        var r := Classify(cs[1..]);
        assert r != Unknown ==> exists j :: 0 <= j < |cs[1..]| && ClassifyContour(cs[1..][j]) == Some(r);
        assert forall j :: 0 <= j < |cs[1..]| ==> cs[1..][j] == cs[j + 1];
        r
  }

  /**
   * The classification loop: contours are examined in order and the first one
   * that yields a label decides; "unknown" when the sequence is exhausted.
   */
  method RecognizeDeformationType(contours: seq<Contour>) returns (deformationType: string)
    ensures deformationType == Classify(contours).Name()
  {
    for i := 0 to |contours|
      invariant Classify(contours[i..]) == Classify(contours)
    {
      var decision := ClassifyContour(contours[i]);
      if decision.Some? {
        return decision.value.Name();
      }
      assert contours[i..][1..] == contours[i + 1..];
    }
    return Unknown.Name();
  }

  // ----- properties of the per-contour decision -----

  /** A 4-vertex approximation always gives a label: square exactly when the aspect ratio lies in [0.95, 1.05]. */
  lemma FourVertexLabel(c: Contour)
    requires c.approxLen == 4
    ensures ClassifyContour(c) == Some(Square) || ClassifyContour(c) == Some(Rectangle)
    ensures ClassifyContour(c) == Some(Square) <==>
              c.height != 0 && 0.95 <= (c.width as real) / (c.height as real) <= 1.05
  {
  }

  /** Against a positive divisor, a bound on a quotient is a bound on the product. */
  lemma QuotientBounds(lo: real, hi: real, w: real, h: real)
    requires h > 0.0
    ensures lo <= w / h <==> lo * h <= w
    ensures w / h <= hi <==> w <= hi * h
  {
    var q := w / h;
    assert q * h == w;
    if lo <= q {
      assert lo * h <= q * h;
    } else {
      assert q * h < lo * h;
    }
    if q <= hi {
      assert q * h <= hi * h;
    } else {
      assert hi * h < q * h;
    }
  }

  /** For a positive height the square test is the integer test 95h <= 100w <= 105h. */
  lemma SquareAspectIntegerForm(width: int, height: int)
    requires height >= 1
    ensures IsSquareAspect(width, height) <==> 95 * height <= 100 * width <= 105 * height
  {
    QuotientBounds(SquareLow, SquareHigh, width as real, height as real);
    assert SquareLow * (height as real) <= width as real <==> ((95 * height) as real) <= ((100 * width) as real);
    assert width as real <= SquareHigh * (height as real) <==> ((100 * width) as real) <= ((105 * height) as real);
  }

  /** A 100 x 100 bounding box is a square, a 100 x 60 one a rectangle. */
  lemma SquareAndRectangleExamples()
    ensures ClassifyContour(Contour(4, 100, 100, 0.0, 1.0)) == Some(Square)
    ensures ClassifyContour(Contour(4, 100, 60, 0.0, 1.0)) == Some(Rectangle)
  {
  }

  /** Exactly which contours give no label: fewer than 3 vertices, 7, or more than 8 failing both curve tests. */
  lemma UndecidedIff(c: Contour)
    ensures !Decisive(c) <==>
              c.approxLen < 3 || c.approxLen == 7 ||
              (c.approxLen > 8 && !IsCircle(c.circularity) && !IsEllipse(c.matchDistance))
  {
  }

  /** The circle acceptance band is [0.8, 1.2], both ends included. */
  lemma CircleBand(circularity: real)
    ensures IsCircle(circularity) <==> 0.8 <= circularity <= 1.2
  {
  }

  /**
   * Above 8 vertices the circle test comes first: it wins whatever the ellipse
   * test says, the ellipse test decides only when it fails, and a contour
   * failing both gives no label.
   */
  lemma ManyVertexOrder(c: Contour)
    requires c.approxLen > 8
    ensures IsCircle(c.circularity) ==> ClassifyContour(c) == Some(Circle)
    ensures !IsCircle(c.circularity) && IsEllipse(c.matchDistance) ==> ClassifyContour(c) == Some(Ellipse)
    ensures !IsCircle(c.circularity) && !IsEllipse(c.matchDistance) ==> ClassifyContour(c) == None
  {
  }

  // ----- properties of the search -----

  /** The first decisive contour decides the classification. */
  lemma {:induction false} ClassifyFirstDecisive(cs: seq<Contour>, i: nat)
    requires i < |cs| && Decisive(cs[i])
    requires forall j :: 0 <= j < i ==> !Decisive(cs[j])
    ensures Classify(cs) == ClassifyContour(cs[i]).value
  {
    if i > 0 {
      assert !Decisive(cs[0]);
      ClassifyFirstDecisive(cs[1..], i - 1);
    }
  }

  /**
   * A first contour approximated by 3, 5, 6 or 8 vertices gives triangle,
   * pentagon, hexagon or octagon.
   */
  lemma FirstFixedCountDecides(cs: seq<Contour>, i: nat)
    requires i < |cs| && cs[i].approxLen in {3, 5, 6, 8}
    requires forall j :: 0 <= j < i ==> !Decisive(cs[j])
    ensures cs[i].approxLen == 3 ==> Classify(cs) == Triangle
    ensures cs[i].approxLen == 5 ==> Classify(cs) == Pentagon
    ensures cs[i].approxLen == 6 ==> Classify(cs) == Hexagon
    ensures cs[i].approxLen == 8 ==> Classify(cs) == Octagon
  {
    ClassifyFirstDecisive(cs, i);
  }

  /** Contours after a decisive one are never inspected. */
  lemma {:induction false} ClassifyIgnoresLater(cs: seq<Contour>, rest: seq<Contour>, i: nat)
    requires i < |cs| && Decisive(cs[i])
    ensures Classify(cs + rest) == Classify(cs)
  {
    if !Decisive(cs[0]) {
      assert (cs + rest)[1..] == cs[1..] + rest;
      ClassifyIgnoresLater(cs[1..], rest, i - 1);
    }
  }

  /** A contour that gives no label is skipped: the result is that of the remaining contours. */
  lemma SkipUndecided(c: Contour, cs: seq<Contour>)
    requires !Decisive(c)
    ensures Classify([c] + cs) == Classify(cs)
  {
  }

  /** "unknown" exactly when no contour is decisive (in particular for no contours at all). */
  lemma {:induction false} ClassifyUnknownIff(cs: seq<Contour>)
    ensures Classify(cs) == Unknown <==> forall j :: 0 <= j < |cs| ==> !Decisive(cs[j])
  {
    if cs != [] {
      ClassifyUnknownIff(cs[1..]);
      assert forall j :: 0 < j < |cs| ==> cs[j] == cs[1..][j - 1];
    }
  }

  /** The returned string is one of the nine label names, and names identify labels. */
  lemma NamesIdentifyLabels(a: ShapeLabel, b: ShapeLabel)
    ensures a.Name() in {"triangle", "square", "rectangle", "pentagon", "hexagon",
                         "octagon", "circle", "ellipse", "unknown"}
    ensures a.Name() == b.Name() ==> a == b
  {
  }
}
