/**
 * The deformation policy: the case-insensitive dispatch from a label string
 * to one of eight displacement formulas, and the per-vertex update
 * z := z + f(x, y) * 0.1 that every formula shares.
 */
module Deformations {
  import opened Wrappers
  import opened Shapes
  import opened Geometry

  /** sin, cos and tan of the platform's math library, left uninterpreted. */
  datatype Trig = Trig(sin: real -> real, cos: real -> real, tan: real -> real)

  /** The eight displacement formulas, named after what they compute. */
  datatype Deformation = SinX | CosX | TanX | SinSum | CosSum | TanSum | SinProduct | CosProduct
  {
    /** The shape whose label selects this formula. */
    function Shape(): ShapeLabel {
      match this
      case SinX => Triangle
      case CosX => Square
      case TanX => Rectangle
      case SinSum => Pentagon
      case CosSum => Hexagon
      case TanSum => Octagon
      case SinProduct => Circle
      case CosProduct => Ellipse
    }
  }

  const Amplitude: real := 0.1
  const UnknownNotice: string := "Unknown deformation type."

  /** f(x, y) of each formula. */
  function Offset(d: Deformation, trig: Trig, x: real, y: real): real {
    match d
    case SinX => trig.sin(x)
    case CosX => trig.cos(x)
    case TanX => trig.tan(x)
    case SinSum => trig.sin(x + y)
    case CosSum => trig.cos(x + y)
    case TanSum => trig.tan(x + y)
    case SinProduct => trig.sin(x * y)
    case CosProduct => trig.cos(x * y)
  }

  predicate IsUpper(c: char) { 'A' <= c <= 'Z' }

  function LowerChar(c: char): char {
    if IsUpper(c) then (c as int + 32) as char else c
  }

  /** Lower-casing of the label, over the ASCII letters. */
  function ToLower(s: string): (r: string)
    ensures |r| == |s|
    ensures forall i :: 0 <= i < |s| ==> r[i] == LowerChar(s[i])
  {
    if s == [] then [] else [LowerChar(s[0])] + ToLower(s[1..])
  }

  /** The switch of ApplyDeformation on the lower-cased label; None is the default branch. */
  function SelectDeformation(deformationType: string): Option<Deformation> {
    var key := ToLower(deformationType);
    if key == "triangle" then Some(SinX)
    else if key == "square" then Some(CosX)
    else if key == "rectangle" then Some(TanX)
    else if key == "pentagon" then Some(SinSum)
    else if key == "hexagon" then Some(CosSum)
    else if key == "octagon" then Some(TanSum)
    else if key == "circle" then Some(SinProduct)
    else if key == "ellipse" then Some(CosProduct)
    else None
  }

  /** The new position of one vertex: x and y kept, z displaced by a tenth of f(x, y). */
  function Shift(p: Point3, d: Deformation, trig: Trig): Point3 {
    Point3(p.x, p.y, p.z + Offset(d, trig, p.x, p.y) * Amplitude)
  }

  /** Every vertex shifted, in order. */
  function Deformed(ps: seq<Point3>, d: Deformation, trig: Trig): seq<Point3> {
    if ps == [] then [] else [Shift(ps[0], d, trig)] + Deformed(ps[1..], d, trig)
  }

  // ----- dispatch -----

  lemma ToLowerIdempotent(s: string)
    ensures ToLower(ToLower(s)) == ToLower(s)
  {
  }

  /** The dispatch does not depend on letter case. */
  lemma SelectIgnoresCase(s: string)
    ensures SelectDeformation(ToLower(s)) == SelectDeformation(s)
  {
    ToLowerIdempotent(s);
  }

  /** A formula is selected exactly by the (case-insensitive) name of its own shape. */
  lemma SelectDeformationIff(s: string, d: Deformation)
    ensures SelectDeformation(s) == Some(d) <==> ToLower(s) == d.Shape().Name()
  {
  }

  /** Distinct formulas belong to distinct shapes, so each label selects at most one formula. */
  lemma ShapeInjective(d: Deformation, e: Deformation)
    ensures d.Shape() == e.Shape() ==> d == e
    ensures d.Shape() != Unknown
  {
  }

  predicate NoUpper(s: string) {
    forall i :: 0 <= i < |s| ==> !IsUpper(s[i])
  }

  /** Lower-casing leaves a string without upper-case letters alone. */
  lemma ToLowerOfLowerCase(s: string)
    requires NoUpper(s)
    ensures ToLower(s) == s
  {
  }

  /** The classifier's label names are already lower case. */
  lemma LabelNamesLowerCase(l: ShapeLabel)
    ensures NoUpper(l.Name())
  {
  }

  /**
   * Each of the eight classifier labels selects the formula of its shape;
   * "unknown" selects none.
   */
  lemma SelectOfLabel(l: ShapeLabel)
    ensures SelectDeformation(l.Name()).Some? <==> l != Unknown
    ensures l != Unknown ==> SelectDeformation(l.Name()).value.Shape() == l
  {
    LabelNamesLowerCase(l);
    ToLowerOfLowerCase(l.Name());
  }

  // ----- the per-vertex update -----

  /** The deformed sequence has the same length and shifts vertex k in place. */
  lemma {:induction false} DeformedAt(ps: seq<Point3>, d: Deformation, trig: Trig, k: nat)
    requires k < |ps|
    ensures |Deformed(ps, d, trig)| == |ps|
    ensures Deformed(ps, d, trig)[k] ==
              Point3(ps[k].x, ps[k].y, ps[k].z + Offset(d, trig, ps[k].x, ps[k].y) * Amplitude)
  {
    if k > 0 {
      DeformedAt(ps[1..], d, trig, k - 1);
    } else if |ps| > 1 {
      DeformedAt(ps[1..], d, trig, 0);
    }
  }

  lemma DeformedLength(ps: seq<Point3>, d: Deformation, trig: Trig)
    ensures |Deformed(ps, d, trig)| == |ps|
  {
  }

  /** Deforming twice adds the displacement twice: the update is not idempotent. */
  lemma DeformTwiceAddsTwice(ps: seq<Point3>, d: Deformation, trig: Trig, k: nat)
    requires k < |ps|
    ensures |Deformed(Deformed(ps, d, trig), d, trig)| == |ps|
    ensures Deformed(Deformed(ps, d, trig), d, trig)[k] ==
              Point3(ps[k].x, ps[k].y,
                     ps[k].z + Offset(d, trig, ps[k].x, ps[k].y) * Amplitude
                             + Offset(d, trig, ps[k].x, ps[k].y) * Amplitude)
  {
    DeformedAt(ps, d, trig, k);
    DeformedAt(Deformed(ps, d, trig), d, trig, k);
  }

  /** Where some vertex has a non-zero displacement, deforming again changes the mesh. */
  lemma DeformNotIdempotent(ps: seq<Point3>, d: Deformation, trig: Trig, k: nat)
    requires k < |ps| && Offset(d, trig, ps[k].x, ps[k].y) != 0.0
    ensures Deformed(Deformed(ps, d, trig), d, trig) != Deformed(ps, d, trig)
  {
    DeformedAt(ps, d, trig, k);
    DeformTwiceAddsTwice(ps, d, trig, k);
  }
}
