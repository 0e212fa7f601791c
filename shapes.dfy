/** The detected-object shape enum of helpers/shape.py and its catalog strings. */
module Shapes {
  import opened Wrappers

  datatype Shape = Invalid | Box | Cylinder

  /** The enum's numeric value. */
  function Value(s: Shape): (v: int)
    ensures FromValue(v) == Some(s)
  {
    match s
    case Invalid => 0
    case Box => 1
    case Cylinder => 2
  }

  /** `Shape(v)`: the member with value `v`; any other value is a ValueError. */
  function FromValue(v: int): (r: Option<Shape>)
    ensures r.Some? <==> 0 <= v <= 2
  {
    if v == 0 then Some(Invalid)
    else if v == 1 then Some(Box)
    else if v == 2 then Some(Cylinder)
    else None
  }

  /** `shapeToString`: the lower-case name the catalog stores. */
  function ShapeToString(s: Shape): (r: string)
    ensures ParseShape(r) == s
  {
    if s == Box then "box"
    else if s == Cylinder then "cylinder"
    else "invalid"
  }

  /**
   * The catalog's shape column read back as a shape: 'box' and 'cylinder' are
   * recognised, every other string reads as Invalid.
   */
  function ParseShape(str: string): (r: Shape)
    ensures r != Invalid <==> str == "box" || str == "cylinder"
  {
    if str == "box" then Box
    else if str == "cylinder" then Cylinder
    else Invalid
  }

  /** Distinct shapes have distinct strings. */
  lemma ShapeToStringInjective(a: Shape, b: Shape)
    requires ShapeToString(a) == ShapeToString(b)
    ensures a == b
  {
    assert ParseShape(ShapeToString(a)) == a;
  }
}
