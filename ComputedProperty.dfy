/** Example 5, "computed property vs method": a circle's diameter derived
    from its radius. Swift's `Double` is idealised as `real`. */
module ComputedProperty {

  /** `func getDiameter(radius: Double) -> Double`, the method form. */
  function GetDiameter(radius: real): real {
    radius * 2.0
  }

  /** `func getRadius(diameter: Double) -> Double`, the method form. */
  function GetRadius(diameter: real): real {
    diameter / 2.0
  }

  /** The two method forms are inverse to each other. */
  lemma GetRadiusGetDiameter(radius: real, diameter: real)
    ensures GetRadius(GetDiameter(radius)) == radius
    ensures GetDiameter(GetRadius(diameter)) == diameter
  {
  }

  /** The global `var radius: Double = 10` together with the computed
      property `diameter` built on it. */
  class Circle {
    var radius: real

    constructor ()
      ensures radius == 10.0
    {
      radius := 10.0;
    }

    /** `diameter`'s getter: `radius * 2`. Reading it back through
        `getRadius` gives the radius again. */
    function Diameter(): (diameter: real)
      reads this
      ensures diameter == GetDiameter(radius)
      ensures GetRadius(diameter) == radius
    {
      radius * 2.0
    }

    /** `diameter`'s setter: `radius = newValue / 2`. */
    method SetDiameter(newValue: real)
      modifies this
      ensures radius == GetRadius(newValue)
      ensures Diameter() == newValue
    {
      radius := newValue / 2.0;
    }
  }

  /** Writing back the diameter just read leaves the radius as it was. */
  method DiameterSetterRoundTrip(circle: Circle)
    modifies circle
    ensures circle.radius == old(circle.radius)
  {
    circle.SetDiameter(circle.Diameter());
  }

  /** `five()` at launch: diameter 20 and radius 10. */
  method FiveAtLaunch() returns (diameter: real, radius: real)
    ensures diameter == 20.0 && radius == 10.0
  {
    var circle := new Circle();
    diameter, radius := circle.Diameter(), circle.radius;
  }
}
