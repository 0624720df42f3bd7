/**
  Vector and bounding-sphere arithmetic used by the per-frame update.
  Single-precision floats are modelled as mathematical reals.
 */
module Geometry {

  /** A 3D point or displacement (MonoGame's Vector3). */
  datatype Vector3 = Vector3(x: real, y: real, z: real)

  const Zero := Vector3(0.0, 0.0, 0.0)

  function Add(a: Vector3, b: Vector3): Vector3 {
    Vector3(a.x + b.x, a.y + b.y, a.z + b.z)
  }

  function Sub(a: Vector3, b: Vector3): Vector3 {
    Vector3(a.x - b.x, a.y - b.y, a.z - b.z)
  }

  function Square(r: real): real {
    r * r
  }

  /** A square is never negative, and is zero only at zero. */
  lemma SquarePositive(r: real)
    ensures Square(r) >= 0.0
    ensures r != 0.0 ==> Square(r) > 0.0
  {
    if r > 0.0 {
      calc { Square(r); == r * r; > { ProductPositive(r, r); } 0.0; }
    } else if r < 0.0 {
      calc { Square(r); == (-r) * (-r); > { ProductPositive(-r, -r); } 0.0; }
    } else {
      calc { Square(r); == 0.0 * 0.0; == 0.0; }
    }
  }

  lemma ProductPositive(a: real, b: real)
    requires a > 0.0 && b > 0.0
    ensures a * b > 0.0
  {
  }

  /** Squared Euclidean distance between two points (MonoGame's Vector3.DistanceSquared). */
  function DistanceSquared(a: Vector3, b: Vector3): real {
    var d := Sub(a, b);
    Square(d.x) + Square(d.y) + Square(d.z)
  }

  /** The squared distance is zero exactly for coincident points, and positive otherwise. */
  lemma DistanceSquaredZero(a: Vector3, b: Vector3)
    ensures a == b ==> DistanceSquared(a, b) == 0.0
    ensures a != b ==> DistanceSquared(a, b) > 0.0
  {
    SquarePositive(a.x - b.x);
    SquarePositive(a.y - b.y);
    SquarePositive(a.z - b.z);
  }

  /** A sphere given by its centre and radius (MonoGame's BoundingSphere). */
  datatype BoundingSphere = BoundingSphere(center: Vector3, radius: real)

  function Translate(s: BoundingSphere, d: Vector3): BoundingSphere {
    s.(center := Add(s.center, d))
  }

  /**
    Two spheres intersect when the squared distance of their centres does not
    exceed the squared sum of their radii; touching spheres intersect. This is
    the definition of MonoGame's BoundingSphere.Intersects, taken as an
    assumption since the library is not part of this model.
   */
  predicate Intersects(a: BoundingSphere, b: BoundingSphere) {
    DistanceSquared(a.center, b.center) <= Square(a.radius + b.radius)
  }

  lemma IntersectsSymmetric(a: BoundingSphere, b: BoundingSphere)
    ensures Intersects(a, b) == Intersects(b, a)
  {
  }

  /** Spheres with a common centre always intersect, whatever their radii. */
  lemma IntersectsConcentric(a: BoundingSphere, b: BoundingSphere)
    requires a.center == b.center
    ensures Intersects(a, b)
  {
    DistanceSquaredZero(a.center, b.center);
    SquarePositive(a.radius + b.radius);
  }

  /** Moving both spheres by the same offset does not change the outcome. */
  lemma IntersectsTranslate(a: BoundingSphere, b: BoundingSphere, d: Vector3)
    ensures Intersects(Translate(a, d), Translate(b, d)) == Intersects(a, b)
  {
  }

  /** Unit spheres three apart are disjoint; two apart they touch and so intersect. */
  lemma IntersectsExamples()
    ensures !Intersects(BoundingSphere(Zero, 1.0), BoundingSphere(Vector3(3.0, 0.0, 0.0), 1.0))
    ensures Intersects(BoundingSphere(Zero, 1.0), BoundingSphere(Vector3(2.0, 0.0, 0.0), 1.0))
  {
  }
}
