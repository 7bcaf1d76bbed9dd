/**
 * The objects the sandbox keeps in its registry: the platform created at
 * start-up and every object spawned from the template (src/main.rs:124-136,
 * 275-296). Floating-point quantities of the engine are modelled as reals.
 */
module Scene {
  /** The engine's object identifier (`usize`). */
  type Id = nat

  datatype Vec2 = Vec2(x: real, y: real) {
    function Minus(other: Vec2): Vec2 {
      Vec2(x - other.x, y - other.y)
    }
  }

  const Origin := Vec2(0.0, 0.0)
  /** The engine's default transform size. */
  const UnitSize := Vec2(1.0, 1.0)

  datatype Color = Color(r: real, g: real, b: real, a: real)

  datatype Transform = Transform(position: Vec2, size: Vec2, rotation: real)

  datatype BodyKind = Fixed | Dynamic

  /** How the solver combines the restitution of two touching colliders. */
  datatype CombineRule = Average | Min | Multiply | Max

  /** `ColliderBuilder::square(width, height)` with its restitution settings. */
  datatype Collider = Collider(width: real, height: real, restitution: real, combine: CombineRule)

  /** The visual part: a square mesh of this colour, drawn at `size`. */
  datatype Appearance = Appearance(color: Color, size: Vec2)

  datatype SceneObject = SceneObject(
    transform: Transform,
    collider: Collider,
    body: BodyKind,
    appearance: Appearance)

  /**
   * The object a left press spawns in place mode: a square collider of the
   * template size, restitution 0 with the `Min` rule, a fixed body iff the
   * template is anchored, and a unit transform whose appearance carries the
   * template size (src/main.rs:275-296).
   */
  function FromTemplate(anchored: bool, color: Color, template: Transform): SceneObject {
    SceneObject(
      template.(size := UnitSize),
      Collider(template.size.x, template.size.y, 0.0, Min),
      if anchored then Fixed else Dynamic,
      Appearance(color, template.size))
  }

  /**
   * The start-up platform: a 5 x 0.1 fixed square, light grey, restitution 0
   * with the builder's default combine rule (src/main.rs:124-134). Its
   * position comes from the engine (`side_to_world`), so it is a parameter.
   */
  function Platform(position: Vec2): SceneObject {
    SceneObject(
      Transform(position, Vec2(5.0, 0.1), 0.0),
      Collider(5.0, 0.1, 0.0, Average),
      Fixed,
      Appearance(Color(0.9, 0.9, 0.9, 1.0), UnitSize))
  }
}
