// The objects a scene file describes: point lights, the camera and the
// three kinds of shape, plus the scene the reader fills in.

module SceneObjects {
  import opened Common
  import opened Materials

  datatype Light = Light(position: Vec3, color: Vec3, name: string)

  /** The Light constructor's body is not part of this model: zero vectors and an empty name. */
  const DefaultLight: Light := Light(Zero3, Zero3, "")

  datatype Camera = Camera(
    eye: Vec3, lookat: Vec3, up: Vec3,
    clipLeft: real, clipRight: real, clipBottom: real, clipTop: real, clipNear: real,
    ambientFraction: real)

  /** A default-constructed camera; its ambient fraction is left unset by the
      source and is taken to be zero here. */
  const DefaultCamera: Camera :=
    Camera(Vec3(0.0, 0.0, 5.0), Zero3, Vec3(0.0, 1.0, 0.0), -1.0, 1.0, -1.0, 1.0, 4.0, 0.0)

  /** The shapes a scene can hold; each keeps its own copy of its material. */
  datatype Shape =
    | Sphere(center: Vec3, radius: real, material: Material, name: string)
    | Triangle(a: Vec3, b: Vec3, c: Vec3, material: Material, name: string)
    | Cylinder(center: Vec3, radius: real, height: real, material: Material, name: string)

  /** What reading a scene file fills in: the shapes and lights in file order and the camera. */
  datatype Scene = Scene(shapes: seq<Shape>, lights: seq<Light>, camera: Camera)
}
