// Phong material of a shape (material.cpp).

module Materials {
  import opened Common

  datatype Material = Material(
    ambient: Vec3,    // ambient reflectance
    diffuse: Vec3,    // diffuse reflectance
    specular: Vec3,   // specular reflectance
    shininess: real,  // specular exponent
    name: string)

  /** The material a default-constructed Material holds. */
  const DefaultMaterial: Material :=
    Material(Vec3(0.1, 0.1, 0.1), Vec3(0.5, 0.5, 0.5), Vec3(0.5, 0.5, 0.5), 10.0, "NO NAME")
}
