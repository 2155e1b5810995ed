// The record of a ray-shape intersection (hit.cpp).

module Hits {
  import opened Common
  import opened Materials

  /** The value a Hit holds; a null material becomes None. */
  datatype HitInfo = HitInfo(position: Vec3, normal: Vec3, material: Option<Material>, t: real)

  class Hit {
    var position: Vec3
    var normal: Vec3
    var material: Option<Material>
    var t: real

    function Value(): HitInfo
      reads this
    {
      HitInfo(position, normal, material, t)
    }

    /** A fresh hit has ray distance -1. The source leaves the other fields
        unset; here they are zero and no material. */
    constructor ()
      ensures t == -1.0
      ensures material == None
    {
      position := Zero3;
      normal := Zero3;
      material := None;
      t := -1.0;
    }

    /** Stores the four pieces of an intersection. */
    method Set(position: Vec3, material: Option<Material>, normal: Vec3, t: real)
      modifies this
      ensures Value() == HitInfo(position, normal, material, t)
    {
      this.position := position;
      this.material := material;
      this.normal := normal;
      this.t := t;
    }
  }
}
