// A mesh (mesh.cpp): a list of vertex arrays, its parts, all drawn with one
// shader program. Drawing and destroying are GPU calls and are not modelled.

module Meshes {
  import opened Common
  import opened VertexBuffers
  import opened VertexArrays

  /** The compiled shader program a mesh is drawn with; only its identity
      matters here. */
  class ShaderProgram {
  }

  class Mesh {
    const program: ShaderProgram?
    const name: string
    /** The parts in the order they were added; a part may be null. */
    var parts: seq<VertexArray?>

    /** A mesh with no parts, or with `firstPart` as its only part when it
        is not null. */
    constructor (program: ShaderProgram?, name: string, firstPart: VertexArray?)
      ensures this.program == program && this.name == name
      ensures parts == if firstPart == null then [] else [firstPart]
    {
      this.program := program;
      this.name := name;
      parts := [];
      new;
      if firstPart != null {
        Add(firstPart);
      }
    }

    /** add: `part` appended; the earlier parts keep their places. */
    method Add(part: VertexArray?)
      modifies this
      ensures parts == old(parts) + [part]
      ensures NumParts() == old(NumParts()) + 1 && GetPart(NumParts() - 1) == part
      ensures forall i :: 0 <= i < old(NumParts()) ==> GetPart(i) == old(GetPart(i))
    {
      parts := parts + [part];
    }

    /** num_parts. */
    function NumParts(): (n: nat)
      reads this
      ensures n == |parts|
    {
      |parts|
    }

    /** get_part: the `i`-th part added. */
    function GetPart(i: nat): (p: VertexArray?)
      reads this
      requires i < |parts|
      ensures p == parts[i]
    {
      parts[i]
    }

    /** get: attribute `a` of vertex `k` of part `part`, as that part reads it. */
    method Get(part: nat, a: nat, k: nat) returns (v: Vec4)
      requires part < |parts| && parts[part] != null
      requires parts[part].vertexBuffer.Valid()
      requires a < |parts[part].vertexBuffer.dims| && k < parts[part].vertexBuffer.numVertices
      ensures var vb := parts[part].vertexBuffer;
        Slot(vb.dims, a, k) + Width(vb.dims[a]) <= vb.values.Length &&
        v == Read(vb.values[..], Slot(vb.dims, a, k), vb.dims[a])
    {
      v := parts[part].Get(a, k);
    }
  }
}
