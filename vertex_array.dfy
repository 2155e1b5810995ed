// A vertex array (vertex_array.cpp): a vertex buffer, an element buffer of
// indexes into it and the OpenGL primitive that connects them. Apart from the
// GPU calls it only names draw modes and passes reads on to its buffers.

module VertexArrays {
  import opened Common
  import opened Decimal
  import opened VertexBuffers
  import opened ElementBuffers

  /** The draw modes the source names, keyed by their OpenGL codes
      (GL_POINTS = 0 ... GL_TRIANGLE_STRIP_ADJACENCY = 0xD). */
  const DrawModeNames: map<UInt32, string> := map[
    0x0 := "GL_POINTS",
    0x3 := "GL_LINE_STRIP",
    0x2 := "GL_LINE_LOOP",
    0x1 := "GL_LINES",
    0xB := "GL_LINE_STRIP_ADJACENCY",
    0xA := "GL_LINES_ADJACENCY",
    0x5 := "GL_TRIANGLE_STRIP",
    0x6 := "GL_TRIANGLE_FAN",
    0x4 := "GL_TRIANGLES",
    0xD := "GL_TRIANGLE_STRIP_ADJACENCY",
    0xC := "GL_TRIANGLES_ADJACENCY"
  ]

  const UnknownSuffix: string := " (unknown)"

  /** draw_mode_name: the table's name, or the code in decimal followed by
      " (unknown)". */
  function DrawModeName(mode: UInt32): string
  {
    if mode in DrawModeNames then DrawModeNames[mode] else NatToString(mode) + UnknownSuffix
  }

  /** Exactly the codes 0 to 6 and 0xA to 0xD have names of their own, and
      those names start with "GL_". */
  lemma KnownDrawModes(mode: UInt32)
    ensures mode in DrawModeNames <==> mode <= 6 || 0xA <= mode <= 0xD
    ensures mode in DrawModeNames ==> DrawModeName(mode)[..3] == "GL_"
  {
  }

  /** The name of an unknown code is its decimal text, which reads back as
      the code, followed by " (unknown)". */
  lemma UnknownDrawModeName(mode: UInt32)
    requires mode !in DrawModeNames
    ensures var name := DrawModeName(mode);
      |name| > |UnknownSuffix| &&
      name[|name| - |UnknownSuffix|..] == UnknownSuffix &&
      AllDigits(name[..|name| - |UnknownSuffix|]) &&
      DigitsValue(name[..|name| - |UnknownSuffix|]) == mode
  {
    NatToStringRoundTrip(mode);
    var name := DrawModeName(mode);
    assert name[..|name| - |UnknownSuffix|] == NatToString(mode);
  }

  lemma KnownNamesDistinct(m: UInt32, n: UInt32)
    requires m in DrawModeNames && n in DrawModeNames && m != n
    ensures DrawModeNames[m] != DrawModeNames[n]
  {
    KnownDrawModes(m);
    KnownDrawModes(n);
  }

  /** Different codes get different names. */
  lemma {:induction false} DrawModeNameInjective(m: UInt32, n: UInt32)
    requires DrawModeName(m) == DrawModeName(n)
    ensures m == n
  {
    var a := DrawModeName(m);
    if m in DrawModeNames && n in DrawModeNames {
      if m != n {
        KnownNamesDistinct(m, n);
      }
    } else if m !in DrawModeNames && n !in DrawModeNames {
      var digits := |a| - |UnknownSuffix|;
      assert NatToString(m) == a[..digits] == NatToString(n);
      NatToStringInjective(m, n);
    } else if m in DrawModeNames {
      KnownAndUnknownDiffer(m, n);
    } else {
      KnownAndUnknownDiffer(n, m);
    }
  }

  /** A named code and an unnamed one: one name starts with 'G', the other
      with a digit. */
  lemma KnownAndUnknownDiffer(known: UInt32, unknown: UInt32)
    requires known in DrawModeNames && unknown !in DrawModeNames
    ensures DrawModeName(known) != DrawModeName(unknown)
  {
    NatToStringRoundTrip(unknown);
    KnownDrawModes(known);
    assert DrawModeName(unknown)[0] == NatToString(unknown)[0];
  }

  class VertexArray {
    const vertexBuffer: VertexBuffer
    const elementBuffer: ElementBuffer
    const drawMode: UInt32
    const name: string

    /** The GPU half of the constructor (install_data) is not modelled. */
    constructor (vertexBuffer: VertexBuffer, elementBuffer: ElementBuffer, drawMode: UInt32, name: string)
      ensures this.vertexBuffer == vertexBuffer && this.elementBuffer == elementBuffer
      ensures this.drawMode == drawMode && this.name == name
    {
      this.vertexBuffer := vertexBuffer;
      this.elementBuffer := elementBuffer;
      this.drawMode := drawMode;
      this.name := name;
    }

    /** get: attribute `a` of vertex `k`, as the vertex buffer reads it. */
    method Get(a: nat, k: nat) returns (v: Vec4)
      requires vertexBuffer.Valid() && a < |vertexBuffer.dims| && k < vertexBuffer.numVertices
      ensures Slot(vertexBuffer.dims, a, k) + Width(vertexBuffer.dims[a]) <= vertexBuffer.values.Length
      ensures v == Read(vertexBuffer.values[..], Slot(vertexBuffer.dims, a, k), vertexBuffer.dims[a])
    {
      v := vertexBuffer.Get(a, k);
    }

    /** get_element: the index stored at position `i` of the element buffer. */
    method GetElement(i: nat) returns (e: UInt32)
      requires i < elementBuffer.values.Length
      ensures e == elementBuffer.values[i]
      ensures elementBuffer.Valid() && i < elementBuffer.cursor ==> e == elementBuffer.Contents()[i]
    {
      e := elementBuffer.Get(i);
    }

    /** num_vertices: the vertex buffer's vertex count. */
    function NumVertices(): (n: nat)
      reads this, vertexBuffer
      ensures n == vertexBuffer.numVertices
    {
      vertexBuffer.numVertices
    }

    /** num_elements: the element buffer's capacity. */
    function NumElements(): (n: nat)
      ensures n == elementBuffer.size
    {
      elementBuffer.size
    }
  }
}
