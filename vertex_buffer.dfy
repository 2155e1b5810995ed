// The CPU side of an OpenGL vertex buffer (vertex_buffer.cpp): a fixed array
// of floats holding interleaved vertex attributes, one write cursor per
// attribute, overflow checks and a static-access lock. The floats are only
// stored and read back, so they are reals here.

module VertexBuffers {
  import opened Common

  // ---------------------------------------------------------------------
  // Layout

  /** Where attribute `a` starts within a vertex: the sum of the dimensions
      of the attributes before it. */
  function Offset(dims: seq<nat>, a: nat): nat
    requires a <= |dims|
    decreases a
  {
    if a == 0 then 0 else Offset(dims, a - 1) + dims[a - 1]
  }

  /** Floats per vertex. */
  function TotalOf(dims: seq<nat>): nat
  {
    Offset(dims, |dims|)
  }

  /** Where the values of attribute `a` of vertex `k` start. */
  function Slot(dims: seq<nat>, a: nat, k: nat): nat
    requires a < |dims|
  {
    k * TotalOf(dims) + Offset(dims, a)
  }

  lemma {:induction false} OffsetMonotone(dims: seq<nat>, a: nat, b: nat)
    requires a <= b <= |dims|
    ensures Offset(dims, a) <= Offset(dims, b)
    decreases b - a
  {
    if a < b {
      OffsetMonotone(dims, a, b - 1);
    }
  }

  /** An attribute's values lie inside its vertex. */
  lemma AttributeInVertex(dims: seq<nat>, a: nat)
    requires a < |dims|
    ensures Offset(dims, a) + dims[a] <= TotalOf(dims)
  {
    OffsetMonotone(dims, a + 1, |dims|);
  }

  lemma MulMono(a: nat, b: nat, c: nat)
    requires a <= b
    ensures a * c <= b * c
  {
  }

  /** The values of attribute `a` of vertex `k` lie in the first `n` vertices when k < n. */
  lemma SlotInBuffer(dims: seq<nat>, a: nat, k: nat, n: nat)
    requires a < |dims| && k < n
    ensures Slot(dims, a, k) + dims[a] <= n * TotalOf(dims)
  {
    AttributeInVertex(dims, a);
    MulMono(k + 1, n, TotalOf(dims));
  }

  /** A whole vertex of `c` floats fits between vertex a's start and vertex b's when a < b. */
  lemma MulStep(a: nat, b: nat, c: nat)
    requires a < b
    ensures a * c + c <= b * c
  {
    MulMono(a + 1, b, c);
  }

  /** Distinct (attribute, vertex) pairs own disjoint ranges of the array. */
  lemma SlotsDisjoint(dims: seq<nat>, a: nat, k: nat, b: nat, j: nat)
    requires a < |dims| && b < |dims| && (a != b || k != j)
    ensures Slot(dims, a, k) + dims[a] <= Slot(dims, b, j) || Slot(dims, b, j) + dims[b] <= Slot(dims, a, k)
  {
    var t := TotalOf(dims);
    if k == j {
      if a < b {
        OffsetMonotone(dims, a + 1, b);
      } else {
        OffsetMonotone(dims, b + 1, a);
      }
    } else if k < j {
      AttributeInVertex(dims, a);
      MulStep(k, j, t);
    } else {
      AttributeInVertex(dims, b);
      MulStep(j, k, t);
    }
  }

  // ---------------------------------------------------------------------
  // Reading and writing one attribute of one vertex

  /** How many of x, y, z, w an attribute of dimension `dim` stores. */
  function Width(dim: nat): (n: nat)
    ensures n <= dim && n <= 4
  {
    if dim < 4 then dim else 4
  }

  function Component(v: Vec4, i: nat): real
  {
    if i == 0 then v.x else if i == 1 then v.y else if i == 2 then v.z else v.w
  }

  /** What a read returns for stored values `v`: the unused components are
      z = 0 and w = 1, as in get, and x = y = 0 below dimension 1 or 2. */
  function Padded(dim: nat, v: Vec4): Vec4
  {
    Vec4(if dim > 0 then v.x else 0.0, if dim > 1 then v.y else 0.0,
         if dim > 2 then v.z else 0.0, if dim > 3 then v.w else 1.0)
  }

  /** The array after storing the first Width(dim) components of `v` at `start`. */
  function Write(vals: seq<real>, start: nat, dim: nat, v: Vec4): (r: seq<real>)
    requires start + Width(dim) <= |vals|
    ensures |r| == |vals|
  {
    seq(|vals|, i requires 0 <= i < |vals| =>
      if start <= i < start + Width(dim) then Component(v, i - start) else vals[i])
  }

  /** The attribute of dimension `dim` stored at `start`. */
  function Read(vals: seq<real>, start: nat, dim: nat): Vec4
    requires start + Width(dim) <= |vals|
  {
    Vec4(if dim > 0 then vals[start] else 0.0, if dim > 1 then vals[start + 1] else 0.0,
         if dim > 2 then vals[start + 2] else 0.0, if dim > 3 then vals[start + 3] else 1.0)
  }

  /** Reading back what was written gives the written components. */
  lemma ReadAfterWrite(vals: seq<real>, start: nat, dim: nat, v: Vec4)
    requires start + Width(dim) <= |vals|
    ensures Read(Write(vals, start, dim, v), start, dim) == Padded(dim, v)
  {
    var w := Write(vals, start, dim, v);
    if dim > 0 { assert w[start] == Component(v, 0); }
    if dim > 1 { assert w[start + 1] == Component(v, 1); }
    if dim > 2 { assert w[start + 2] == Component(v, 2); }
    if dim > 3 { assert w[start + 3] == Component(v, 3); }
  }

  /** A write leaves every value outside its range as it was. */
  lemma WriteElsewhere(vals: seq<real>, start: nat, dim: nat, v: Vec4, other: nat, otherDim: nat)
    requires start + Width(dim) <= |vals| && other + Width(otherDim) <= |vals|
    requires start + dim <= other || other + otherDim <= start
    ensures Read(Write(vals, start, dim, v), other, otherDim) == Read(vals, other, otherDim)
  {
  }

  /** Adding or updating attribute `a` of vertex `k` changes what is read for
      that pair only: it then reads as the padded values, and every other
      attribute of every vertex reads as before. */
  lemma WriteOneSlot(vals: seq<real>, dims: seq<nat>, n: nat, a: nat, k: nat, v: Vec4, b: nat, j: nat)
    requires a < |dims| && b < |dims| && k < n && j < n && n * TotalOf(dims) <= |vals|
    ensures Slot(dims, a, k) + Width(dims[a]) <= |vals|
    ensures Slot(dims, b, j) + Width(dims[b]) <= |vals|
    ensures var after := Write(vals, Slot(dims, a, k), dims[a], v);
      Read(after, Slot(dims, b, j), dims[b])
        == if a == b && k == j then Padded(dims[a], v) else Read(vals, Slot(dims, b, j), dims[b])
  {
    SlotInBuffer(dims, a, k, n);
    SlotInBuffer(dims, b, j, n);
    if a == b && k == j {
      ReadAfterWrite(vals, Slot(dims, a, k), dims[a], v);
    } else {
      SlotsDisjoint(dims, a, k, b, j);
      WriteElsewhere(vals, Slot(dims, a, k), dims[a], v, Slot(dims, b, j), dims[b]);
    }
  }

  // ---------------------------------------------------------------------
  // The write and the read as the source has them (see the findings)

  /** add_values and update_values as written: x and y are always stored,
      whatever the dimension. */
  function WriteAsWritten(vals: seq<real>, start: nat, dim: nat, v: Vec4): seq<real>
    requires start + 4 <= |vals|
  {
    var xy := vals[start := v.x][start + 1 := v.y];
    var xyz := if dim > 2 then xy[start + 2 := v.z] else xy;
    if dim > 3 then xyz[start + 3 := v.w] else xyz
  }

  /** get as written: x and y are always read. */
  function ReadAsWritten(vals: seq<real>, start: nat, dim: nat): Vec4
    requires start + 4 <= |vals|
  {
    Vec4(vals[start], vals[start + 1],
         if dim > 2 then vals[start + 2] else 0.0, if dim > 3 then vals[start + 3] else 1.0)
  }

  /** From dimension 2 on, the source's write and read are the ones modelled. */
  lemma AsWrittenAgreesFromDimensionTwo(vals: seq<real>, start: nat, dim: nat, v: Vec4)
    requires start + 4 <= |vals| && dim >= 2
    ensures WriteAsWritten(vals, start, dim, v) == Write(vals, start, dim, v)
    ensures ReadAsWritten(vals, start, dim) == Read(vals, start, dim)
  {
    var w := Write(vals, start, dim, v);
    var u := WriteAsWritten(vals, start, dim, v);
    forall i | 0 <= i < |vals|
      ensures u[i] == w[i]
    {
      if start <= i < start + Width(dim) {
        assert w[i] == Component(v, i - start);
      } else {
        assert w[i] == vals[i];
      }
    }
  }

  /** Two one-float attributes, one vertex (array of 1*2 + 4 floats).
      With errors not fatal, add(1, 5, 6) and then add(0, 7, 8) store
      attribute 0's y over attribute 1, which then reads back as 8, not 5.
      With no flag at all, a buffer built from the values [5, 7] (`vals`, of
      which only the first two floats are given) has get(0, 0).y == 7, the
      neighbour's value, where the corrected read gives 0. */
  lemma DimensionOneAddOverwritesNeighbour(vals: seq<real>)
    requires |vals| == 6 && vals[0] == 5.0 && vals[1] == 7.0
    ensures ReadAsWritten(vals, Slot([1, 1], 0, 0), 1).y == 7.0
    ensures Read(vals, Slot([1, 1], 0, 0), 1).y == 0.0
    ensures var dims: seq<nat> := [1, 1];
      var empty := [0.0, 0.0, 0.0, 0.0, 0.0, 0.0];
      var first := WriteAsWritten(empty, Slot(dims, 1, 0), 1, Vec4(5.0, 6.0, 0.0, 1.0));
      var second := WriteAsWritten(first, Slot(dims, 0, 0), 1, Vec4(7.0, 8.0, 0.0, 1.0));
      ReadAsWritten(second, Slot(dims, 1, 0), 1).x == 8.0
    ensures var dims: seq<nat> := [1, 1];
      var empty := [0.0, 0.0, 0.0, 0.0, 0.0, 0.0];
      var first := Write(empty, Slot(dims, 1, 0), 1, Vec4(5.0, 6.0, 0.0, 1.0));
      var second := Write(first, Slot(dims, 0, 0), 1, Vec4(7.0, 8.0, 0.0, 1.0));
      Read(second, Slot(dims, 1, 0), 1).x == 5.0
  {
    var dims: seq<nat> := [1, 1];
    assert Offset(dims, 1) == 1;
    assert TotalOf(dims) == 2;
  }

  // ---------------------------------------------------------------------
  // The buffer

  /** `len` floats fill whole vertices of `t` floats exactly when the
      quotient times `t` gives `len` back. */
  lemma WholeVertices(len: nat, t: nat)
    requires t > 0
    ensures (len / t) * t == len <==> len % t == 0
  {
    assert len == t * (len / t) + len % t;
  }

  /** get_total_dimension: the floats per vertex, and each attribute's first
      index, which the source pushes onto the (empty) cursor list. */
  method TotalDimension(dims: seq<nat>) returns (total: nat, starts: seq<int>)
    ensures total == TotalOf(dims)
    ensures |starts| == |dims| && forall a :: 0 <= a < |dims| ==> starts[a] == Offset(dims, a)
  {
    total := 0;
    starts := [];
    for i := 0 to |dims|
      invariant total == Offset(dims, i)
      invariant |starts| == i && forall a :: 0 <= a < i ==> starts[a] == Offset(dims, a)
    {
      starts := starts + [total];
      total := total + dims[i];
    }
  }

  class VertexBuffer {
    var values: array<real>
    /** The next index to write, per attribute. */
    var cursors: seq<int>
    const dims: seq<nat>
    var numVertices: nat
    var maxIndex: int
    var total: nat
    const name: string
    const staticAccess: bool
    /** How many values each attribute has received through add. */
    ghost var added: seq<nat>

    ghost predicate Valid()
      reads this
    {
      total == TotalOf(dims) &&
      maxIndex == total * numVertices - 1 &&
      values.Length >= total * numVertices &&
      |cursors| == |dims| && |added| == |dims| &&
      forall a :: 0 <= a < |dims| ==> cursors[a] == Slot(dims, a, added[a])
    }

    /** The default buffer: no attributes, no vertices, one float of storage.
        The source leaves the total dimension and the largest index unset;
        here they are 0 and -1. */
    constructor ()
      ensures Valid() && fresh(values)
      ensures dims == [] && numVertices == 0 && name == "NO NAME" && staticAccess
    {
      values := new real[1];
      cursors := [];
      dims := [];
      numVertices := 0;
      maxIndex := -1;
      total := 0;
      name := "NO NAME";
      staticAccess := true;
      added := [];
    }

    /** A buffer for `numVertices` vertices with the given attribute
        dimensions, every cursor at its attribute's first index. */
    constructor Sized(numVertices: nat, dims: seq<nat>, name: string, staticAccess: bool)
      ensures Valid() && fresh(values)
      ensures this.dims == dims && this.numVertices == numVertices
      ensures this.name == name && this.staticAccess == staticAccess
      ensures added == seq(|dims|, _ => 0)
      ensures maxIndex == TotalOf(dims) * numVertices - 1
      ensures values.Length == TotalOf(dims) * numVertices + 4
    {
      var t, starts := TotalDimension(dims);
      this.dims := dims;
      this.numVertices := numVertices;
      this.name := name;
      this.staticAccess := staticAccess;
      total := t;
      cursors := starts;
      added := seq(|dims|, _ => 0);
      values := new real[0];
      maxIndex := -1;
      new;
      Initialize(numVertices);
    }

    /** initialize: room for `n` vertices plus a margin of four floats, and
        the largest index a cursor may start a write at. */
    method Initialize(n: nat)
      modifies this
      ensures fresh(values) && values.Length == total * n + 4
      ensures maxIndex == total * n - 1
      ensures cursors == old(cursors) && added == old(added) && total == old(total)
      ensures numVertices == old(numVertices)
    {
      var totalSize := total * n;
      maxIndex := totalSize - 1;
      totalSize := totalSize + 4;
      values := new real[totalSize];
    }

    /** The buffer built from `vals`, which must fill whole vertices; every
        cursor is back at its attribute's first index. */
    static method FromValues(vals: seq<real>, dims: seq<nat>, name: string, staticAccess: bool)
      returns (r: Result<VertexBuffer>)
      requires TotalOf(dims) > 0
      ensures r.Failure? <==> |vals| % TotalOf(dims) != 0
      ensures r.Failure? ==> r.error == SizeMismatch
      ensures r.Success? ==>
        fresh(r.value) && fresh(r.value.values) && r.value.Valid() &&
        r.value.dims == dims && r.value.numVertices == |vals| / TotalOf(dims) &&
        r.value.values[..|vals|] == vals && r.value.added == seq(|dims|, _ => 0)
    {
      var total, _ := TotalDimension(dims);
      var n := |vals| / total;
      WholeVertices(|vals|, total);
      if n * total != |vals| {
        return Failure(SizeMismatch);
      }
      var b := new VertexBuffer.Sized(n, dims, name, staticAccess);
      b.CopyIn(vals);
      b.ResetCursors();
      return Success(b);
    }

    /** The copy loop of the values constructor. */
    method CopyIn(vals: seq<real>)
      requires |vals| <= values.Length
      modifies values
      ensures values[..|vals|] == vals
    {
      for i := 0 to |vals|
        invariant values[..i] == vals[..i]
      {
        values[i] := vals[i];
      }
      assert vals[..|vals|] == vals;
    }

    /** The cursor loop of the values constructor: each attribute's cursor
        back at its first index. */
    method ResetCursors()
      requires |cursors| == |dims|
      modifies this
      ensures |cursors| == |dims| && forall a :: 0 <= a < |dims| ==> cursors[a] == Offset(dims, a)
      ensures values == old(values) && added == old(added) && numVertices == old(numVertices)
      ensures total == old(total) && maxIndex == old(maxIndex)
    {
      var next := 0;
      for i := 0 to |cursors|
        invariant |cursors| == |dims| && next == Offset(dims, i)
        invariant forall a :: 0 <= a < i ==> cursors[a] == Offset(dims, a)
        invariant values == old(values) && added == old(added) && numVertices == old(numVertices)
        invariant total == old(total) && maxIndex == old(maxIndex)
      {
        cursors := cursors[i := next];
        next := next + dims[i];
      }
    }

    /** get_next_index: the cursor of attribute `a`, unless it is past the
        largest index. */
    method GetNextIndex(a: nat) returns (r: Result<nat>)
      requires Valid() && a < |dims|
      ensures cursors[a] > maxIndex ==> r == Failure(BufferOverflow)
      ensures cursors[a] <= maxIndex ==> r == Success(cursors[a]) && added[a] < numVertices
    {
      var index := cursors[a];
      if index > maxIndex {
        return Failure(BufferOverflow);
      }
      if added[a] >= numVertices {
        MulMono(numVertices, added[a], total);
      }
      return Success(index);
    }

    /** add_values: the next vertex's values for attribute `a`, x, y, z and w
        as far as the dimension goes; that attribute's cursor moves to the
        next vertex. */
    method AddValues(a: nat, x: real, y: real, z: real, w: real) returns (outcome: Outcome)
      requires Valid() && a < |dims|
      modifies this, values
      ensures Valid() && values == old(values) && numVertices == old(numVertices)
      ensures old(cursors[a]) > maxIndex ==>
        outcome == Fail(BufferOverflow) && values[..] == old(values[..]) &&
        cursors == old(cursors) && added == old(added)
      ensures old(cursors[a]) <= maxIndex ==>
        outcome == Pass && old(added[a]) < numVertices &&
        Slot(dims, a, old(added[a])) + Width(dims[a]) <= values.Length &&
        values[..] == Write(old(values[..]), Slot(dims, a, old(added[a])), dims[a], Vec4(x, y, z, w)) &&
        cursors == old(cursors)[a := old(cursors[a]) + total] &&
        added == old(added)[a := old(added[a]) + 1]
    {
      var next := GetNextIndex(a);
      if next.Failure? {
        return Fail(next.error);
      }
      var start := next.value;
      SlotInBuffer(dims, a, added[a], numVertices);
      WriteCorrected(start, dims[a], Vec4(x, y, z, w));
      cursors := cursors[a := start + total];
      added := added[a := added[a] + 1];
      return Pass;
    }

    /** The writes of add_values and update_values, limited to the
        attribute's dimension. */
    method WriteCorrected(start: nat, dimension: nat, v: Vec4)
      requires start + Width(dimension) <= values.Length
      modifies values
      ensures values[..] == Write(old(values[..]), start, dimension, v)
    {
      ghost var expected := Write(old(values[..]), start, dimension, v);
      if dimension > 0 {
        values[start] := v.x;
      }
      if dimension > 1 {
        values[start + 1] := v.y;
      }
      if dimension > 2 {
        values[start + 2] := v.z;
      }
      if dimension > 3 {
        values[start + 3] := v.w;
      }
      forall i | 0 <= i < values.Length
        ensures values[i] == expected[i]
      {
        if start <= i < start + Width(dimension) {
          assert expected[i] == Component(v, i - start);
        }
      }
    }

    /** add(attribute, x, y) and add(attribute, vec2): an attribute of
        another dimension is reported, and is fatal when errors are. */
    method Add2(a: nat, x: real, y: real, dieOnError: bool) returns (outcome: Outcome)
      requires Valid() && a < |dims|
      modifies this, values
      ensures Valid() && values == old(values) && numVertices == old(numVertices)
      ensures dims[a] != 2 && dieOnError ==>
        outcome == Fail(DimensionMismatch) && values[..] == old(values[..]) &&
        cursors == old(cursors) && added == old(added)
      ensures (dims[a] == 2 || !dieOnError) && old(cursors[a]) <= maxIndex ==>
        outcome == Pass &&
        Slot(dims, a, old(added[a])) + Width(dims[a]) <= values.Length &&
        values[..] == Write(old(values[..]), Slot(dims, a, old(added[a])), dims[a], Vec4(x, y, 0.0, 1.0)) &&
        cursors == old(cursors)[a := old(cursors[a]) + total] &&
        added == old(added)[a := old(added[a]) + 1]
      ensures (dims[a] == 2 || !dieOnError) && old(cursors[a]) > maxIndex ==>
        outcome == Fail(BufferOverflow) && values[..] == old(values[..]) &&
        cursors == old(cursors) && added == old(added)
    {
      if dims[a] != 2 && dieOnError {
        return Fail(DimensionMismatch);
      }
      outcome := AddValues(a, x, y, 0.0, 1.0);
    }

    /** add(attribute, x, y, z) and add(attribute, vec3). */
    method Add3(a: nat, x: real, y: real, z: real, dieOnError: bool) returns (outcome: Outcome)
      requires Valid() && a < |dims|
      modifies this, values
      ensures Valid() && values == old(values) && numVertices == old(numVertices)
      ensures dims[a] != 3 && dieOnError ==>
        outcome == Fail(DimensionMismatch) && values[..] == old(values[..]) &&
        cursors == old(cursors) && added == old(added)
      ensures (dims[a] == 3 || !dieOnError) && old(cursors[a]) <= maxIndex ==>
        outcome == Pass &&
        Slot(dims, a, old(added[a])) + Width(dims[a]) <= values.Length &&
        values[..] == Write(old(values[..]), Slot(dims, a, old(added[a])), dims[a], Vec4(x, y, z, 1.0)) &&
        cursors == old(cursors)[a := old(cursors[a]) + total] &&
        added == old(added)[a := old(added[a]) + 1]
      ensures (dims[a] == 3 || !dieOnError) && old(cursors[a]) > maxIndex ==>
        outcome == Fail(BufferOverflow) && values[..] == old(values[..]) &&
        cursors == old(cursors) && added == old(added)
    {
      if dims[a] != 3 && dieOnError {
        return Fail(DimensionMismatch);
      }
      outcome := AddValues(a, x, y, z, 1.0);
    }

    /** add(attribute, x, y, z, w) and add(attribute, vec4). */
    method Add4(a: nat, x: real, y: real, z: real, w: real, dieOnError: bool) returns (outcome: Outcome)
      requires Valid() && a < |dims|
      modifies this, values
      ensures Valid() && values == old(values) && numVertices == old(numVertices)
      ensures dims[a] != 4 && dieOnError ==>
        outcome == Fail(DimensionMismatch) && values[..] == old(values[..]) &&
        cursors == old(cursors) && added == old(added)
      ensures (dims[a] == 4 || !dieOnError) && old(cursors[a]) <= maxIndex ==>
        outcome == Pass &&
        Slot(dims, a, old(added[a])) + Width(dims[a]) <= values.Length &&
        values[..] == Write(old(values[..]), Slot(dims, a, old(added[a])), dims[a], Vec4(x, y, z, w)) &&
        cursors == old(cursors)[a := old(cursors[a]) + total] &&
        added == old(added)[a := old(added[a]) + 1]
      ensures (dims[a] == 4 || !dieOnError) && old(cursors[a]) > maxIndex ==>
        outcome == Fail(BufferOverflow) && values[..] == old(values[..]) &&
        cursors == old(cursors) && added == old(added)
    {
      if dims[a] != 4 && dieOnError {
        return Fail(DimensionMismatch);
      }
      outcome := AddValues(a, x, y, z, w);
    }

    /** The index loop shared by get and update_values: vertex k's first
        index plus the dimensions of the attributes before `a`. */
    method StartIndex(a: nat, k: nat) returns (start: nat)
      requires Valid() && a < |dims|
      ensures start == Slot(dims, a, k)
    {
      start := k * total;
      for i := 0 to a
        invariant start == k * total + Offset(dims, i)
      {
        start := start + dims[i];
      }
    }

    /** get: attribute `a` of vertex `k`, with z = 0 and w = 1 when the
        dimension has no room for them. */
    method Get(a: nat, k: nat) returns (v: Vec4)
      requires Valid() && a < |dims| && k < numVertices
      ensures Slot(dims, a, k) + Width(dims[a]) <= values.Length
      ensures v == Read(values[..], Slot(dims, a, k), dims[a])
    {
      SlotInBuffer(dims, a, k, numVertices);
      var start := StartIndex(a, k);
      var dimension := dims[a];
      var index := start;
      v := Vec4(0.0, 0.0, 0.0, 1.0);
      if dimension > 0 {
        v := v.(x := values[index]);
        index := index + 1;
      }
      if dimension > 1 {
        v := v.(y := values[index]);
        index := index + 1;
      }
      if dimension > 2 {
        v := v.(z := values[index]);
        index := index + 1;
      }
      if dimension > 3 {
        v := v.(w := values[index]);
      }
    }

    /** update_values: the values of attribute `a` of vertex `k` replaced,
        unless the buffer was made static. */
    method UpdateValues(a: nat, k: nat, x: real, y: real, z: real, w: real) returns (outcome: Outcome)
      requires Valid() && a < |dims| && k < numVertices
      modifies values
      ensures staticAccess ==> outcome == Fail(StaticAccess) && values[..] == old(values[..])
      ensures !staticAccess ==>
        outcome == Pass &&
        Slot(dims, a, k) + Width(dims[a]) <= values.Length &&
        values[..] == Write(old(values[..]), Slot(dims, a, k), dims[a], Vec4(x, y, z, w))
    {
      if staticAccess {
        return Fail(StaticAccess);
      }
      SlotInBuffer(dims, a, k, numVertices);
      var start := StartIndex(a, k);
      WriteCorrected(start, dims[a], Vec4(x, y, z, w));
      return Pass;
    }

    /** update(attribute, index, x, y) and update(attribute, index, vec2). */
    method Update2(a: nat, k: nat, x: real, y: real, dieOnError: bool) returns (outcome: Outcome)
      requires Valid() && a < |dims| && k < numVertices
      modifies values
      ensures dims[a] != 2 && dieOnError ==> outcome == Fail(DimensionMismatch) && values[..] == old(values[..])
      ensures (dims[a] == 2 || !dieOnError) && staticAccess ==>
        outcome == Fail(StaticAccess) && values[..] == old(values[..])
      ensures (dims[a] == 2 || !dieOnError) && !staticAccess ==>
        outcome == Pass &&
        Slot(dims, a, k) + Width(dims[a]) <= values.Length &&
        values[..] == Write(old(values[..]), Slot(dims, a, k), dims[a], Vec4(x, y, 0.0, 1.0))
    {
      if dims[a] != 2 && dieOnError {
        return Fail(DimensionMismatch);
      }
      outcome := UpdateValues(a, k, x, y, 0.0, 1.0);
    }

    /** update(attribute, index, x, y, z) and update(attribute, index, vec3). */
    method Update3(a: nat, k: nat, x: real, y: real, z: real, dieOnError: bool) returns (outcome: Outcome)
      requires Valid() && a < |dims| && k < numVertices
      modifies values
      ensures dims[a] != 3 && dieOnError ==> outcome == Fail(DimensionMismatch) && values[..] == old(values[..])
      ensures (dims[a] == 3 || !dieOnError) && staticAccess ==>
        outcome == Fail(StaticAccess) && values[..] == old(values[..])
      ensures (dims[a] == 3 || !dieOnError) && !staticAccess ==>
        outcome == Pass &&
        Slot(dims, a, k) + Width(dims[a]) <= values.Length &&
        values[..] == Write(old(values[..]), Slot(dims, a, k), dims[a], Vec4(x, y, z, 1.0))
    {
      if dims[a] != 3 && dieOnError {
        return Fail(DimensionMismatch);
      }
      outcome := UpdateValues(a, k, x, y, z, 1.0);
    }

    /** update(attribute, index, x, y, z, w) and update(attribute, index, vec4). */
    method Update4(a: nat, k: nat, x: real, y: real, z: real, w: real, dieOnError: bool) returns (outcome: Outcome)
      requires Valid() && a < |dims| && k < numVertices
      modifies values
      ensures dims[a] != 4 && dieOnError ==> outcome == Fail(DimensionMismatch) && values[..] == old(values[..])
      ensures (dims[a] == 4 || !dieOnError) && staticAccess ==>
        outcome == Fail(StaticAccess) && values[..] == old(values[..])
      ensures (dims[a] == 4 || !dieOnError) && !staticAccess ==>
        outcome == Pass &&
        Slot(dims, a, k) + Width(dims[a]) <= values.Length &&
        values[..] == Write(old(values[..]), Slot(dims, a, k), dims[a], Vec4(x, y, z, w))
    {
      if dims[a] != 4 && dieOnError {
        return Fail(DimensionMismatch);
      }
      outcome := UpdateValues(a, k, x, y, z, w);
    }
  }
}
