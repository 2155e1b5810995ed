// The CPU side of an OpenGL element buffer (element_buffer.cpp): a fixed
// array of unsigned vertex indexes filled in order through a cursor, with a
// static-access lock on later updates.

module ElementBuffers {
  import opened Common

  /** The indexes as the buffer stores them: each int converted to GLuint. */
  function Stored(indexes: seq<int>): (r: seq<UInt32>)
    ensures |r| == |indexes|
    ensures forall i :: 0 <= i < |indexes| ==> r[i] == ToUInt32(indexes[i])
  {
    seq(|indexes|, i requires 0 <= i < |indexes| => ToUInt32(indexes[i]))
  }

  /** Indexes that are already valid GLuint values are stored unchanged. */
  lemma {:induction false} StoredKeepsUnsigned(indexes: seq<int>)
    requires forall i :: 0 <= i < |indexes| ==> 0 <= indexes[i] < TwoTo32
    ensures Stored(indexes) == indexes
  {
    var r := Stored(indexes);
    forall i | 0 <= i < |indexes|
      ensures r[i] == indexes[i]
    {
      assert r[i] == ToUInt32(indexes[i]);
    }
  }

  class ElementBuffer {
    var values: array<UInt32>
    /** The next position add writes to. */
    var cursor: int
    const size: nat
    const name: string
    const staticAccess: bool

    ghost predicate Valid()
      reads this
    {
      0 <= cursor <= size <= values.Length
    }

    /** The indexes the buffer holds so far. */
    ghost function Contents(): seq<UInt32>
      reads this, values
      requires Valid()
    {
      values[..cursor]
    }

    /** The default buffer: size 0 and one word of storage. The source leaves
        the cursor unset; here it is 0, so that every add overflows. */
    constructor ()
      ensures Valid() && fresh(values) && values.Length == 1
      ensures size == 0 && cursor == 0 && name == "NO NAME" && staticAccess
    {
      values := new UInt32[1];
      cursor := 0;
      size := 0;
      name := "NO NAME";
      staticAccess := true;
    }

    /** Room for `numIndexes` indexes, none added yet. */
    constructor Sized(numIndexes: nat, name: string, staticAccess: bool)
      ensures Valid() && fresh(values) && values.Length == numIndexes
      ensures size == numIndexes && cursor == 0 && Contents() == []
      ensures this.name == name && this.staticAccess == staticAccess
    {
      size := numIndexes;
      this.name := name;
      this.staticAccess := staticAccess;
      cursor := 0;
      values := new UInt32[numIndexes];
    }

    /** The buffer holding `indexes`, full: the cursor is past the last one. */
    constructor FromValues(indexes: seq<int>, name: string, staticAccess: bool)
      ensures Valid() && fresh(values)
      ensures size == |indexes| && cursor == size && Contents() == Stored(indexes)
      ensures this.name == name && this.staticAccess == staticAccess
    {
      size := |indexes|;
      this.name := name;
      this.staticAccess := staticAccess;
      cursor := 0;
      values := new UInt32[|indexes|];
      new;
      for i := 0 to |indexes|
        invariant fresh(values) && values.Length == size == |indexes|
        invariant cursor == 0 && values[..i] == Stored(indexes)[..i]
      {
        values[i] := ToUInt32(indexes[i]);
      }
      cursor := size;
      assert values[..cursor] == Stored(indexes);
    }

    /** add: the index appended at the cursor, unless the buffer is full. */
    method Add(index: int) returns (outcome: Outcome)
      requires Valid()
      modifies this, values
      ensures Valid() && values == old(values)
      ensures old(cursor) == size ==>
        outcome == Fail(BufferOverflow) && cursor == old(cursor) && values[..] == old(values[..])
      ensures old(cursor) < size ==>
        outcome == Pass && cursor == old(cursor) + 1 &&
        values[..] == old(values[..])[old(cursor) := ToUInt32(index)] &&
        Contents() == old(Contents()) + [ToUInt32(index)]
    {
      if cursor > size - 1 {
        return Fail(BufferOverflow);
      }
      values[cursor] := ToUInt32(index);
      cursor := cursor + 1;
      return Pass;
    }

    /** set: position `index` overwritten, unless the buffer is static or
        the position is outside it; the cursor does not move. */
    method Set(index: int, value: int) returns (outcome: Outcome)
      requires Valid()
      modifies values
      ensures staticAccess ==> outcome == Fail(StaticAccess) && values[..] == old(values[..])
      ensures !staticAccess && !(0 <= index < size) ==>
        outcome == Fail(IndexOutOfRange(index)) && values[..] == old(values[..])
      ensures !staticAccess && 0 <= index < size ==>
        outcome == Pass && values[..] == old(values[..])[index := ToUInt32(value)]
    {
      if staticAccess {
        return Fail(StaticAccess);
      }
      if index < 0 || index > size - 1 {
        return Fail(IndexOutOfRange(index));
      }
      values[index] := ToUInt32(value);
      return Pass;
    }

    /** get: the word stored at `index`; the source does not check it. */
    method Get(index: nat) returns (v: UInt32)
      requires index < values.Length
      ensures v == values[index]
      ensures Valid() && index < cursor ==> v == Contents()[index]
    {
      v := values[index];
    }
  }

  /** Adding indexes one by one to an empty buffer of the same size gives
      the same contents as building the buffer from them: both are
      Stored(indexes). */
  method AddAll(indexes: seq<int>, name: string, staticAccess: bool) returns (b: ElementBuffer)
    ensures fresh(b) && b.Valid() && b.cursor == b.size == |indexes|
    ensures b.Contents() == Stored(indexes)
  {
    b := new ElementBuffer.Sized(|indexes|, name, staticAccess);
    for i := 0 to |indexes|
      invariant fresh(b) && fresh(b.values) && b.Valid() && b.size == |indexes|
      invariant b.cursor == i && b.Contents() == Stored(indexes)[..i]
    {
      var outcome := b.Add(indexes[i]);
      assert Stored(indexes)[..i + 1] == Stored(indexes)[..i] + [ToUInt32(indexes[i])];
    }
    assert Stored(indexes)[..|indexes|] == Stored(indexes);
  }
}
