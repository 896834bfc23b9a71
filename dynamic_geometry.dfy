/**
 * The vertex-buffer table of src/webgl-geometries/DynamicGeometry.js.
 *
 * A dynamic geometry keeps its buffers in three parallel arrays of its
 * `spec` (names, data and vector sizes) and lists in `invalidations` the
 * indices of the buffers whose data changed since the renderer last read
 * them. Geometry.js, the base class, is not part of this model: the id,
 * the initial draw type and `DEFAULT_BUFFER_SIZE` reach the constructor as
 * parameters, and a new geometry has no buffers.
 */
module WebglGeometries {
  import opened Wrappers

  /** `Array.prototype.indexOf`: the first position of `x` in `s`, or -1. */
  function IndexOf<T(==)>(s: seq<T>, x: T): (r: int)
    ensures -1 <= r < |s|
    ensures r == -1 <==> x !in s
    ensures r >= 0 ==> s[r] == x && x !in s[..r]
  {
    if |s| == 0 then -1
    else if s[0] == x then 0
    else
      var k := IndexOf(s[1..], x);
      if k == -1 then -1
      else
        assert s[..k + 1] == [s[0]] + s[1..][..k];
        k + 1
  }

  /** Appending leaves the position of every element already present unchanged. */
  lemma {:induction false} IndexOfAppend<T>(s: seq<T>, x: T, y: T)
    requires y in s
    ensures IndexOf(s + [x], y) == IndexOf(s, y)
  {
    if s[0] != y {
      assert (s + [x])[1..] == s[1..] + [x];
      IndexOfAppend(s[1..], x, y);
    }
  }

  /** No element occurs twice. */
  predicate Distinct<T(==)>(s: seq<T>) {
    forall i, j :: 0 <= i < j < |s| ==> s[i] != s[j]
  }

  /** In a sequence without repeats, `IndexOf` finds the one position holding `s[i]`. */
  lemma IndexOfDistinct<T>(s: seq<T>, i: int)
    requires Distinct(s) && 0 <= i < |s|
    ensures IndexOf(s, s[i]) == i
  {
  }

  /** Every index in `inv` is below `n`. */
  predicate IndicesBelow(inv: seq<nat>, n: nat) {
    forall j :: 0 <= j < |inv| ==> inv[j] < n
  }

  /** `s` with `v` at index `i`; writing one past the end appends, as a JavaScript array does. */
  function Store<T>(s: seq<T>, i: nat, v: T): (r: seq<T>)
    requires i <= |s|
    ensures |r| == if i == |s| then |s| + 1 else |s|
    ensures r[i] == v && forall j :: 0 <= j < |s| && j != i ==> r[j] == s[j]
  {
    if i == |s| then s + [v] else s[i := v]
  }

  /** The buffer arrays of a geometry's `spec`. */
  datatype BufferTable = BufferTable(names: seq<string>, values: seq<seq<real>>, spacings: seq<nat>, invalidations: seq<nat>)
  {
    /**
     * What every geometry keeps: the three arrays run in parallel, no name
     * occurs twice, and each invalidation names an existing buffer once.
     */
    predicate Valid() {
      && |values| == |names| && |spacings| == |names|
      && Distinct(names) && Distinct(invalidations)
      && IndicesBelow(invalidations, |names|)
    }
  }

  /** `value || []`: a missing buffer value stands for an empty one. */
  function ValueOrEmpty(value: Option<seq<real>>): seq<real> {
    value.GetOr([])
  }

  /** `size || DEFAULT_BUFFER_SIZE`: a missing or zero size takes the default. */
  function SizeOrDefault(size: Option<nat>, default: nat): (r: nat)
    ensures size.Some? && size.value != 0 ==> r == size.value
    ensures size.None? || size.value == 0 ==> r == default
  {
    if size.None? || size.value == 0 then default else size.value
  }

  /** The buffer names once `name` is registered: appended when absent. */
  function Grown(names: seq<string>, name: string): (r: seq<string>)
    ensures name in r && forall n :: n in r <==> n in names || n == name
  {
    names + if name in names then [] else [name]
  }

  /** The index `setVertexBuffer` stores `name` at: its own, or the next free one when it is new. */
  function Slot(names: seq<string>, name: string): (i: nat)
    requires Distinct(names)
    ensures i <= |names| && (i < |names| <==> name in names)
    ensures i < |names| ==> names[i] == name
    ensures Distinct(Grown(names, name)) && IndexOf(Grown(names, name), name) == i
  {
    var idx := IndexOf(names, name);
    if idx == -1 then
      IndexOfDistinct(names + [name], |names|);
      |names|
    else
      idx
  }

  /** Records index `i` as invalidated unless it already is. */
  function Invalidate(invalidations: seq<nat>, i: nat): (r: seq<nat>)
    requires Distinct(invalidations)
    ensures Distinct(r) && forall k :: k in r <==> k in invalidations || k == i
    ensures r == invalidations + if i in invalidations then [] else [i]
  {
    if i in invalidations then invalidations else invalidations + [i]
  }

  /** The table after `setVertexBuffer(name, value, size)`. */
  function SetBuffer(t: BufferTable, name: string, value: Option<seq<real>>, size: Option<nat>, default: nat)
    : (r: BufferTable)
    requires t.Valid()
    ensures r.Valid()
  {
    var i := Slot(t.names, name);
    BufferTable(Grown(t.names, name), Store(t.values, i, ValueOrEmpty(value)),
                Store(t.spacings, i, SizeOrDefault(size, default)), Invalidate(t.invalidations, i))
  }

  /**
   * What `setVertexBuffer` does to the table: the name is appended only
   * when absent, its index gets the value and the size, no other index
   * changes, and the index joins the invalidations unless it is already
   * there.
   */
  lemma SetBufferStores(t: BufferTable, name: string, value: Option<seq<real>>, size: Option<nat>, default: nat)
    requires t.Valid()
    ensures var r := SetBuffer(t, name, value, size, default);
      && r.names == t.names + (if name in t.names then [] else [name])
      && var i := IndexOf(r.names, name);
      && 0 <= i < |r.names|
      && r.values[i] == ValueOrEmpty(value)
      && r.spacings[i] == SizeOrDefault(size, default)
      && r.invalidations == t.invalidations + (if i in t.invalidations then [] else [i])
      && forall j :: 0 <= j < |t.names| && t.names[j] != name ==>
           r.values[j] == t.values[j] && r.spacings[j] == t.spacings[j]
  {
  }

  /** `getVertexBuffer(name)` on the table. */
  function Lookup(t: BufferTable, name: string): (r: Result<seq<real>>)
    requires t.Valid()
    ensures name == "" ==> r == Failure("getVertexBuffer requires a name")
    ensures name != "" && name !in t.names ==> r == Failure("buffer does not exist")
    ensures forall i :: 0 <= i < |t.names| && t.names[i] == name && name != "" ==> r == Success(t.values[i])
  {
    if name == "" then Failure("getVertexBuffer requires a name")
    else
      var idx := IndexOf(t.names, name);
      if idx != -1 then
        assert forall i :: 0 <= i < |t.names| && t.names[i] == name ==> i == idx by {
          forall i | 0 <= i < |t.names| && t.names[i] == name
            ensures i == idx
          {
            IndexOfDistinct(t.names, i);
          }
        }
        Success(t.values[idx])
      else Failure("buffer does not exist")
  }

  /** Reading a buffer back after setting it gives the value set, or `[]` for a missing value. */
  lemma LookupAfterSet(t: BufferTable, name: string, value: Option<seq<real>>, size: Option<nat>, default: nat)
    requires t.Valid() && name != ""
    ensures Lookup(SetBuffer(t, name, value, size, default), name) == Success(ValueOrEmpty(value))
  {
    SetBufferStores(t, name, value, size, default);
    var r := SetBuffer(t, name, value, size, default);
    var i := IndexOf(r.names, name);
    assert r.names[i] == name;
  }

  /** Setting one buffer leaves what every other name reads unchanged. */
  lemma LookupOtherAfterSet(t: BufferTable, name: string, value: Option<seq<real>>, size: Option<nat>, default: nat,
                            other: string)
    requires t.Valid() && other != name
    ensures Lookup(SetBuffer(t, name, value, size, default), other) == Lookup(t, other)
  {
    SetBufferStores(t, name, value, size, default);
    var r := SetBuffer(t, name, value, size, default);
    if other != "" && other in t.names {
      var i := IndexOf(t.names, other);
      assert r.names[i] == other;
    }
  }

  /**
   * The table after `fromGeometry` has copied the buffers `names`,
   * `values`, `spacings` of another geometry from index `from` on, one
   * `setVertexBuffer` per buffer in order.
   */
  function CopyBuffers(t: BufferTable, names: seq<string>, values: seq<seq<real>>, spacings: seq<nat>, default: nat,
                       from: nat): (r: BufferTable)
    requires t.Valid() && |values| == |names| && |spacings| == |names| && from <= |names|
    ensures r.Valid()
    decreases |names| - from
  {
    if from == |names| then t
    else
      CopyBuffers(SetBuffer(t, names[from], Some(values[from]), Some(spacings[from]), default),
                  names, values, spacings, default, from + 1)
  }

  /** Copying buffers with other names leaves a buffer where it is, with its data and size. */
  lemma {:induction false} CopyBuffersKeepsOthers(t: BufferTable, names: seq<string>, values: seq<seq<real>>,
                                                  spacings: seq<nat>, default: nat, from: nat, other: string)
    requires t.Valid() && |values| == |names| && |spacings| == |names| && from <= |names|
    requires other in t.names && forall j :: from <= j < |names| ==> names[j] != other
    ensures var r := CopyBuffers(t, names, values, spacings, default, from);
      var i := IndexOf(t.names, other);
      && IndexOf(r.names, other) == i
      && r.values[i] == t.values[i] && r.spacings[i] == t.spacings[i]
    decreases |names| - from
  {
    if from < |names| {
      var next := SetBuffer(t, names[from], Some(values[from]), Some(spacings[from]), default);
      SetBufferKeepsOthers(t, names[from], Some(values[from]), Some(spacings[from]), default, other);
      CopyBuffersKeepsOthers(next, names, values, spacings, default, from + 1, other);
    }
  }

  /**
   * After `fromGeometry` from a geometry with no repeated names, every one
   * of its buffers is present with its data and its size (a zero size
   * becomes the default, as `size || DEFAULT_BUFFER_SIZE` makes it).
   */
  lemma {:induction false} CopyBuffersCopiesEveryBuffer(t: BufferTable, names: seq<string>, values: seq<seq<real>>,
                                                        spacings: seq<nat>, default: nat, from: nat, k: nat)
    requires t.Valid() && |values| == |names| && |spacings| == |names|
    requires Distinct(names) && from <= k < |names|
    ensures var r := CopyBuffers(t, names, values, spacings, default, from);
      var i := IndexOf(r.names, names[k]);
      && 0 <= i < |r.names|
      && r.values[i] == values[k]
      && r.spacings[i] == SizeOrDefault(Some(spacings[k]), default)
    decreases |names| - from
  {
    var next := SetBuffer(t, names[from], Some(values[from]), Some(spacings[from]), default);
    if k == from {
      SetBufferStores(t, names[from], Some(values[from]), Some(spacings[from]), default);
      CopyBuffersKeepsOthers(next, names, values, spacings, default, from + 1, names[k]);
    } else {
      CopyBuffersCopiesEveryBuffer(next, names, values, spacings, default, from + 1, k);
    }
  }

  /** Setting one buffer moves no other buffer and leaves its data and size alone. */
  lemma SetBufferKeepsOthers(t: BufferTable, name: string, value: Option<seq<real>>, size: Option<nat>, default: nat,
                             other: string)
    requires t.Valid() && other in t.names && other != name
    ensures var r := SetBuffer(t, name, value, size, default);
      var i := IndexOf(t.names, other);
      && IndexOf(r.names, other) == i
      && r.values[i] == t.values[i] && r.spacings[i] == t.spacings[i]
  {
    SetBufferStores(t, name, value, size, default);
    if name !in t.names {
      IndexOfAppend(t.names, name, other);
    }
  }

  /** ASCII upper case, one character. */
  function UpperChar(c: char): char {
    if 'a' <= c <= 'z' then (c as int - 32) as char else c
  }

  /** `String.prototype.toUpperCase` on ASCII letters. */
  function ToUpper(s: string): (r: string)
    ensures |r| == |s|
    ensures forall i :: 0 <= i < |s| ==> r[i] == UpperChar(s[i])
    ensures forall i :: 0 <= i < |r| ==> !('a' <= r[i] <= 'z')
  {
    seq(|s|, i requires 0 <= i < |s| => UpperChar(s[i]))
  }

  /** Upper-casing twice is upper-casing once. */
  lemma ToUpperIdempotent(s: string)
    ensures ToUpper(ToUpper(s)) == ToUpper(s)
  {
  }

  /** The named buffers and the vector sizes their setters give. */
  const PositionsName := "a_pos"
  const NormalsName := "a_normals"
  const TextureCoordsName := "a_texCoord"
  const IndicesName := "indices"

  /** A dynamic geometry: its `spec` fields and the default vector size. */
  class DynamicGeometry {
    const id: nat
    const defaultBufferSize: nat
    var drawType: string
    var dynamic: bool
    var bufferNames: seq<string>
    var bufferValues: seq<seq<real>>
    var bufferSpacings: seq<nat>
    var invalidations: seq<nat>

    /** The four buffer arrays as one value. */
    function Table(): BufferTable
      reads this`bufferNames, this`bufferValues, this`bufferSpacings, this`invalidations
    {
      BufferTable(bufferNames, bufferValues, bufferSpacings, invalidations)
    }

    predicate Valid()
      reads this`bufferNames, this`bufferValues, this`bufferSpacings, this`invalidations
    {
      Table().Valid()
    }

    /** `new DynamicGeometry(options)`: no buffers yet, and `spec.dynamic` set. */
    constructor (id: nat, drawType: string, defaultBufferSize: nat)
      ensures this.id == id && this.drawType == drawType && this.defaultBufferSize == defaultBufferSize
      ensures dynamic && Table() == BufferTable([], [], [], []) && Valid()
    {
      this.id := id;
      this.drawType := drawType;
      this.defaultBufferSize := defaultBufferSize;
      bufferNames, bufferValues, bufferSpacings, invalidations := [], [], [], [];
      dynamic := true;
    }

    /**
     * `getVertexBuffer(bufferName)`: throws on an empty name or an unknown
     * buffer, and otherwise returns the values stored under the name.
     */
    function GetVertexBuffer(name: string): (r: Result<seq<real>>)
      requires Valid()
      reads this`bufferNames, this`bufferValues, this`bufferSpacings, this`invalidations
      ensures r.Failure? <==> name == "" || name !in bufferNames
      ensures name == "" ==> r == Failure("getVertexBuffer requires a name")
      ensures name != "" && name !in bufferNames ==> r == Failure("buffer does not exist")
      ensures forall i :: 0 <= i < |bufferNames| && bufferNames[i] == name && name != "" ==> r == Success(bufferValues[i])
    {
      Lookup(Table(), name)
    }

    /**
     * `setVertexBuffer(bufferName, value, size)`: find or append the name,
     * store the value and the size at its index, and record the index as
     * invalidated unless it already is.
     */
    method SetVertexBuffer(name: string, value: Option<seq<real>>, size: Option<nat>)
      requires Valid()
      modifies this`bufferNames, this`bufferValues, this`bufferSpacings, this`invalidations
      ensures Valid()
      ensures Table() == SetBuffer(old(Table()), name, value, size, defaultBufferSize)
    {
      var names := bufferNames;
      var idx := IndexOf(names, name);
      if idx == -1 {
        names := names + [name];
        idx := |names| - 1;
      }
      var pending := invalidations;
      if IndexOf(pending, idx) == -1 {
        pending := pending + [idx];
      }
      assert idx == Slot(bufferNames, name) && names == Grown(bufferNames, name);
      bufferNames, bufferValues, bufferSpacings, invalidations :=
        names, Store(bufferValues, idx, ValueOrEmpty(value)),
        Store(bufferSpacings, idx, SizeOrDefault(size, defaultBufferSize)), pending;
    }

    /**
     * `fromGeometry(geometry)`: `setVertexBuffer` for each buffer of the
     * other geometry, in order. The other geometry's arrays are read as
     * they are when the copy starts.
     */
    method FromGeometry(other: DynamicGeometry)
      requires Valid() && other.Valid()
      modifies this`bufferNames, this`bufferValues, this`bufferSpacings, this`invalidations
      ensures Valid()
      ensures Table() == CopyBuffers(old(Table()), old(other.bufferNames), old(other.bufferValues),
                                     old(other.bufferSpacings), defaultBufferSize, 0)
    {
      var names, values, spacings := other.bufferNames, other.bufferValues, other.bufferSpacings;
      ghost var start := Table();
      var len := |names|;
      var i := 0;
      while i < len
        invariant 0 <= i <= len && Valid()
        invariant CopyBuffers(Table(), names, values, spacings, defaultBufferSize, i)
               == CopyBuffers(start, names, values, spacings, defaultBufferSize, 0)
      {
        SetVertexBuffer(names[i], Some(values[i]), Some(spacings[i]));
        i := i + 1;
      }
    }

    /** `setVertexPositions(value)`: the `a_pos` buffer, three values per vertex. */
    method SetVertexPositions(value: Option<seq<real>>)
      requires Valid()
      modifies this`bufferNames, this`bufferValues, this`bufferSpacings, this`invalidations
      ensures Valid()
      ensures Table() == SetBuffer(old(Table()), PositionsName, value, Some(3), defaultBufferSize)
    {
      SetVertexBuffer(PositionsName, value, Some(3));
    }

    /** `setNormals(value)`: the `a_normals` buffer, three values per vertex. */
    method SetNormals(value: Option<seq<real>>)
      requires Valid()
      modifies this`bufferNames, this`bufferValues, this`bufferSpacings, this`invalidations
      ensures Valid()
      ensures Table() == SetBuffer(old(Table()), NormalsName, value, Some(3), defaultBufferSize)
    {
      SetVertexBuffer(NormalsName, value, Some(3));
    }

    /** `setTextureCoords(value)`: the `a_texCoord` buffer, two values per vertex. */
    method SetTextureCoords(value: Option<seq<real>>)
      requires Valid()
      modifies this`bufferNames, this`bufferValues, this`bufferSpacings, this`invalidations
      ensures Valid()
      ensures Table() == SetBuffer(old(Table()), TextureCoordsName, value, Some(2), defaultBufferSize)
    {
      SetVertexBuffer(TextureCoordsName, value, Some(2));
    }

    /** `setIndices(value)`: the `indices` buffer, one value per entry. */
    method SetIndices(value: Option<seq<real>>)
      requires Valid()
      modifies this`bufferNames, this`bufferValues, this`bufferSpacings, this`invalidations
      ensures Valid()
      ensures Table() == SetBuffer(old(Table()), IndicesName, value, Some(1), defaultBufferSize)
    {
      SetVertexBuffer(IndicesName, value, Some(1));
    }

    /** `setDrawType(value)`: the primitive name, upper-cased. */
    method SetDrawType(value: string)
      modifies this`drawType
      ensures drawType == ToUpper(value)
    {
      drawType := ToUpper(value);
    }

    /** `getVertexPositions()`: the buffer named PositionsName; "buffer does not exist" when there is none. */
    function GetVertexPositions(): (r: Result<seq<real>>)
      requires Valid()
      reads this`bufferNames, this`bufferValues, this`bufferSpacings, this`invalidations
      ensures r.Success? <==> PositionsName in bufferNames
      ensures r.Failure? ==> r.error == "buffer does not exist"
      ensures forall i :: 0 <= i < |bufferNames| && bufferNames[i] == PositionsName ==> r == Success(bufferValues[i])
    {
      GetVertexBuffer(PositionsName)
    }

    /** `getNormals()`: the buffer named NormalsName; "buffer does not exist" when there is none. */
    function GetNormals(): (r: Result<seq<real>>)
      requires Valid()
      reads this`bufferNames, this`bufferValues, this`bufferSpacings, this`invalidations
      ensures r.Success? <==> NormalsName in bufferNames
      ensures r.Failure? ==> r.error == "buffer does not exist"
      ensures forall i :: 0 <= i < |bufferNames| && bufferNames[i] == NormalsName ==> r == Success(bufferValues[i])
    {
      GetVertexBuffer(NormalsName)
    }

    /** `getTextureCoords()`: the buffer named TextureCoordsName; "buffer does not exist" when there is none. */
    function GetTextureCoords(): (r: Result<seq<real>>)
      requires Valid()
      reads this`bufferNames, this`bufferValues, this`bufferSpacings, this`invalidations
      ensures r.Success? <==> TextureCoordsName in bufferNames
      ensures r.Failure? ==> r.error == "buffer does not exist"
      ensures forall i :: 0 <= i < |bufferNames| && bufferNames[i] == TextureCoordsName ==> r == Success(bufferValues[i])
    {
      GetVertexBuffer(TextureCoordsName)
    }

    /** `getLength()`: the length of the position buffer; fails when there is none. */
    function GetLength(): (r: Result<nat>)
      requires Valid()
      reads this`bufferNames, this`bufferValues, this`bufferSpacings, this`invalidations
      ensures r.Success? <==> PositionsName in bufferNames
      ensures r.Failure? ==> r.error == "buffer does not exist"
      ensures forall i :: 0 <= i < |bufferNames| && bufferNames[i] == PositionsName ==> r == Success(|bufferValues[i]|)
    {
      match GetVertexPositions()
      case Success(v) => Success(|v|)
      case Failure(e) => Failure(e)
    }
  }

  /**
   * `getVertexPositions()` after `setVertexPositions(value)` returns the
   * value (or `[]` when none was given), and `getLength()` its length.
   */
  lemma PositionsRoundTrip(t: BufferTable, value: Option<seq<real>>, default: nat)
    requires t.Valid()
    ensures var r := SetBuffer(t, PositionsName, value, Some(3), default);
      && Lookup(r, PositionsName) == Success(ValueOrEmpty(value))
      && r.spacings[IndexOf(r.names, PositionsName)] == 3
  {
    LookupAfterSet(t, PositionsName, value, Some(3), default);
    SetBufferStores(t, PositionsName, value, Some(3), default);
  }
}
