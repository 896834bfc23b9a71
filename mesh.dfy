/**
 * The change-queue protocol of src/webgl-renderables/Mesh.js.
 *
 * A mesh collects the draw commands that describe its state in a change
 * queue. Commands that need the renderer to know the mesh (geometry,
 * buffers, uniforms) are queued only once the mesh is initialised; a set
 * that changes nothing is dropped unless the mesh is redrawing itself;
 * every change asks the node for an update, but only while no request is
 * outstanding; and the update sends the queue to the node in order and
 * empties it. The node records what it is sent (see module Scene).
 */
module WebglRenderables {
  import opened Wrappers
  import opened Scene
  import opened WebglGeometries

  /** The primitive names `setGeometry` accepts (src/webgl-geometries/primitives/index.js). */
  const Primitives: set<string> := {"Box", "Circle", "Cylinder", "GeodesicSphere", "Icosahedron", "ParametricCone",
                                    "Plane", "Sphere", "Tetrahedron", "Torus", "Triangle"}

  /** The node a mounted mesh draws through, and the id that node gave it (`_node` and `_id`). */
  datatype Mount = Mount(node: Node, id: nat)

  /**
   * The argument of `setGeometry`: a primitive name, with the geometry that
   * primitive's constructor builds, or a geometry. The built geometry is a
   * new object, so it is never the mesh's current one.
   */
  datatype GeometryArg = Named(name: string, built: DynamicGeometry) | Given(geometry: DynamicGeometry)
  {
    /** The geometry the mesh switches to when the argument is accepted. */
    function Target(): DynamicGeometry {
      if Named? then built else geometry
    }
  }

  /** The nodes a mesh may write to: its own, when it has one. */
  function Nodes(mount: Option<Mount>): set<Node> {
    if mount.Some? then {mount.value.node} else {}
  }

  /** What `_requestUpdate` asks of the node: nothing while a request is outstanding. */
  function UpdateRequest(requesting: bool, id: nat): seq<Request> {
    if requesting then [] else [Request.RequestUpdate(id)]
  }

  /** A `GL_UNIFORMS` record: the uniform's name and its value. */
  function Uniform(name: string, value: Token): seq<Token> {
    [Cmd(GlUniforms), Text(name), value]
  }

  /** The `GL_SET_GEOMETRY` record for a geometry: its id, primitive type and `dynamic` flag. */
  function GeometryRecord(g: DynamicGeometry): seq<Token>
    reads g`drawType, g`dynamic
  {
    [Cmd(GlSetGeometry), Int(g.id), Text(g.drawType), Flag(g.dynamic)]
  }

  /** The arrays of a table run in parallel. */
  predicate Parallel(t: BufferTable) {
    |t.values| == |t.names| && |t.spacings| == |t.names|
  }

  /** The `GL_BUFFER_DATA` record for buffer `k`: the geometry's id, the buffer's name, data and size, and `dynamic`. */
  function BufferDataRecord(id: nat, dynamic: bool, t: BufferTable, k: nat): seq<Token>
    requires Parallel(t) && k < |t.names|
  {
    [Cmd(GlBufferData), Int(id), Text(t.names[k]), Reals(t.values[k]), Int(t.spacings[k]), Flag(dynamic)]
  }

  /**
   * The records `setGeometry` queues while it pops the invalidations `inv`:
   * one for the buffer each popped index names. Popping takes the last
   * index first, so the records for `inv[1..]` precede that of `inv[0]`.
   */
  function BufferDataRecords(id: nat, dynamic: bool, t: BufferTable, inv: seq<nat>): (r: seq<Token>)
    requires Parallel(t) && IndicesBelow(inv, |t.names|)
    ensures |r| == 6 * |inv|
  {
    if |inv| == 0 then []
    else BufferDataRecords(id, dynamic, t, inv[1..]) + BufferDataRecord(id, dynamic, t, inv[0])
  }

  /**
   * Every invalidated buffer is sent, with its own name, data and size: the
   * `p`-th record sent is the one for the `p`-th invalidation from the end.
   */
  lemma {:induction false} BufferDataRecordsSendEachInvalidation(id: nat, dynamic: bool, t: BufferTable,
                                                                 inv: seq<nat>, j: nat)
    requires Parallel(t) && IndicesBelow(inv, |t.names|) && j < |inv|
    ensures var p := |inv| - 1 - j;
      BufferDataRecords(id, dynamic, t, inv)[6 * p..6 * p + 6] == BufferDataRecord(id, dynamic, t, inv[j])
  {
    var rest := BufferDataRecords(id, dynamic, t, inv[1..]);
    var p := |inv| - 1 - j;
    if j == 0 {
      assert (rest + BufferDataRecord(id, dynamic, t, inv[0]))[6 * p..6 * p + 6] == BufferDataRecord(id, dynamic, t, inv[0]);
    } else {
      BufferDataRecordsSendEachInvalidation(id, dynamic, t, inv[1..], j - 1);
      assert (rest + BufferDataRecord(id, dynamic, t, inv[0]))[6 * p..6 * p + 6] == rest[6 * p..6 * p + 6];
    }
  }

  /**
   * The records as Mesh.js:139-150 builds them: the loop counter `i`, a
   * position in the invalidation list, is used as the buffer index, and
   * the index popped from the list is dropped.
   */
  function BufferDataRecordsAsWritten(id: nat, dynamic: bool, t: BufferTable, n: nat): (r: seq<Token>)
    requires Parallel(t) && n <= |t.names|
    ensures |r| == 6 * n
  {
    if n == 0 then []
    else BufferDataRecord(id, dynamic, t, n - 1) + BufferDataRecordsAsWritten(id, dynamic, t, n - 1)
  }

  /**
   * As written, a geometry whose normals alone changed sends its positions
   * under `GL_BUFFER_DATA` and never its normals.
   */
  lemma AsWrittenSendsWrongBuffer()
    ensures var t := BufferTable(["a_pos", "a_normals"], [[1.0], [2.0]], [3, 3], [1]);
      && t.Valid()
      && BufferDataRecordsAsWritten(0, true, t, |t.invalidations|)[2] == Text("a_pos")
      && BufferDataRecords(0, true, t, t.invalidations)[2] == Text("a_normals")
  {
    var t := BufferTable(["a_pos", "a_normals"], [[1.0], [2.0]], [3, 3], [1]);
    assert BufferDataRecords(0, true, t, t.invalidations) == [] + BufferDataRecord(0, true, t, 1);
  }

  /**
   * The two agree while each invalidation sits at its own position, as it
   * does when a geometry's buffers are first set in order.
   */
  lemma {:induction false} AsWrittenAgreesWhenInOrder(id: nat, dynamic: bool, t: BufferTable, inv: seq<nat>)
    requires Parallel(t) && |inv| <= |t.names| && forall j :: 0 <= j < |inv| ==> inv[j] == j
    ensures BufferDataRecordsAsWritten(id, dynamic, t, |inv|) == BufferDataRecords(id, dynamic, t, inv)
  {
    // Both sides are built from the back of `inv`; compare them one record at a time.
    var n := |inv|;
    var w := BufferDataRecordsAsWritten(id, dynamic, t, n);
    var r := BufferDataRecords(id, dynamic, t, inv);
    forall p | 0 <= p < n
      ensures w[6 * p..6 * p + 6] == r[6 * p..6 * p + 6]
    {
      AsWrittenRecordAt(id, dynamic, t, n, n - 1 - p);
      BufferDataRecordsSendEachInvalidation(id, dynamic, t, inv, n - 1 - p);
    }
    SameRecords(w, r, n);
  }

  /** The `p`-th record of the as-written list is the one for position `n - 1 - p`. */
  lemma {:induction false} AsWrittenRecordAt(id: nat, dynamic: bool, t: BufferTable, n: nat, j: nat)
    requires Parallel(t) && n <= |t.names| && j < n
    ensures var p := n - 1 - j;
      BufferDataRecordsAsWritten(id, dynamic, t, n)[6 * p..6 * p + 6] == BufferDataRecord(id, dynamic, t, j)
  {
    var rest := BufferDataRecordsAsWritten(id, dynamic, t, n - 1);
    var p := n - 1 - j;
    if j == n - 1 {
      assert (BufferDataRecord(id, dynamic, t, n - 1) + rest)[0..6] == BufferDataRecord(id, dynamic, t, n - 1);
    } else {
      AsWrittenRecordAt(id, dynamic, t, n - 1, j);
      assert (BufferDataRecord(id, dynamic, t, n - 1) + rest)[6 * p..6 * p + 6] == rest[6 * (p - 1)..6 * (p - 1) + 6];
    }
  }

  /** Two lists of six-token records that agree record by record are equal. */
  lemma SameRecords(w: seq<Token>, r: seq<Token>, n: nat)
    requires |w| == 6 * n && |r| == 6 * n
    requires forall p :: 0 <= p < n ==> w[6 * p..6 * p + 6] == r[6 * p..6 * p + 6]
    ensures w == r
  {
    forall i | 0 <= i < |w|
      ensures w[i] == r[i]
    {
      var p := i / 6;
      assert w[6 * p..6 * p + 6][i - 6 * p] == r[6 * p..6 * p + 6][i - 6 * p];
    }
  }

  /** Dropping one element of a sequence without repeats leaves the others, still without repeats. */
  lemma DropOne(s: seq<nat>, j: nat)
    requires Distinct(s) && j < |s|
    ensures var rest := s[..j] + s[j + 1..];
      && |rest| == |s| - 1 && Distinct(rest)
      && forall i :: 0 <= i < |rest| ==> rest[i] == s[if i < j then i else i + 1]
  {
    var rest := s[..j] + s[j + 1..];
    assert forall i :: 0 <= i < |rest| ==> rest[i] == s[if i < j then i else i + 1];
  }

  /**
   * Distinct indices below `n` number at most `n`: a valid geometry has no
   * more invalidations than buffers, so the as-written loop stays within
   * the buffer arrays.
   */
  lemma {:induction false} DistinctBelow(s: seq<nat>, n: nat)
    requires Distinct(s) && IndicesBelow(s, n)
    ensures |s| <= n
    decreases n
  {
    if |s| > 0 {
      var j := IndexOf(s, n - 1);
      if j == -1 {
        DistinctBelow(s, n - 1);
      } else {
        DropOne(s, j);
        DistinctBelow(s[..j] + s[j + 1..], n - 1);
      }
    }
  }

  /**
   * The as-written drain indexes the buffer arrays with its counter, which
   * runs below the number of invalidations. A well-formed geometry has no
   * more invalidations than buffers, so those reads stay in bounds: the
   * as-written loop sends a wrong buffer but never reads past the arrays.
   */
  lemma AsWrittenStaysInBounds(id: nat, dynamic: bool, t: BufferTable)
    requires t.Valid()
    ensures |t.invalidations| <= |t.names|
    ensures |BufferDataRecordsAsWritten(id, dynamic, t, |t.invalidations|)| == 6 * |t.invalidations|
  {
    DistinctBelow(t.invalidations, |t.names|);
  }

  /** A mesh: its change queue, its protocol flags and the part of its `value` the protocol reads. */
  class Mesh {
    /** `_node` and `_id`: set while the mesh is mounted. */
    var mount: Option<Mount>
    var changeQueue: seq<Token>
    var initialized: bool
    var requestingUpdate: bool
    var inDraw: bool
    /** `value.geometry`, `value.drawOptions` and `value.flatShading`. */
    var geometry: DynamicGeometry
    var drawOptions: Option<DrawOptions>
    var flatShading: Option<bool>

    /**
     * `new Mesh(node, options)`: an empty queue, the Plane geometry (built
     * by Plane's constructor and passed in), the mesh added to `node`, and
     * `setDrawOptions(options)` when options are given.
     */
    constructor (node: Option<Node>, options: Option<DrawOptions>, plane: DynamicGeometry)
      modifies if node.Some? then {node.value} else {}
      ensures mount == None && !initialized && !requestingUpdate && !inDraw
      ensures geometry == plane && drawOptions == options && flatShading == None
      ensures changeQueue == if options.Some? then [Cmd(GlSetDrawOptions), Opts(options.value)] else []
      ensures node.Some? ==> node.value.components == old(node.value.components) + 1
      ensures node.Some? ==> unchanged(node.value`vectors, node.value`rotation, node.value`requests, node.value`commands)
    {
      mount := None;
      changeQueue := [];
      initialized, requestingUpdate, inDraw := false, false, false;
      geometry := plane;
      drawOptions, flatShading := None, None;
      new;
      if node.Some? {
        var _ := node.value.AddComponent();
      }
      if options.Some? {
        SetDrawOptions(options.value);
      }
    }

    /**
     * `_requestUpdate()`: ask the node for an update, unless none is
     * attached or a request is already outstanding.
     */
    method RequestUpdate()
      modifies this`requestingUpdate, Nodes(mount)`requests
      ensures requestingUpdate == (old(requestingUpdate) || mount.Some?)
      ensures mount.Some? ==>
        mount.value.node.requests == old(mount.value.node.requests) + UpdateRequest(old(requestingUpdate), mount.value.id)
    {
      if !requestingUpdate && mount.Some? {
        mount.value.node.RequestUpdate(mount.value.id);
        requestingUpdate := true;
      }
    }

    /** `setDrawOptions(options)`: always queued, whatever the state, and stored. */
    method SetDrawOptions(options: DrawOptions)
      modifies this`changeQueue, this`drawOptions
      ensures changeQueue == old(changeQueue) + [Cmd(GlSetDrawOptions), Opts(options)]
      ensures drawOptions == Some(options)
    {
      changeQueue := changeQueue + [Cmd(GlSetDrawOptions), Opts(options)];
      drawOptions := Some(options);
    }

    /**
     * `setGeometry(geometry)`: an unknown primitive name fails and changes
     * nothing. Otherwise the mesh switches to the geometry, queuing
     * `GL_SET_GEOMETRY` when it is a different one (always, for a primitive
     * name, which builds a new geometry) or the mesh is drawing,
     * and then, when initialised and attached, drains the geometry's
     * invalidations into `GL_BUFFER_DATA` records.
     */
    method SetGeometry(arg: GeometryArg) returns (r: Result<()>)
      requires geometry.Valid() && arg.Target().Valid()
      requires arg.Named? ==> arg.built != geometry
      modifies this`geometry, this`changeQueue, this`requestingUpdate, Nodes(mount)`requests
      modifies arg.Target()`invalidations
      ensures r.Failure? <==> arg.Named? && arg.name !in Primitives
      ensures r.Failure? ==> r.error == "Invalid geometry: \"" + arg.name + "\"."
      ensures r.Failure? ==> geometry == old(geometry) && changeQueue == old(changeQueue)
      ensures r.Failure? ==> requestingUpdate == old(requestingUpdate) && unchanged(Nodes(mount))
      ensures r.Failure? ==> unchanged(arg.Target())
      ensures r.Success? ==> geometry == arg.Target() && geometry.Valid()
      ensures r.Success? ==>
        var change := old(geometry) != arg.Target() || inDraw;
        var drain := initialized && mount.Some?;
        var invalidations := old(arg.Target().invalidations);
        && changeQueue == old(changeQueue) + (if change && initialized then GeometryRecord(geometry) else [])
             + (if drain then BufferDataRecords(geometry.id, geometry.dynamic, old(arg.Target().Table()), invalidations) else [])
        && geometry.invalidations == (if drain then [] else invalidations)
        && requestingUpdate == (old(requestingUpdate) || (mount.Some? && (change || (drain && |invalidations| > 0))))
        && (mount.Some? ==>
              mount.value.node.requests == old(mount.value.node.requests)
              + (if change || (drain && |invalidations| > 0) then UpdateRequest(old(requestingUpdate), mount.value.id) else []))
    {
      if arg.Named? && arg.name !in Primitives {
        return Failure("Invalid geometry: \"" + arg.name + "\".");
      }
      SwitchGeometry(arg.Target());
      DrainInvalidations();
      r := Success(());
    }

    /** The `GL_SET_GEOMETRY` half of `setGeometry`. */
    method SwitchGeometry(g: DynamicGeometry)
      modifies this`geometry, this`changeQueue, this`requestingUpdate, Nodes(mount)`requests
      ensures geometry == g
      ensures var change := old(geometry) != g || inDraw;
        && changeQueue == old(changeQueue) + (if change && initialized then GeometryRecord(g) else [])
        && requestingUpdate == (old(requestingUpdate) || (change && mount.Some?))
        && (mount.Some? ==>
              mount.value.node.requests == old(mount.value.node.requests)
              + (if change then UpdateRequest(old(requestingUpdate), mount.value.id) else []))
    {
      if geometry != g || inDraw {
        if initialized {
          changeQueue := changeQueue + GeometryRecord(g);
        }
        RequestUpdate();
        geometry := g;
      }
    }

    /**
     * The `GL_BUFFER_DATA` half of `setGeometry`: when initialised and
     * attached, pop every invalidation of the geometry and queue the record
     * of the buffer each popped index names.
     */
    method DrainInvalidations()
      requires geometry.Valid()
      modifies geometry`invalidations, this`changeQueue, this`requestingUpdate, Nodes(mount)`requests
      ensures geometry.Valid()
      ensures var drain := initialized && mount.Some?;
        var invalidations := old(geometry.invalidations);
        && changeQueue == old(changeQueue)
             + (if drain then BufferDataRecords(geometry.id, geometry.dynamic, old(geometry.Table()), invalidations) else [])
        && geometry.invalidations == (if drain then [] else invalidations)
        && requestingUpdate == (old(requestingUpdate) || (drain && |invalidations| > 0))
        && (mount.Some? ==>
              mount.value.node.requests == old(mount.value.node.requests)
              + (if drain && |invalidations| > 0 then UpdateRequest(old(requestingUpdate), mount.value.id) else []))
    {
      if initialized && mount.Some? {
        if |geometry.invalidations| > 0 {
          RequestUpdate();
        }
        PopInvalidations();
      }
    }

    /**
     * The `while (i--)` loop of `setGeometry`: pop the geometry's
     * invalidations one by one, last first, queuing the record of the
     * buffer each popped index names.
     */
    method PopInvalidations()
      requires geometry.Valid()
      modifies geometry`invalidations, this`changeQueue
      ensures geometry.invalidations == []
      ensures changeQueue == old(changeQueue)
                + BufferDataRecords(geometry.id, geometry.dynamic, old(geometry.Table()), old(geometry.invalidations))
    {
      var t := geometry.Table();
      var i := |geometry.invalidations|;
      ghost var invalidations := geometry.invalidations;
      while i > 0
        invariant 0 <= i <= |invalidations|
        invariant geometry.invalidations == invalidations[..i]
        invariant changeQueue == old(changeQueue) + BufferDataRecords(geometry.id, geometry.dynamic, t, invalidations[i..])
      {
        i := i - 1;
        var k := geometry.invalidations[i];
        geometry.invalidations := geometry.invalidations[..i];
        assert invalidations[i..][1..] == invalidations[i + 1..];
        changeQueue := changeQueue + BufferDataRecord(geometry.id, geometry.dynamic, t, k);
      }
      assert invalidations[0..] == invalidations;
    }

    /**
     * `setFlatShading(bool)`: stored always; queued (when initialised) and
     * requested only when the value changes or the mesh is drawing.
     */
    method SetFlatShading(b: bool)
      modifies this`flatShading, this`changeQueue, this`requestingUpdate, Nodes(mount)`requests
      ensures flatShading == Some(b)
      ensures var change := inDraw || old(flatShading) != Some(b);
        && changeQueue == old(changeQueue) + (if change && initialized then Uniform("u_flatShading", Int(if b then 1 else 0)) else [])
        && requestingUpdate == (old(requestingUpdate) || (change && mount.Some?))
        && (mount.Some? ==>
              mount.value.node.requests == old(mount.value.node.requests)
              + (if change then UpdateRequest(old(requestingUpdate), mount.value.id) else []))
    {
      if inDraw || flatShading != Some(b) {
        flatShading := Some(b);
        if initialized {
          changeQueue := changeQueue + Uniform("u_flatShading", Int(if b then 1 else 0));
        }
        RequestUpdate();
      }
    }

    /** `onShow()`: queue `GL_MESH_VISIBILITY` true, initialised or not, and request an update. */
    method OnShow()
      modifies this`changeQueue, this`requestingUpdate, Nodes(mount)`requests
      ensures changeQueue == old(changeQueue) + [Cmd(GlMeshVisibility), Flag(true)]
      ensures requestingUpdate == (old(requestingUpdate) || mount.Some?)
      ensures mount.Some? ==>
        mount.value.node.requests == old(mount.value.node.requests) + UpdateRequest(old(requestingUpdate), mount.value.id)
    {
      changeQueue := changeQueue + [Cmd(GlMeshVisibility), Flag(true)];
      RequestUpdate();
    }

    /** `onHide()`: queue `GL_MESH_VISIBILITY` false, initialised or not, and request an update. */
    method OnHide()
      modifies this`changeQueue, this`requestingUpdate, Nodes(mount)`requests
      ensures changeQueue == old(changeQueue) + [Cmd(GlMeshVisibility), Flag(false)]
      ensures requestingUpdate == (old(requestingUpdate) || mount.Some?)
      ensures mount.Some? ==>
        mount.value.node.requests == old(mount.value.node.requests) + UpdateRequest(old(requestingUpdate), mount.value.id)
    {
      changeQueue := changeQueue + [Cmd(GlMeshVisibility), Flag(false)];
      RequestUpdate();
    }

    /**
     * The shared shape of `onTransformChange`, `onSizeChange` and
     * `onOpacityChange`: queue the uniform only when initialised, request an
     * update always.
     */
    method QueueUniform(name: string, value: Token)
      modifies this`changeQueue, this`requestingUpdate, Nodes(mount)`requests
      ensures changeQueue == old(changeQueue) + (if initialized then Uniform(name, value) else [])
      ensures requestingUpdate == (old(requestingUpdate) || mount.Some?)
      ensures mount.Some? ==>
        mount.value.node.requests == old(mount.value.node.requests) + UpdateRequest(old(requestingUpdate), mount.value.id)
    {
      if initialized {
        changeQueue := changeQueue + Uniform(name, value);
      }
      RequestUpdate();
    }

    /** `onTransformChange(transform)`: `u_transform` with the node's world transform. */
    method OnTransformChange(worldTransform: seq<real>)
      modifies this`changeQueue, this`requestingUpdate, Nodes(mount)`requests
      ensures changeQueue == old(changeQueue) + (if initialized then Uniform("u_transform", Reals(worldTransform)) else [])
      ensures requestingUpdate == (old(requestingUpdate) || mount.Some?)
      ensures mount.Some? ==>
        mount.value.node.requests == old(mount.value.node.requests) + UpdateRequest(old(requestingUpdate), mount.value.id)
    {
      QueueUniform("u_transform", Reals(worldTransform));
    }

    /** `onSizeChange(x, y, z)`: `u_size` with the three extents. */
    method OnSizeChange(x: real, y: real, z: real)
      modifies this`changeQueue, this`requestingUpdate, Nodes(mount)`requests
      ensures changeQueue == old(changeQueue) + (if initialized then Uniform("u_size", Reals([x, y, z])) else [])
      ensures requestingUpdate == (old(requestingUpdate) || mount.Some?)
      ensures mount.Some? ==>
        mount.value.node.requests == old(mount.value.node.requests) + UpdateRequest(old(requestingUpdate), mount.value.id)
    {
      QueueUniform("u_size", Reals([x, y, z]));
    }

    /** `onOpacityChange(opacity)`: `u_opacity` with the node's world opacity. */
    method OnOpacityChange(worldOpacity: real)
      modifies this`changeQueue, this`requestingUpdate, Nodes(mount)`requests
      ensures changeQueue == old(changeQueue) + (if initialized then Uniform("u_opacity", Real(worldOpacity)) else [])
      ensures requestingUpdate == (old(requestingUpdate) || mount.Some?)
      ensures mount.Some? ==>
        mount.value.node.requests == old(mount.value.node.requests) + UpdateRequest(old(requestingUpdate), mount.value.id)
    {
      QueueUniform("u_opacity", Real(worldOpacity));
    }

    /**
     * `init()`: mark the mesh initialised, queue its transform, opacity and
     * size uniforms, and request an update. The values are read from the
     * transform and opacity systems and from the node's size, which are not
     * part of this model: they are parameters.
     */
    method Init(worldTransform: seq<real>, worldOpacity: real, size: Vec3)
      requires mount.Some?
      modifies this`initialized, this`changeQueue, this`requestingUpdate, mount.value.node`requests
      ensures initialized && requestingUpdate
      ensures changeQueue == old(changeQueue) + Uniform("u_transform", Reals(worldTransform))
                + Uniform("u_opacity", Real(worldOpacity)) + Uniform("u_size", Reals([size.x, size.y, size.z]))
      ensures mount.value.node.requests == old(mount.value.node.requests) + UpdateRequest(old(requestingUpdate), mount.value.id)
    {
      initialized := true;
      OnTransformChange(worldTransform);
      OnOpacityChange(worldOpacity);
      OnSizeChange(size.x, size.y, size.z);
      RequestUpdate();
    }

    /**
     * `draw()`: initialise, then re-send the whole state while `_inDraw`
     * makes every set count as a change: the geometry and its pending
     * buffers, the draw options and the flat-shading flag when set.
     */
    method Draw(worldTransform: seq<real>, worldOpacity: real, size: Vec3)
      requires mount.Some? && geometry.Valid()
      modifies this`inDraw, this`initialized, this`changeQueue, this`requestingUpdate, this`geometry
      modifies this`drawOptions, this`flatShading, mount.value.node`requests, geometry`invalidations
      ensures initialized && !inDraw && requestingUpdate && geometry == old(geometry)
      ensures drawOptions == old(drawOptions) && flatShading == old(flatShading)
      ensures changeQueue == old(changeQueue) + Uniform("u_transform", Reals(worldTransform))
                + Uniform("u_opacity", Real(worldOpacity)) + Uniform("u_size", Reals([size.x, size.y, size.z]))
                + GeometryRecord(geometry)
                + BufferDataRecords(geometry.id, geometry.dynamic, old(geometry.Table()), old(geometry.invalidations))
                + (if drawOptions.Some? then [Cmd(GlSetDrawOptions), Opts(drawOptions.value)] else [])
                + (if flatShading.Some? then Uniform("u_flatShading", Int(if flatShading.value then 1 else 0)) else [])
      ensures geometry.invalidations == []
      ensures mount.value.node.requests == old(mount.value.node.requests) + UpdateRequest(old(requestingUpdate), mount.value.id)
    {
      inDraw := true;
      Init(worldTransform, worldOpacity, size);
      ReapplyValue();
      inDraw := false;
    }

    /**
     * The middle of `draw()`, once `init()` has run: set the geometry again,
     * which while drawing always queues `GL_SET_GEOMETRY` and drains every
     * invalidated buffer, then re-send the stored settings. The update was
     * already requested by `init()`, so no further request is sent.
     */
    method ReapplyValue()
      requires inDraw && initialized && requestingUpdate && mount.Some? && geometry.Valid()
      modifies this`changeQueue, this`requestingUpdate, this`geometry, this`drawOptions, this`flatShading
      modifies mount.value.node`requests, geometry`invalidations
      ensures geometry == old(geometry) && requestingUpdate
      ensures drawOptions == old(drawOptions) && flatShading == old(flatShading)
      ensures changeQueue == old(changeQueue) + GeometryRecord(geometry)
                + BufferDataRecords(geometry.id, geometry.dynamic, old(geometry.Table()), old(geometry.invalidations))
                + (if drawOptions.Some? then [Cmd(GlSetDrawOptions), Opts(drawOptions.value)] else [])
                + (if flatShading.Some? then Uniform("u_flatShading", Int(if flatShading.value then 1 else 0)) else [])
      ensures geometry.invalidations == []
      ensures mount.value.node.requests == old(mount.value.node.requests)
    {
      var _ := SetGeometry(Given(geometry));
      ResendSettings();
    }

    /** The end of `draw()`: re-send the draw options and the flat-shading flag when they are set. */
    method ResendSettings()
      modifies this`drawOptions, this`flatShading, this`changeQueue, this`requestingUpdate, Nodes(mount)`requests
      ensures drawOptions == old(drawOptions) && flatShading == old(flatShading)
      ensures changeQueue == old(changeQueue)
                + (if drawOptions.Some? then [Cmd(GlSetDrawOptions), Opts(drawOptions.value)] else [])
                + (if flatShading.Some? && inDraw && initialized
                   then Uniform("u_flatShading", Int(if flatShading.value then 1 else 0)) else [])
      ensures requestingUpdate == (old(requestingUpdate) || (flatShading.Some? && inDraw && mount.Some?))
      ensures mount.Some? ==>
        mount.value.node.requests == old(mount.value.node.requests)
        + (if flatShading.Some? && inDraw then UpdateRequest(old(requestingUpdate), mount.value.id) else [])
    {
      if drawOptions.Some? {
        SetDrawOptions(drawOptions.value);
      }
      if flatShading.Some? {
        SetFlatShading(flatShading.value);
      }
    }

    /**
     * `onMount(node, id)`: keep the node and the id, then draw. The world
     * transform, world opacity and size are the values the transform and
     * opacity systems and the node would give.
     */
    method OnMount(node: Node, id: nat, worldTransform: seq<real>, worldOpacity: real, size: Vec3)
      requires geometry.Valid()
      modifies this`mount, this`inDraw, this`initialized, this`changeQueue, this`requestingUpdate, this`geometry
      modifies this`drawOptions, this`flatShading, node`requests, geometry`invalidations
      ensures mount == Some(Mount(node, id)) && initialized && !inDraw && geometry == old(geometry)
      ensures changeQueue == old(changeQueue) + Uniform("u_transform", Reals(worldTransform))
                + Uniform("u_opacity", Real(worldOpacity)) + Uniform("u_size", Reals([size.x, size.y, size.z]))
                + GeometryRecord(geometry)
                + BufferDataRecords(geometry.id, geometry.dynamic, old(geometry.Table()), old(geometry.invalidations))
                + (if drawOptions.Some? then [Cmd(GlSetDrawOptions), Opts(drawOptions.value)] else [])
                + (if flatShading.Some? then Uniform("u_flatShading", Int(if flatShading.value then 1 else 0)) else [])
      ensures geometry.invalidations == [] && requestingUpdate
      ensures node.requests == old(node.requests) + UpdateRequest(old(requestingUpdate), id)
    {
      mount := Some(Mount(node, id));
      Draw(worldTransform, worldOpacity, size);
    }

    /**
     * `onUpdate()` on a mounted node: send `WITH` and the node's location,
     * then every queued entry in queue order, empty the queue and clear the
     * outstanding request. With no node, or one not mounted, nothing
     * happens and the queue is kept.
     */
    method OnUpdate()
      modifies this`changeQueue, this`requestingUpdate, Nodes(mount)`commands
      ensures var live := mount.Some? && mount.value.node.mounted;
        && (live ==>
              && mount.value.node.commands
                 == old(mount.value.node.commands) + [Cmd(With), Text(mount.value.node.location)] + old(changeQueue)
              && changeQueue == [] && !requestingUpdate)
        && (!live ==> changeQueue == old(changeQueue) && requestingUpdate == old(requestingUpdate))
        && (!live && mount.Some? ==> mount.value.node.commands == old(mount.value.node.commands))
    {
      if mount.Some? && mount.value.node.mounted {
        var node := mount.value.node;
        node.SendDrawCommand(Cmd(With));
        node.SendDrawCommand(Text(node.location));
        requestingUpdate := false;
        var i := 0;
        while i < |changeQueue|
          invariant 0 <= i <= |changeQueue|
          invariant changeQueue == old(changeQueue) && !requestingUpdate
          invariant node.commands == old(node.commands) + [Cmd(With), Text(node.location)] + changeQueue[..i]
        {
          node.SendDrawCommand(changeQueue[i]);
          i := i + 1;
        }
        changeQueue := [];
      }
    }

    /**
     * `onDismount()`: tell the renderer to remove the mesh (`WITH`, the
     * location, `GL_REMOVE_MESH`), then forget the node and the drawing
     * state. The outstanding-request flag and the queue are kept.
     */
    method OnDismount()
      requires mount.Some?
      modifies this`initialized, this`inDraw, this`mount, mount.value.node`commands
      ensures !initialized && !inDraw && mount == None
      ensures var node := old(mount.value.node);
        node.commands == old(node.commands) + [Cmd(With), Text(node.location), Cmd(GlRemoveMesh)]
    {
      initialized := false;
      inDraw := false;
      var node := mount.value.node;
      node.SendDrawCommand(Cmd(With));
      node.SendDrawCommand(Text(node.location));
      node.SendDrawCommand(Cmd(GlRemoveMesh));
      mount := None;
    }
  }
}
