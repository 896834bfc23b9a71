/**
 * The transform component (src/components/Transform.js): six animatable
 * groups (origin, mount point, align, scale, position, rotation) created
 * lazily from the node's current value, the dirty-flag protocol that asks
 * the node for one update when the component first goes dirty, the
 * relative moves that build on the pending tail of each queue, and `clean`,
 * which flushes dirty groups to the node.
 */
module Components {
  import opened Wrappers
  import opened Quaternions
  import opened Transitions
  import opened Scene

  datatype Axis = X | Y | Z

  /** The order `set` scans the axes in when it places the callback: z first, then y, then x. */
  function Rank(a: Axis): nat {
    match a
    case X => 0
    case Y => 1
    case Z => 2
  }

  /** The `x, y, z` arguments of a vector setter; `None` is a `null` axis, which is left alone. */
  datatype Vec3Arg = Vec3Arg(x: Option<real>, y: Option<real>, z: Option<real>)
  {
    function At(a: Axis): Option<real> {
      match a
      case X => x
      case Y => y
      case Z => z
    }
  }

  /** Every axis given. */
  function AllAxes(v: Vec3): (r: Vec3Arg)
    ensures forall a :: r.At(a).Some?
  {
    Vec3Arg(Some(v.x), Some(v.y), Some(v.z))
  }

  /**
   * The axis whose transition carries the callback: the last axis given,
   * scanning z, then y, then x; `None` when every axis is `null`.
   */
  function CallbackAxis(v: Vec3Arg): (r: Option<Axis>)
    ensures r.None? <==> forall a :: v.At(a).None?
    ensures r.Some? ==> v.At(r.value).Some?
    ensures r.Some? ==> forall a :: Rank(a) > Rank(r.value) ==> v.At(a).None?
  {
    if v.z.Some? then assert v.At(Z).Some?; Some(Z)
    else if v.y.Some? then assert v.At(Y).Some?; Some(Y)
    else if v.x.Some? then assert v.At(X).Some?; Some(X)
    else None
  }

  /** The three channels of a `Vec3Transitionable`. */
  datatype Axes = Axes(x: Channel<real>, y: Channel<real>, z: Channel<real>)
  {
    function At(a: Axis): Channel<real> {
      match a
      case X => x
      case Y => y
      case Z => z
    }

    /** `get()`: the current value of each axis. */
    function Get(): Vec3 {
      Vec3(x.Get(), y.Get(), z.Get())
    }

    /** `isActive()`: some axis is still animating. */
    predicate IsActive() {
      x.IsActive() || y.IsActive() || z.IsActive()
    }

    /** `halt()` on each axis. */
    function Halt(): (r: Axes)
      ensures !r.IsActive() && r.Get() == Get()
    {
      Axes(x.Halt(), y.Halt(), z.Halt())
    }
  }

  /** Three channels at rest at `v`, as `new Vec3Transitionable(v[0], v[1], v[2])` makes them. */
  function FreshAxes(v: Vec3): (r: Axes)
    ensures !r.IsActive() && r.Get() == v
    ensures forall a :: r.At(a).PendingTail() == r.At(a).Get()
  {
    Axes(Fresh(v.x), Fresh(v.y), Fresh(v.z))
  }

  /** One axis of `set`: a given value is set on the channel, a `null` leaves the channel as it is. */
  function SetAxis(c: Channel<real>, v: Option<real>, options: Arg, callback: Arg): Channel<real> {
    if v.Some? then c.Set(v.value, options, callback) else c
  }

  /**
   * The channels after `Vec3Transitionable.set(x, y, z, options, callback)`:
   * each given axis is set to its value with `options`, only the callback
   * axis passes `callback` (the others pass `null`), and `null` axes are
   * untouched. With options the given axes queue their values; without,
   * they jump to them.
   */
  function SetAxes(axes: Axes, v: Vec3Arg, options: Arg, callback: Arg): (r: Axes)
    ensures forall a :: v.At(a).None? ==> r.At(a) == axes.At(a)
    ensures forall a :: v.At(a).Some? && !options.IsNullish() ==>
      && r.At(a).Get() == axes.At(a).Get()
      && r.At(a).queue == axes.At(a).queue
           + [Transition(v.At(a).value, options, if CallbackAxis(v) == Some(a) then callback else Null)]
    ensures forall a :: v.At(a).Some? && options.IsNullish() ==>
      !r.At(a).IsActive() && r.At(a).Get() == v.At(a).value
    ensures !options.IsNullish() && (exists a :: v.At(a).Some?) ==> r.IsActive()
    ensures options.IsNullish() ==> r.Get() == Override(axes.Get(), v)
  {
    var cb := CallbackAxis(v);
    Axes(
      SetAxis(axes.x, v.x, options, if cb == Some(X) then callback else Null),
      SetAxis(axes.y, v.y, options, if cb == Some(Y) then callback else Null),
      SetAxis(axes.z, v.z, options, if cb == Some(Z) then callback else Null))
  }

  /** The value each axis settles at when nothing more is queued. */
  function PendingTails(axes: Axes): Vec3 {
    Vec3(axes.x.PendingTail(), axes.y.PendingTail(), axes.z.PendingTail())
  }

  /** `v` with the given axes of `arg` written over it. */
  function Override(v: Vec3, arg: Vec3Arg): Vec3 {
    Vec3(arg.x.GetOr(v.x), arg.y.GetOr(v.y), arg.z.GetOr(v.z))
  }

  /**
   * The targets `translate(x, y, z)` gives `position.set`: each given
   * delta is added to its axis's pending tail (the last queued target, or
   * the state when nothing is queued); a `null` delta stays `null`.
   */
  function Translated(axes: Axes, d: Vec3Arg): (r: Vec3Arg)
    ensures forall a :: r.At(a).None? <==> d.At(a).None?
    ensures forall a :: d.At(a).Some? ==> r.At(a).value == d.At(a).value + axes.At(a).PendingTail()
  {
    Vec3Arg(
      if d.x.None? then None else Some(d.x.value + axes.x.PendingTail()),
      if d.y.None? then None else Some(d.y.value + axes.y.PendingTail()),
      if d.z.None? then None else Some(d.z.value + axes.z.PendingTail()))
  }

  /** After `set`, the channels settle at the old pending tails overwritten by the given axes. */
  lemma SetAxesSettlesAtOverride(axes: Axes, v: Vec3Arg, options: Arg, callback: Arg)
    ensures PendingTails(SetAxes(axes, v, options, callback)) == Override(PendingTails(axes), v)
  {
    var r := SetAxes(axes, v, options, callback);
    assert r.x == axes.x || r.x.PendingTail() == v.x.value;
  }

  /**
   * `translate` moves the pending tail of each given axis by its delta,
   * and leaves the other axes' pending tails alone.
   */
  lemma TranslateMovesPendingTail(axes: Axes, d: Vec3Arg, options: Arg, callback: Arg)
    ensures var r := SetAxes(axes, Translated(axes, d), options, callback);
      forall a :: r.At(a).PendingTail() == axes.At(a).PendingTail() + d.At(a).GetOr(0.0)
  {
  }

  /**
   * `setPosition(x, ...)` followed by `translate(dx, ...)` settles at
   * `x + dx` on every axis both calls give, whether the first transition
   * had completed or was still queued when `translate` read the tail.
   */
  lemma SetThenTranslate(axes: Axes, v: Vec3Arg, d: Vec3Arg, o1: Arg, c1: Arg, o2: Arg, c2: Arg, a: Axis)
    requires v.At(a).Some? && d.At(a).Some?
    ensures var s := SetAxes(axes, v, o1, c1);
      SetAxes(s, Translated(s, d), o2, c2).At(a).Settle().Get() == v.At(a).value + d.At(a).value
    ensures var s := SetAxes(axes, v, o1, c1);
      var settled := Axes(s.x.Settle(), s.y.Settle(), s.z.Settle());
      SetAxes(settled, Translated(settled, d), o2, c2).At(a).Settle().Get() == v.At(a).value + d.At(a).value
  {
    var s := SetAxes(axes, v, o1, c1);
    assert s.At(a).PendingTail() == v.At(a).value;
    TranslateMovesPendingTail(s, d, o2, c2);
    var settled := Axes(s.x.Settle(), s.y.Settle(), s.z.Settle());
    assert settled.At(a) == s.At(a).Settle();
    TranslateMovesPendingTail(settled, d, o2, c2);
  }

  /** The arguments that reach `QuatTransitionable.set` from `setRotation` and `rotate`. */
  datatype RotationCall = RotationCall(q: Quat, options: Arg, callback: Arg)

  /**
   * How `setRotation(x, y, z, w, options, callback)` and `rotate` read their
   * arguments: a numeric `w` makes `(x, y, z, w)` a quaternion; otherwise
   * `(x, y, z)` are Euler angles and `w`, `options` are the options and the
   * callback, each shifted one place left.
   */
  function DecodeRotation(x: real, y: real, z: real, w: Arg, options: Arg, callback: Arg,
                          fromEuler: (real, real, real) -> Quat): (r: RotationCall)
    ensures w.Number? ==> r.q == Quat(x, y, z, w.n) && r.options == options && r.callback == callback
    ensures !w.Number? ==> r.q == fromEuler(x, y, z) && r.options == w && r.callback == options
  {
    if w.Number? then RotationCall(Quat(x, y, z, w.n), options, callback)
    else RotationCall(fromEuler(x, y, z), w, options)
  }

  /**
   * The Euler form of a call queues the same rotation, options and callback
   * as the quaternion form given the quaternion `fromEuler` makes of the
   * angles, provided the options are not a number (which would be read as `w`).
   */
  lemma EulerFormMatchesQuaternionForm(x: real, y: real, z: real, options: Arg, callback: Arg,
                                      fromEuler: (real, real, real) -> Quat)
    requires !options.Number?
    ensures var q := fromEuler(x, y, z);
      DecodeRotation(x, y, z, options, callback, Undefined, fromEuler)
        == DecodeRotation(q.x, q.y, q.z, Number(q.w), options, callback, fromEuler)
  {
  }

  /**
   * `options.method = 'slerp'` in `QuatTransitionable.set`, as written:
   * a missing or primitive `options` makes the assignment throw.
   */
  function SlerpOptionsAsWritten(options: Arg): (r: Result<Arg>)
    ensures r.Failure? <==> options.Undefined? || options.Null? || options.Number?
    ensures options.Options? ==> r == Success(Options(options.options.(blendMethod := Some("slerp"))))
    ensures options.Function? ==> r == Success(options)
  {
    match options
    case Options(o) => Success(Options(o.(blendMethod := Some("slerp"))))
    case Function(_) => Success(options)
    case _ => Failure("Cannot create property 'method' on " + (if options.Number? then "number" else "undefined"))
  }

  /**
   * The options `QuatTransitionable.set` evidently means to pass: an
   * options object gets the slerp blend method, and anything else is
   * passed on as it is, so that a call without options sets the rotation
   * at once like every other `set`.
   */
  function SlerpOptions(options: Arg): (r: Arg)
    ensures r.IsNullish() <==> options.IsNullish()
    ensures !options.Options? ==> r == options
    ensures r.Options? ==> r.options.blendMethod == Some("slerp")
    ensures SlerpOptionsAsWritten(options).Success? ==> r == SlerpOptionsAsWritten(options).value
    ensures options.Options? ==>
      r.Options? && r.options.duration == options.options.duration && r.options.curve == options.options.curve
  {
    match options
    case Options(o) => Options(o.(blendMethod := Some("slerp")))
    case _ => options
  }

  /**
   * Every `setRotation` call without options throws as written: the
   * quaternion form `setState` uses, and the Euler form `setRotation(x, y, z)`.
   */
  lemma SetRotationWithoutOptionsThrows(x: real, y: real, z: real, w: real,
                                        fromEuler: (real, real, real) -> Quat)
    ensures SlerpOptionsAsWritten(DecodeRotation(x, y, z, Number(w), Undefined, Undefined, fromEuler).options).Failure?
    ensures SlerpOptionsAsWritten(DecodeRotation(x, y, z, Undefined, Undefined, Undefined, fromEuler).options).Failure?
  {
  }

  /** What `set` asks of the node: one update request, only when the transform was clean. */
  function UpdateRequests(wasDirty: bool, id: nat): (r: seq<Request>)
    ensures |r| <= 1
    ensures r == [] <==> wasDirty
  {
    if wasDirty then [] else [Request.RequestUpdate(id)]
  }

  /**
   * A `Vec3Transitionable`: its dirty flag and its three channels. Each
   * group belongs to the one transform that created it and holds it, so the
   * group is a value in that transform's field; the transform-side half of
   * `set` (asking the node for an update) is `Transform.MarkDirty`.
   */
  datatype Vec3Group = Vec3Group(dirty: bool, axes: Axes)
  {
    /** `get()`. */
    function Get(): Vec3 {
      axes.Get()
    }

    /** `isActive()`. */
    predicate IsActive() {
      axes.IsActive()
    }

    /**
     * The group's half of `set(x, y, z, options, callback)`: it goes dirty
     * and settles at its old pending tails overwritten by the given axes.
     * With options its current value is untouched and it animates when
     * some axis is given; without, the given axes take their values at once,
     * and a group given all three axes is at rest.
     */
    function Set(v: Vec3Arg, options: Arg, callback: Arg): (r: Vec3Group)
      ensures r.dirty
      ensures !options.IsNullish() ==> r.Get() == Get()
      ensures !options.IsNullish() && (exists a :: v.At(a).Some?) ==> r.IsActive()
      ensures options.IsNullish() ==> r.Get() == Override(Get(), v)
      ensures options.IsNullish() && (forall a :: v.At(a).Some?) ==> !r.IsActive()
      ensures PendingTails(r.axes) == Override(PendingTails(axes), v)
    {
      SetAxesSettlesAtOverride(axes, v, options, callback);
      var r := SetAxes(axes, v, options, callback);
      assert options.IsNullish() && (forall a :: v.At(a).Some?) ==>
        !r.At(X).IsActive() && !r.At(Y).IsActive() && !r.At(Z).IsActive();
      Vec3Group(true, r)
    }

    /** `halt()`: every axis stops where it is; the dirty flag is left alone. */
    function Halt(): (r: Vec3Group)
      ensures r.dirty == dirty && !r.IsActive() && r.Get() == Get()
    {
      Vec3Group(dirty, axes.Halt())
    }
  }

  /** `new Vec3Transitionable(v[0], v[1], v[2], transform)`: clean and at rest at `v`. */
  function NewVec3Group(v: Vec3): (r: Vec3Group)
    ensures !r.dirty && !r.IsActive() && r.Get() == v && PendingTails(r.axes) == v
  {
    Vec3Group(false, FreshAxes(v))
  }

  /** A `QuatTransitionable`: its dirty flag and the one channel holding `[x, y, z, w]`. */
  datatype QuatGroup = QuatGroup(dirty: bool, t: Channel<Quat>)
  {
    /** `get()`. */
    function Get(): Quat {
      t.Get()
    }

    /** `isActive()`. */
    predicate IsActive() {
      t.IsActive()
    }

    /**
     * The group's half of `set(x, y, z, w, options, callback)`: it goes
     * dirty and settles at `q`. With options it queues `q` behind what is
     * already queued, blended by slerp; without, it jumps to `q`.
     */
    function Set(q: Quat, options: Arg, callback: Arg): (r: QuatGroup)
      ensures r.dirty && r.t.PendingTail() == q
      ensures options.IsNullish() ==> !r.IsActive() && r.Get() == q
      ensures !options.IsNullish() ==> r.IsActive() && r.Get() == Get()
      ensures !options.IsNullish() ==> |r.t.queue| == |t.queue| + 1 && r.t.queue[..|t.queue|] == t.queue
      ensures !options.IsNullish() ==> r.t.queue[|t.queue|].options.Options? ==> r.t.queue[|t.queue|].options.options.blendMethod == Some("slerp")
    {
      QuatGroup(true, t.Set(q, SlerpOptions(options), callback))
    }

    /** `halt()`: the rotation stops where it is and the group is clean. */
    function Halt(): (r: QuatGroup)
      ensures !r.dirty && !r.IsActive() && r.Get() == Get()
    {
      QuatGroup(false, t.Halt())
    }
  }

  /** `new QuatTransitionable(v[0], v[1], v[2], v[3], transform)`: clean and at rest at `q`. */
  function NewQuatGroup(q: Quat): (r: QuatGroup)
    ensures !r.dirty && !r.IsActive() && r.Get() == q && r.t.PendingTail() == q
  {
    QuatGroup(false, Fresh(q))
  }


  /** The value `getValue()` reports; `None` is a group never set. */
  datatype TransformValue = TransformValue(
    component: string,
    origin: Option<Vec3>, mountPoint: Option<Vec3>, align: Option<Vec3>, scale: Option<Vec3>, position: Option<Vec3>,
    rotation: Option<Quat>)
  {
    function At(p: Vec3Property): Option<Vec3> {
      match p
      case Origin => origin
      case MountPoint => mountPoint
      case Align => align
      case Scale => scale
      case Position => position
    }
  }

  /** The rotation sub-state `setState` passes to `setRotation(x, y, z, w)`. */
  datatype RotationState = RotationState(x: real, y: real, z: real, w: Arg)

  /** The argument of `setState`; an absent sub-state is `None`. */
  datatype TransformState = TransformState(
    component: string,
    origin: Option<Vec3Arg>, mountPoint: Option<Vec3Arg>, align: Option<Vec3Arg>, scale: Option<Vec3Arg>,
    position: Option<Vec3Arg>,
    rotation: Option<RotationState>)
  {
    function At(p: Vec3Property): Option<Vec3Arg> {
      match p
      case Origin => origin
      case MountPoint => mountPoint
      case Align => align
      case Scale => scale
      case Position => position
    }

    /** Some group is set by this state. */
    predicate SetsAnything() {
      origin.Some? || mountPoint.Some? || align.Some? || scale.Some? || position.Some? || rotation.Some?
    }
  }

  /** A `getValue()` result read back as a `setState` argument. */
  function ValueAsState(v: TransformValue): (r: TransformState)
    ensures r.component == v.component
    ensures forall p :: r.At(p).None? <==> v.At(p).None?
    ensures forall p :: v.At(p).Some? ==> r.At(p) == Some(AllAxes(v.At(p).value))
  {
    TransformState(v.component,
      if v.origin.Some? then Some(AllAxes(v.origin.value)) else None,
      if v.mountPoint.Some? then Some(AllAxes(v.mountPoint.value)) else None,
      if v.align.Some? then Some(AllAxes(v.align.value)) else None,
      if v.scale.Some? then Some(AllAxes(v.scale.value)) else None,
      if v.position.Some? then Some(AllAxes(v.position.value)) else None,
      if v.rotation.Some? then
        Some(RotationState(v.rotation.value.x, v.rotation.value.y, v.rotation.value.z, Number(v.rotation.value.w)))
      else None)
  }

  /**
   * A group restored from a reported value settles at that value, whatever
   * it had queued before.
   */
  lemma RestoredGroupSettlesAtValue(axes: Axes, v: Vec3, options: Arg, callback: Arg)
    ensures PendingTails(SetAxes(axes, AllAxes(v), options, callback)) == v
  {
    SetAxesSettlesAtOverride(axes, AllAxes(v), options, callback);
  }

  /** The group `set` starts from: `g` when it exists, else a new group at the node's value `v`. */
  function Base(g: Option<Vec3Group>, v: Vec3): (r: Vec3Group)
    ensures g.None? ==> !r.dirty && !r.IsActive() && r.Get() == v
  {
    if g.Some? then g.value else NewVec3Group(v)
  }

  /** The rotation group `set` starts from: `g` when it exists, else a new group at the node's rotation `q`. */
  function RotationBase(g: Option<QuatGroup>, q: Quat): (r: QuatGroup)
    ensures g.None? ==> !r.dirty && !r.IsActive() && r.Get() == q
  {
    if g.Some? then g.value else NewQuatGroup(q)
  }

  /**
   * A vector group after `setState`, when it was `g` and the node's value
   * for it is `v`: a group the state gives (`arg`) exists, is dirty and has
   * the given axes queued without options or callback; any other group is
   * as it was.
   */
  function AfterSetState(g: Option<Vec3Group>, v: Vec3, arg: Option<Vec3Arg>): Option<Vec3Group> {
    if arg.Some? then Some(Base(g, v).Set(arg.value, Undefined, Undefined)) else g
  }

  /** The rotation group after `setState`, read like `AfterSetState`. */
  function AfterSetStateRotation(g: Option<QuatGroup>, q: Quat, arg: Option<RotationState>,
                                 fromEuler: (real, real, real) -> Quat): Option<QuatGroup>
  {
    if arg.Some? then
      var call := DecodeRotation(arg.value.x, arg.value.y, arg.value.z, arg.value.w, Undefined, Undefined, fromEuler);
      Some(RotationBase(g, q).Set(call.q, call.options, call.callback))
    else g
  }

  /**
   * A vector group after `clean`: a dirty group stays dirty only while it
   * is animating; a clean or absent group is untouched.
   */
  function Flushed(g: Option<Vec3Group>): (r: Option<Vec3Group>)
    ensures r.None? <==> g.None?
    ensures r.Some? ==> r.value.axes == g.value.axes && (r.value.dirty <==> g.value.dirty && g.value.IsActive())
  {
    if g.Some? && g.value.dirty then Some(g.value.(dirty := g.value.IsActive())) else g
  }

  /** The node property fed by `g` after `clean`: the group's value when it was dirty, else `before`. */
  function FlushedValue(g: Option<Vec3Group>, before: Vec3): Vec3 {
    if g.Some? && g.value.dirty then g.value.Get() else before
  }

  /** `Flushed` for the rotation group. */
  function FlushedRotation(g: Option<QuatGroup>): (r: Option<QuatGroup>)
    ensures r.None? <==> g.None?
    ensures r.Some? ==> r.value.t == g.value.t && (r.value.dirty <==> g.value.dirty && g.value.IsActive())
  {
    if g.Some? && g.value.dirty then Some(g.value.(dirty := g.value.IsActive())) else g
  }

  /** Every vector group after `clean`. */
  function FlushedGroups(g: ByProperty<Option<Vec3Group>>): (r: ByProperty<Option<Vec3Group>>)
    ensures forall p :: r.At(p) == Flushed(g.At(p))
  {
    ByProperty(Flushed(g.origin), Flushed(g.mountPoint), Flushed(g.align), Flushed(g.scale), Flushed(g.position))
  }

  /** The node's vector properties after `clean`, from the groups `g` and the values `v` before. */
  function FlushedVectors(g: ByProperty<Option<Vec3Group>>, v: ByProperty<Vec3>): (r: ByProperty<Vec3>)
    ensures forall p :: r.At(p) == FlushedValue(g.At(p), v.At(p))
  {
    ByProperty(
      FlushedValue(g.origin, v.origin), FlushedValue(g.mountPoint, v.mountPoint), FlushedValue(g.align, v.align),
      FlushedValue(g.scale, v.scale), FlushedValue(g.position, v.position))
  }

  /** `FlushedValue` for the rotation group. */
  function FlushedRotationValue(g: Option<QuatGroup>, before: Quat): Quat {
    if g.Some? && g.value.dirty then g.value.Get() else before
  }

  /** A group that exists and has changes not yet written to the node. */
  predicate IsDirty(g: Option<Vec3Group>) {
    g.Some? && g.value.dirty
  }

  /**
   * `setPosition(x, y, z)` and the other vector setters called without
   * options: the next `clean` writes the given value to the node and
   * leaves the group clean, so no further update is asked for.
   */
  lemma SetWithoutOptionsIsWrittenAtOnce(g: Option<Vec3Group>, v: Vec3, x: Vec3, callback: Arg, before: Vec3)
    ensures var s := Some(Base(g, v).Set(AllAxes(x), Undefined, callback));
      FlushedValue(s, before) == x && !IsDirty(Flushed(s))
  {
    var b := Base(g, v);
    assert Override(b.Get(), AllAxes(x)) == x;
  }

  /**
   * Once a group has stopped animating, one `clean` writes its value and
   * leaves it clean, and a second `clean` changes neither the group nor
   * the node property it feeds.
   */
  lemma CleanAtRestIsFinal(g: Option<Vec3Group>, before: Vec3)
    requires g.Some? ==> !g.value.IsActive()
    ensures !IsDirty(Flushed(g))
    ensures Flushed(Flushed(g)) == Flushed(g)
    ensures var after := FlushedValue(g, before);
      FlushedValue(Flushed(g), after) == after
  {
  }

  /**
   * `setState(getValue())`, group by group: the state gives exactly the
   * groups that exist, and each of them ends up settling at the value it
   * reported, whatever it had queued.
   */
  lemma SetStateOfValueSettlesAtValue(value: TransformValue, g: Option<Vec3Group>, v: Vec3, p: Vec3Property)
    requires value.At(p).Some? <==> g.Some?
    requires g.Some? ==> value.At(p).value == g.value.Get()
    ensures var arg := ValueAsState(value).At(p);
      && (arg.Some? <==> g.Some?)
      && (g.Some? ==> PendingTails(AfterSetState(g, v, arg).value.axes) == g.value.Get())
  {
    if g.Some? {
      RestoredGroupSettlesAtValue(g.value.axes, g.value.Get(), Undefined, Undefined);
    }
  }

  /**
   * The transform component. A group the source holds as `null` is `None`;
   * creating a group starts it from the node's current value.
   */
  class Transform {
    const node: Node
    const id: nat
    /** The groups `origin`, `mountPoint`, `align`, `scale` and `position`. */
    var groups: ByProperty<Option<Vec3Group>>
    var rotation: Option<QuatGroup>
    var dirty: bool

    /** Some group has changes not yet written to the node. */
    predicate AnyGroupDirty()
      reads this`groups, this`rotation
    {
      || IsDirty(groups.origin) || IsDirty(groups.mountPoint) || IsDirty(groups.align)
      || IsDirty(groups.scale) || IsDirty(groups.position)
      || (rotation.Some? && rotation.value.dirty)
    }

    /**
     * A dirty group is always covered by the transform's own flag, so the
     * node has been asked for the update that will flush it.
     */
    predicate Valid()
      reads this`groups, this`rotation, this`dirty
    {
      AnyGroupDirty() ==> dirty
    }

    constructor (node: Node)
      modifies node`components
      ensures this.node == node && id == old(node.components) && node.components == id + 1
      ensures forall p :: groups.At(p).None?
      ensures rotation.None? && !dirty && Valid()
    {
      this.node := node;
      var id := node.AddComponent();
      this.id := id;
      groups := ByProperty(None, None, None, None, None);
      rotation := None;
      dirty := false;
    }

    /** `getValue()`: the tag and the current value of every group; groups never set are `null`. */
    function GetValue(): (r: TransformValue)
      reads this`groups, this`rotation
      ensures r.component == "Transform"
      ensures forall p :: r.At(p).Some? <==> groups.At(p).Some?
      ensures forall p :: groups.At(p).Some? ==> r.At(p).value == groups.At(p).value.axes.Get()
      ensures r.rotation.Some? <==> rotation.Some?
      ensures rotation.Some? ==> r.rotation.value == rotation.value.t.Get()
    {
      TransformValue("Transform",
        if groups.origin.Some? then Some(groups.origin.value.Get()) else None,
        if groups.mountPoint.Some? then Some(groups.mountPoint.value.Get()) else None,
        if groups.align.Some? then Some(groups.align.value.Get()) else None,
        if groups.scale.Some? then Some(groups.scale.value.Get()) else None,
        if groups.position.Some? then Some(groups.position.value.Get()) else None,
        if rotation.Some? then Some(rotation.value.Get()) else None)
    }

    /**
     * The transform's half of a group's `set`: the first change after a
     * clean asks the node for an update; later ones ask for nothing.
     */
    method MarkDirty()
      modifies this`dirty, node`requests
      ensures dirty
      ensures node.requests == old(node.requests) + UpdateRequests(old(dirty), id)
    {
      if !dirty {
        node.RequestUpdate(id);
        dirty := true;
      }
    }

    /**
     * `setOrigin`, `setMountPoint`, `setAlign`, `setScale` and
     * `setPosition`: create the group from the node's value if absent, then
     * `set` it. No other group changes.
     */
    method SetVec3(p: Vec3Property, v: Vec3Arg, options: Arg, callback: Arg)
      modifies this`groups, this`dirty, node`requests
      ensures Valid() && dirty
      ensures groups == old(groups).With(p, Some(Base(old(groups.At(p)), old(node.vectors.At(p))).Set(v, options, callback)))
      ensures node.requests == old(node.requests) + UpdateRequests(old(dirty), id)
    {
      var g := Base(groups.At(p), node.vectors.At(p));
      MarkDirty();
      groups := groups.With(p, Some(g.Set(v, options, callback)));
    }

    /**
     * `translate(x, y, z, options, callback)`: `set` the position to each
     * given delta plus that axis's pending tail.
     */
    method Translate(d: Vec3Arg, options: Arg, callback: Arg)
      modifies this`groups, this`dirty, node`requests
      ensures Valid() && dirty
      ensures var base := Base(old(groups.position), old(node.vectors.position));
        groups == old(groups).With(Position, Some(base.Set(Translated(base.axes, d), options, callback)))
      ensures node.requests == old(node.requests) + UpdateRequests(old(dirty), id)
    {
      var base := Base(groups.position, node.vectors.position);
      SetVec3(Position, Translated(base.axes, d), options, callback);
    }

    /**
     * `setRotation(x, y, z, w, options, callback)`: create the rotation
     * group if absent and queue the quaternion the arguments describe.
     */
    method SetRotation(x: real, y: real, z: real, w: Arg, options: Arg, callback: Arg,
                       fromEuler: (real, real, real) -> Quat)
      modifies this`rotation, this`dirty, node`requests
      ensures Valid() && dirty
      ensures var call := DecodeRotation(x, y, z, w, options, callback, fromEuler);
        rotation == Some(RotationBase(old(rotation), old(node.rotation)).Set(call.q, call.options, call.callback))
      ensures node.requests == old(node.requests) + UpdateRequests(old(dirty), id)
    {
      var g := RotationBase(rotation, node.rotation);
      var call := DecodeRotation(x, y, z, w, options, callback, fromEuler);
      MarkDirty();
      rotation := Some(g.Set(call.q, call.options, call.callback));
    }

    /**
     * `rotate(x, y, z, w, options, callback)`: queue the pending tail of the
     * rotation composed with the quaternion the arguments describe.
     */
    method Rotate(x: real, y: real, z: real, w: Arg, options: Arg, callback: Arg, ops: QuatOps)
      modifies this`rotation, this`dirty, node`requests
      ensures Valid() && dirty
      ensures var call := DecodeRotation(x, y, z, w, options, callback, ops.fromEuler);
        var base := RotationBase(old(rotation), old(node.rotation));
        rotation == Some(base.Set(ops.multiply(base.t.PendingTail(), call.q), call.options, call.callback))
      ensures node.requests == old(node.requests) + UpdateRequests(old(dirty), id)
    {
      var g := RotationBase(rotation, node.rotation);
      var reference := g.t.PendingTail();
      var call := DecodeRotation(x, y, z, w, options, callback, ops.fromEuler);
      MarkDirty();
      rotation := Some(g.Set(ops.multiply(reference, call.q), call.options, call.callback));
    }

    /** One vector step of `setState`: `if (state.origin) this.setOrigin(x, y, z)` and its siblings. */
    method SetGiven(p: Vec3Property, arg: Option<Vec3Arg>)
      requires Valid()
      modifies this`groups, this`dirty, node`requests
      ensures Valid()
      ensures groups == old(groups).With(p, AfterSetState(old(groups.At(p)), old(node.vectors.At(p)), arg))
      ensures dirty == (old(dirty) || arg.Some?)
      ensures node.requests == old(node.requests) + UpdateRequests(old(dirty) || arg.None?, id)
    {
      if arg.Some? {
        SetVec3(p, arg.value, Undefined, Undefined);
      }
    }

    /** The rotation step of `setState`: `if (state.rotation) this.setRotation(x, y, z, w)`. */
    method SetGivenRotation(arg: Option<RotationState>, fromEuler: (real, real, real) -> Quat)
      requires Valid()
      modifies this`rotation, this`dirty, node`requests
      ensures Valid()
      ensures rotation == AfterSetStateRotation(old(rotation), old(node.rotation), arg, fromEuler)
      ensures dirty == (old(dirty) || arg.Some?)
      ensures node.requests == old(node.requests) + UpdateRequests(old(dirty) || arg.None?, id)
    {
      if arg.Some? {
        var r := arg.value;
        SetRotation(r.x, r.y, r.z, r.w, Undefined, Undefined, fromEuler);
      }
    }

    /**
     * `setState(state)`: when the state is tagged "Transform", set every
     * group it gives, without options or callback, and report `true`;
     * otherwise change nothing and report `false`.
     */
    method SetState(state: TransformState, fromEuler: (real, real, real) -> Quat) returns (ok: bool)
      requires Valid()
      modifies this`groups, this`rotation, this`dirty, node`requests
      ensures Valid()
      ensures ok <==> state.component == "Transform"
      ensures groups.origin == AfterSetState(old(groups.origin), old(node.vectors.origin), if ok then state.origin else None)
      ensures groups.mountPoint ==
        AfterSetState(old(groups.mountPoint), old(node.vectors.mountPoint), if ok then state.mountPoint else None)
      ensures groups.align == AfterSetState(old(groups.align), old(node.vectors.align), if ok then state.align else None)
      ensures groups.scale == AfterSetState(old(groups.scale), old(node.vectors.scale), if ok then state.scale else None)
      ensures groups.position ==
        AfterSetState(old(groups.position), old(node.vectors.position), if ok then state.position else None)
      ensures rotation == AfterSetStateRotation(old(rotation), old(node.rotation),
                                                if ok then state.rotation else None, fromEuler)
      ensures dirty == (old(dirty) || (ok && state.SetsAnything()))
      ensures node.requests == old(node.requests) + UpdateRequests(old(dirty) || !(ok && state.SetsAnything()), id)
    {
      ok := state.component == "Transform";
      if ok {
        SetGivenAnchors(state);
        SetGivenPlacement(state);
        SetGivenRotation(state.rotation, fromEuler);
      }
    }

    /** The first half of `setState`'s steps: origin, mount point and align. */
    method SetGivenAnchors(state: TransformState)
      requires Valid()
      modifies this`groups, this`dirty, node`requests
      ensures Valid()
      ensures groups.origin == AfterSetState(old(groups.origin), old(node.vectors.origin), state.origin)
      ensures groups.mountPoint == AfterSetState(old(groups.mountPoint), old(node.vectors.mountPoint), state.mountPoint)
      ensures groups.align == AfterSetState(old(groups.align), old(node.vectors.align), state.align)
      ensures groups.scale == old(groups.scale) && groups.position == old(groups.position)
      ensures var any := state.origin.Some? || state.mountPoint.Some? || state.align.Some?;
        && dirty == (old(dirty) || any)
        && node.requests == old(node.requests) + UpdateRequests(old(dirty) || !any, id)
    {
      SetGiven(Origin, state.origin);
      SetGiven(MountPoint, state.mountPoint);
      SetGiven(Align, state.align);
    }

    /** The second half of `setState`'s vector steps: scale and position. */
    method SetGivenPlacement(state: TransformState)
      requires Valid()
      modifies this`groups, this`dirty, node`requests
      ensures Valid()
      ensures groups.origin == old(groups.origin) && groups.mountPoint == old(groups.mountPoint)
      ensures groups.align == old(groups.align)
      ensures groups.scale == AfterSetState(old(groups.scale), old(node.vectors.scale), state.scale)
      ensures groups.position == AfterSetState(old(groups.position), old(node.vectors.position), state.position)
      ensures var any := state.scale.Some? || state.position.Some?;
        && dirty == (old(dirty) || any)
        && node.requests == old(node.requests) + UpdateRequests(old(dirty) || !any, id)
    {
      SetGiven(Scale, state.scale);
      SetGiven(Position, state.position);
    }

    /**
     * One vector step of `clean`: a dirty group writes its value to the
     * node property it feeds and stays dirty only while animating. Reports
     * whether the group is still dirty.
     */
    method FlushVec3(p: Vec3Property) returns (stillDirty: bool)
      modifies this`groups, node`vectors
      ensures groups == old(groups).With(p, Flushed(old(groups.At(p))))
      ensures node.vectors == old(node.vectors).With(p, FlushedValue(old(groups.At(p)), old(node.vectors.At(p))))
      ensures stillDirty == IsDirty(groups.At(p))
    {
      stillDirty := false;
      var c := groups.At(p);
      if c.Some? && c.value.dirty {
        node.SetVector(p, c.value.Get());
        var g := c.value.(dirty := c.value.IsActive());
        groups := groups.With(p, Some(g));
        stillDirty := g.dirty;
      }
    }

    /** The rotation step of `clean`. */
    method FlushRotation() returns (stillDirty: bool)
      modifies this`rotation, node`rotation
      ensures rotation == FlushedRotation(old(rotation))
      ensures node.rotation == FlushedRotationValue(old(rotation), old(node.rotation))
      ensures stillDirty == (rotation.Some? && rotation.value.dirty)
    {
      stillDirty := false;
      if rotation.Some? && rotation.value.dirty {
        var c := rotation.value;
        node.SetRotation(c.Get());
        c := c.(dirty := c.IsActive());
        rotation := Some(c);
        stillDirty := c.dirty;
      }
    }

    /**
     * `clean()`: write every dirty group's value to the node, keep dirty
     * only the groups still animating, and then either ask the node for an
     * update on the next tick (some group is still dirty) or go clean.
     */
    method Clean()
      requires Valid()
      modifies this`groups, this`rotation, this`dirty, node`vectors, node`rotation, node`requests
      ensures Valid()
      ensures groups == FlushedGroups(old(groups))
      ensures node.vectors == FlushedVectors(old(groups), old(node.vectors))
      ensures rotation == FlushedRotation(old(rotation))
      ensures node.rotation == FlushedRotationValue(old(rotation), old(node.rotation))
      ensures AnyGroupDirty() ==> dirty == old(dirty) && node.requests == old(node.requests) + [Request.RequestUpdateOnNextTick(id)]
      ensures !AnyGroupDirty() ==> !dirty && node.requests == old(node.requests)
    {
      var isDirty := false;
      var d := FlushVec3(Origin);
      isDirty := isDirty || d;
      d := FlushVec3(MountPoint);
      isDirty := isDirty || d;
      d := FlushVec3(Align);
      isDirty := isDirty || d;
      d := FlushVec3(Scale);
      isDirty := isDirty || d;
      d := FlushVec3(Position);
      isDirty := isDirty || d;
      d := FlushRotation();
      isDirty := isDirty || d;
      if isDirty {
        node.RequestUpdateOnNextTick(id);
      } else {
        dirty := false;
      }
    }
  }
}
