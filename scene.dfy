/**
 * The node a component is attached to, seen from the component. Node.js is
 * not part of this model: the node keeps the six transform properties the
 * components write, records every update request and every draw command it
 * is sent, and answers `isMounted` and `getLocation`.
 */
module Scene {
  import opened Quaternions

  datatype Vec3 = Vec3(x: real, y: real, z: real)

  /** The five vector properties of a node that a Transform animates. */
  datatype Vec3Property = Origin | MountPoint | Align | Scale | Position

  /** One value for each vector property. */
  datatype ByProperty<T> = ByProperty(origin: T, mountPoint: T, align: T, scale: T, position: T)
  {
    function At(p: Vec3Property): T {
      match p
      case Origin => origin
      case MountPoint => mountPoint
      case Align => align
      case Scale => scale
      case Position => position
    }

    /** The same values with the one for `p` replaced by `v`. */
    function With(p: Vec3Property, v: T): (r: ByProperty<T>)
      ensures r.At(p) == v
      ensures forall q :: q != p ==> r.At(q) == At(q)
      ensures v == At(p) ==> r == this
    {
      match p
      case Origin => this.(origin := v)
      case MountPoint => this.(mountPoint := v)
      case Align => this.(align := v)
      case Scale => this.(scale := v)
      case Position => this.(position := v)
    }
  }

  /** `node.requestUpdate(id)` and `node.requestUpdateOnNextTick(id)`. */
  datatype Request = RequestUpdate(id: nat) | RequestUpdateOnNextTick(id: nat)

  /** The command constants of the draw-command stream (`Commands.WITH`, `Commands.GL_SET_GEOMETRY`, ...). */
  datatype Command =
    | With
    | GlSetDrawOptions
    | GlSetGeometry
    | GlBufferData
    | GlUniforms
    | GlMeshVisibility
    | GlRemoveMesh

  /** Draw options are passed through unread. */
  datatype DrawOptions = DrawOptions(entries: map<string, real>)

  /** One entry of the draw-command stream. */
  datatype Token =
    | Cmd(command: Command)
    | Text(text: string)
    | Int(i: int)
    | Real(r: real)
    | Flag(b: bool)
    | Reals(values: seq<real>)
    | Opts(options: DrawOptions)

  class Node {
    /** `getOrigin()`, `getMountPoint()`, `getAlign()`, `getScale()`, `getPosition()`. */
    var vectors: ByProperty<Vec3>
    var rotation: Quat
    /** Every update request the node received, oldest first. */
    var requests: seq<Request>
    /** Every draw command the node was sent, oldest first. */
    var commands: seq<Token>
    var mounted: bool
    var location: string
    /** How many components were added. */
    var components: nat

    constructor (location: string, mounted: bool)
      ensures this.location == location && this.mounted == mounted
      ensures requests == [] && commands == [] && components == 0
    {
      this.location := location;
      this.mounted := mounted;
      vectors := ByProperty(Vec3(0.0, 0.0, 0.0), Vec3(0.0, 0.0, 0.0), Vec3(0.0, 0.0, 0.0),
                            Vec3(1.0, 1.0, 1.0), Vec3(0.0, 0.0, 0.0));
      rotation := Quat(0.0, 0.0, 0.0, 1.0);
      requests, commands, components := [], [], 0;
    }

    /** `setOrigin(x, y, z)`, `setMountPoint`, `setAlign`, `setScale`, `setPosition`. */
    method SetVector(p: Vec3Property, v: Vec3)
      modifies this`vectors
      ensures vectors == old(vectors).With(p, v)
    {
      vectors := vectors.With(p, v);
    }

    /** `setRotation(x, y, z, w)`. */
    method SetRotation(q: Quat)
      modifies this`rotation
      ensures rotation == q
    {
      rotation := q;
    }

    /** `requestUpdate(id)`: schedule the component for the current tick. */
    method RequestUpdate(id: nat)
      modifies this`requests
      ensures requests == old(requests) + [Request.RequestUpdate(id)]
    {
      requests := requests + [Request.RequestUpdate(id)];
    }

    /** `requestUpdateOnNextTick(id)`: schedule the component for the next tick. */
    method RequestUpdateOnNextTick(id: nat)
      modifies this`requests
      ensures requests == old(requests) + [Request.RequestUpdateOnNextTick(id)]
    {
      requests := requests + [Request.RequestUpdateOnNextTick(id)];
    }

    /** `sendDrawCommand(token)`. */
    method SendDrawCommand(t: Token)
      modifies this`commands
      ensures commands == old(commands) + [t]
    {
      commands := commands + [t];
    }

    /** `addComponent(component)`: the id the node gives the component. */
    method AddComponent() returns (id: nat)
      modifies this`components
      ensures id == old(components) && components == id + 1
    {
      id := components;
      components := components + 1;
    }
  }
}
