# famous-engine core, modelled in Dafny

This project models five pieces of the famous-engine scene-graph runtime:

- **Registry** (`src/utilities/Registry.js`): a keyed store whose values sit in a dense slot array.
  - Freed slots go onto a stack and are handed to the next new key.
  - Modelled as the pure value `Utilities.Slots` plus the class `Utilities.Registry`, whose five fields are the source's five containers.
- **Opacity** (`src/core/Opacity.js`): per-node local and world opacity.
  - A node's world opacity is its local opacity times the world opacity of the nearest break point above it.
  - `calculate`, `fromNode` and `fromNodeWithParent` return the `WORLD_CHANGED`/`LOCAL_CHANGED` bit mask.
- **Transform** (`src/components/Transform.js`): six animatable groups.
  - The groups are origin, mount point, align, scale, position and rotation.
  - Each is created lazily from the node's current value.
  - A dirty flag asks the node for one update when the component first goes dirty.
  - `translate` and `rotate` build on the pending tail of each queue.
  - `setState` replays a `getValue` snapshot.
  - `clean` flushes dirty groups to the node and re-requests an update while any group is still animating.
- **DynamicGeometry** (`src/webgl-geometries/DynamicGeometry.js`): named vertex buffers held in parallel arrays.
  - Every write records the buffer's index, once, in an invalidation list.
- **Mesh** (`src/webgl-renderables/Mesh.js`): the change-queue protocol.
  - Commands (geometry switches, buffer uploads, uniforms, draw options, visibility) wait in a queue until `onUpdate` sends them to the node.
  - `_requestUpdate` asks the node for at most one update until that update has run.

Transitionable.js is not part of this model. Module `Transitions` gives an abstract interpolator, `Channel`, that covers what Transform.js relies on:
- `set` with a transition queues a target; `set` without one (`null` or `undefined` options) jumps to the target and drops the queue, as the `Align` constructor relies on (src/components/Align.js:44-46);
- `get` returns the current state;
- `isActive` tells whether the queue is non-empty;
- `halt` empties the queue;
- the pending tail is what the queue will settle at.

Node.js is not part of this model. `Scene.Node` is a stand-in that records:
- the update requests;
- the draw commands;
- the vectors and the rotation a component writes to it.

Module layout follows the source directories:
- `Utilities` (registry.dfy), `Core` (opacity.dfy), `Components` (transform.dfy), `WebglGeometries` (dynamic_geometry.dfy), `WebglRenderables` (mesh.dfy);
- with `Wrappers`, `Quaternions`, `Transitions` and `Scene` as support.

## Model

| member | source | states |
|---|---|---|
| Utilities.Store | src/utilities/Registry.js:19-20 | Writing slot `i` of a JavaScript array grows it to `i + 1` if needed, fills the gap with empty slots and changes no other slot |
| Utilities.Slots.Get | src/utilities/Registry.js:42-44 | `get(key)`: a key never registered reads as absent, for keys that are not names a JavaScript object inherits (GetReadsSlot ties it to the slots) |
| Utilities.Slots.Register | src/utilities/Registry.js:12-28 | Afterwards the key reads as the value. It keeps its slot if it had one, and otherwise takes the top of the free stack or the next slot past the end. Every other key reads and is placed as before |
| Utilities.Slots.Unregister | src/utilities/Registry.js:30-40 | Afterwards the key has no slot, and a live key reads as absent. An unknown key leaves the registry unchanged. Every other key is untouched |
| Utilities.EmptyIsValid | src/utilities/Registry.js:4-10 | A new registry satisfies the registry invariant, and every key reads as absent (keys that are not inherited object names) |
| Utilities.LiveKeysDoNotAlias | src/utilities/Registry.js:12-28 | Two distinct live keys never share a slot |
| Utilities.GetReadsSlot | src/utilities/Registry.js:42-44 | `get(key)` is defined exactly when the key has a slot, and it equals the value in that slot |
| Utilities.FreedSlotIsEmpty | src/utilities/Registry.js:15 | The slot on top of the free stack is in range, empty in both arrays, and not repeated lower in the stack |
| Utilities.RegisterKeepsValid | src/utilities/Registry.js:12-28 | `register` preserves the invariant: key↔slot maps are mutually inverse, values agree, and a slot is empty iff it is on the free stack, with no duplicates |
| Utilities.RegisterNewFreeSlots | src/utilities/Registry.js:14-23 | After registering a new key, a slot is empty iff it is on the free stack |
| Utilities.RegisterNewKeepsValid | src/utilities/Registry.js:14-23 | Registering a new key preserves the whole invariant |
| Utilities.UnregisterKeepsValid | src/utilities/Registry.js:30-40 | `unregister` preserves the whole invariant |
| Utilities.RegisterNewKeyTakesNextSlot | src/utilities/Registry.js:15-17 | A new key takes the slot popped from the free stack, or appends a slot when the stack is empty |
| Utilities.RegisterBinds | src/utilities/Registry.js:12-28 | After `register(key, value)`, `get(key)` is `value`, and the key's slot holds both the key and the value |
| Utilities.RegisterLiveKeyOverwrites | src/utilities/Registry.js:24-27 | Re-registering a live key overwrites only its slot's value: the slot, the keys and the free stack are unchanged |
| Utilities.UnregisterLiveKeyFrees | src/utilities/Registry.js:33-39 | Unregistering a live key pushes its slot onto the free stack and clears its map entries and its slot |
| Utilities.UnregisterUnknownIsNoOp | src/utilities/Registry.js:31-33 | Unregistering a key with no slot changes nothing |
| Utilities.ReRegisterReusesFreedSlot | src/utilities/Registry.js:12-40 | Register, unregister and re-register the same key: it gets its old slot back and the free stack is restored |
| Utilities.FreedSlotGoesToNextNewKey | src/utilities/Registry.js:12-40 | The slot freed by unregistering one key is the slot the next new key receives |
| Utilities.RegisterThenUnregisterA | src/utilities/Registry.js:3-40 | On a new registry, register "a" then unregister "a" leaves one empty slot 0 on the free stack and "a" unbound |
| Utilities.FreshRegistryScenario | src/utilities/Registry.js:3-40 | On a new registry, register "a", unregister "a", register "b" leaves "b" in slot 0 as the only entry |
| Utilities.Registry.constructor | src/utilities/Registry.js:4-10 | Five empty containers: the empty registry |
| Utilities.Registry.Register | src/utilities/Registry.js:12-28 | The in-place update of the five fields yields the pure `Register` of the old state and keeps the invariant |
| Utilities.Registry.Unregister | src/utilities/Registry.js:30-40 | The in-place update yields the pure `Unregister` of the old state and keeps the invariant |
| Utilities.Registry.Get | src/utilities/Registry.js:42-44 | Returns the key's value exactly when the key is live; the value equals its slot's value |
| Utilities.Registry.GetValues | src/utilities/Registry.js:46-48 | The dense value array: a slot is filled iff it is not on the free stack |
| Utilities.Registry.GetKeys | src/utilities/Registry.js:50-52 | The dense key array: every filled slot names a key whose slot is that index |
| Utilities.Registry.GetKeyToValue | src/utilities/Registry.js:54-56 | The key→value map: every key with a value has a slot |
| Core.ChangeMask | src/core/Opacity.js:112-122 | The returned bits: `LOCAL_CHANGED` (2) is set iff the local opacity changed and `WORLD_CHANGED` (1) iff the world opacity changed |
| Core.NearestBreakPoint | src/core/Opacity.js:95-100 | The walk up the parents stops at the first break point: no ancestor before it is a break point |
| Core.NearestBreakPointIsFirst | src/core/Opacity.js:99-100 | Any index that is a break point with no break point before it is the one the walk finds |
| Core.Opacity.constructor | src/core/Opacity.js:28-35 | Local, global and own opacity start at 1; the parent is kept; not a break point and not calculating |
| Core.Opacity.Reset | src/core/Opacity.js:37-40 | Clears the parent and the break-point flag |
| Core.Opacity.SetParent | src/core/Opacity.js:42-44 | Sets the parent |
| Core.Opacity.SetBreakPoint | src/core/Opacity.js:50-53 | A break point also calculates its world opacity |
| Core.Opacity.SetCalculateWorldOpacity | src/core/Opacity.js:62-64 | Turns world-opacity tracking on |
| Core.Opacity.SetOpacity | src/core/Opacity.js:90-92 | Sets the node's own opacity |
| Core.Opacity.GetWorldOpacity | src/core/Opacity.js:74-78 | Throws iff the node is neither a break point nor calculating; otherwise returns the global opacity. Since every break point calculates, it succeeds iff the node calculates |
| Core.Opacity.CalculateWorldOpacity | src/core/Opacity.js:94-109 | The loop reaches the nearest break point of an acyclic parent chain. Global becomes that break point's global times local, or local when there is none. The result is true iff global changed |
| Core.Opacity.FromNode | src/core/Opacity.js:111-123 | Local becomes the own opacity; global is recomputed only when calculating; the mask reports both changes |
| Core.Opacity.FromNodeWithParent | src/core/Opacity.js:125-139 | Local becomes the parent's local times the own opacity; global as in `fromNode`; the mask reports both changes |
| Core.Opacity.Calculate | src/core/Opacity.js:80-84 | Uses the `fromNode` rule when there is no parent or the parent is a break point, and the parent rule otherwise |
| Core.NewBreakPointWithChild | src/core/Opacity.js:28-53 | A break-point root with a child: the root's global is its opacity, and the child's local is its own opacity |
| Core.NewTrackingLeaf | src/core/Opacity.js:62-139 | A tracking leaf under that child: its local is the child's local times its own, and its global is the root's global times that |
| Core.RecalculateLeaf | src/core/Opacity.js:80-139 | Recalculating the leaf after the root changes gives the root's new global times the leaf's local |
| Core.BreakPointScenario | src/core/Opacity.js:28-139 | Chain root a → b → c: c's world opacity is a·b·c before and a2·b·c after the root's opacity changes to a2 |
| Transitions.Channel.Set | src/components/Transform.js:70-72 | The target becomes the pending tail. With options: the current value stays, the channel is active, and one transition is appended. Without options: the channel is at the target and inactive, as `Align.js:44-46` relies on |
| Transitions.Channel.Halt | src/components/Transform.js:95-100 | `halt` keeps the current value and leaves the channel inactive |
| Transitions.Channel.Settle | src/components/Transform.js:256-261 | Once every queued transition finishes, the value is the pending tail and the channel is inactive |
| Transitions.Fresh | src/components/Transform.js:37-39 | A new interpolator holds its initial value and is inactive |
| Transitions.ChainedSetsSettleAtLastTarget | src/components/Transform.js:250-264 | Two `set` calls, with or without time passing between them, settle at the second target |
| Components.AllAxes | src/components/Transform.js:183-195 | `setState` passes all three coordinates of a stored vector |
| Components.CallbackAxis | src/components/Transform.js:61-68 | The callback goes to the last given axis among z, y, x, and to none when no axis is given |
| Components.Axes.Halt | src/components/Transform.js:95-100 | Halting the three axes keeps the vector and leaves none active |
| Components.FreshAxes | src/components/Transform.js:34-45 | New axes hold the node's vector, are inactive, and each pending tail is its current value |
| Components.SetAxes | src/components/Transform.js:70-72 | An absent coordinate leaves its axis untouched. With options, a given one is queued as that axis's pending tail, and the axes are active when anything was given. Without options, a given axis takes its value at once and is at rest |
| Components.Translated | src/components/Transform.js:259-261 | Each given offset is added to the axis's pending tail (the last queued target, or the state); absent ones stay absent |
| Components.SetAxesSettlesAtOverride | src/components/Transform.js:54-75 | After `set`, the pending tails are the old tails overridden by the given coordinates |
| Components.TranslateMovesPendingTail | src/components/Transform.js:250-264 | `translate` moves each given axis's pending tail by the offset and leaves the others alone |
| Components.SetThenTranslate | src/components/Transform.js:241-264 | `setPosition(v)` then `translate(d)` settles at v + d on each axis both name |
| Components.DecodeRotation | src/components/Transform.js:272-278 | Numeric `w`: the quaternion (x, y, z, w) with the options and callback as given. Otherwise: Euler angles, with the arguments shifted left by one |
| Components.EulerFormMatchesQuaternionForm | src/components/Transform.js:266-281 | `setRotation(x, y, z, options, cb)` queues the same as `setRotation(q.x, q.y, q.z, q.w, options, cb)` with q from the Euler angles |
| Components.SlerpOptionsAsWritten | src/components/Transform.js:123 | Assigning `options.method` throws iff options are undefined, null or a number; an object gets `method = 'slerp'` |
| Components.SlerpOptions | src/components/Transform.js:123 | Corrected: an options object gets the slerp blend method; missing options stay missing, so the rotation is set at once like the vector groups. Agrees with the as-written code whenever that does not throw |
| Components.SetRotationWithoutOptionsThrows | src/components/Transform.js:197-198 | `setRotation` without options (as `setState` calls it) reaches `options.method` with undefined options, in both the quaternion and the Euler form |
| Components.UpdateRequests | src/components/Transform.js:55-58 | At most one node request, and exactly one iff the transform was not already dirty |
| Components.Vec3Group.Set | src/components/Transform.js:54-75 | Marks the group dirty and overrides the pending tails with the given coordinates. With options it keeps its value and is active when anything was given. Without options it takes the given coordinates at once, and is at rest when all three are given |
| Components.Vec3Group.Halt | src/components/Transform.js:95-100 | Keeps the value and the dirty flag; leaves nothing active |
| Components.NewVec3Group | src/components/Transform.js:34-45 | Clean, inactive, and holding (and settling at) the given vector |
| Components.QuatGroup.Set | src/components/Transform.js:116-125 | Marks dirty; the quaternion becomes the pending tail. With options: appends one slerp transition and keeps the current value. Without options: jumps to the quaternion. Follows the corrected options of Findings row 2: where the source throws for missing options, this sets the rotation at once |
| Components.QuatGroup.Halt | src/components/Transform.js:142-146 | Clears the dirty flag and the queue, keeping the value |
| Components.NewQuatGroup | src/components/Transform.js:105-109 | Clean, inactive, holding the given quaternion |
| Components.ValueAsState | src/components/Transform.js:168-203 | A `getValue` snapshot as a `setState` argument: the same component name, and exactly the groups that exist, each with all three coordinates |
| Components.RestoredGroupSettlesAtValue | src/components/Transform.js:182-196 | Feeding a snapshot vector back through `set` settles the group at that vector |
| Components.Base | src/components/Transform.js:206-209 | A missing group is created clean and inactive from the node's current vector |
| Components.RotationBase | src/components/Transform.js:267-270 | A missing rotation group is created from the node's current rotation |
| Components.Flushed | src/components/Transform.js:316-340 | Flushing keeps a group's axes; it stays dirty iff it was dirty and still active |
| Components.FlushedRotation | src/components/Transform.js:341-346 | The same flush rule for the rotation group |
| Components.FlushedGroups | src/components/Transform.js:312-340 | `clean` applies the flush rule to each of the five vector groups independently |
| Components.FlushedVectors | src/components/Transform.js:312-340 | `clean` writes to the node exactly those vectors whose groups were dirty, each with the group's current value |
| Components.SetWithoutOptionsIsWrittenAtOnce | src/components/Transform.js:54-75 | A vector setter called with all three coordinates and no options: the next flush writes exactly those coordinates to the node and leaves the group clean |
| Components.CleanAtRestIsFinal | src/components/Transform.js:312-350 | For a group at rest, one flush leaves it clean; a second flush changes neither the group nor the node |
| Components.SetStateOfValueSettlesAtValue | src/components/Transform.js:168-203 | For each of the five vector groups, `setState(getValue())` leaves an existing group set to, and settling at, its own current value, and creates no missing one |
| Components.Transform.constructor | src/components/Transform.js:151-162 | Registers with the node and takes its id; no groups; not dirty |
| Components.Transform.GetValue | src/components/Transform.js:168-178 | Reports "Transform", exactly the existing groups, and each group's current value |
| Components.Transform.MarkDirty | src/components/Transform.js:55-58 | Afterwards dirty; one node request iff it was not dirty before |
| Components.Transform.SetVec3 | src/components/Transform.js:205-248 | `setOrigin` … `setPosition`: create the group from the node if missing, then `set` it; nothing else changes; one request iff not dirty |
| Components.Transform.Translate | src/components/Transform.js:250-264 | Sets the position group to the pending tails plus the offsets |
| Components.Transform.SetRotation | src/components/Transform.js:266-281 | Creates the rotation group if missing and sets the decoded quaternion with the shifted options. Follows the corrected options of Findings row 2: where the source throws for missing options, this sets the rotation at once |
| Components.Transform.Rotate | src/components/Transform.js:283-310 | Sets the rotation to the pending-tail quaternion multiplied by the decoded rotation. Follows the corrected options of Findings row 2: where the source throws for missing options, this sets the rotation at once |
| Components.Transform.SetGiven | src/components/Transform.js:182-196 | One `if (state.p)` step: the group is set iff the state names it; dirty and the request follow |
| Components.Transform.SetGivenRotation | src/components/Transform.js:197-199 | The rotation step of `setState`: the rotation group is set iff the state carries a rotation. Follows the corrected options of Findings row 2: where the source throws for missing options, this sets the rotation at once |
| Components.Transform.SetState | src/components/Transform.js:180-203 | Returns true iff the component name matches. Only then is each named group set, the others untouched. Dirty and one request iff something was set. Follows the corrected options of Findings row 2: with a rotation in the state the source throws instead of returning true |
| Components.Transform.SetGivenAnchors | src/components/Transform.js:182-190 | The origin, mount-point and align steps of `setState`, leaving scale and position alone |
| Components.Transform.SetGivenPlacement | src/components/Transform.js:191-196 | The scale and position steps of `setState`, leaving the anchors alone |
| Components.Transform.FlushVec3 | src/components/Transform.js:316-340 | One `clean` step: a dirty group writes its value to the node and stays dirty iff active |
| Components.Transform.FlushRotation | src/components/Transform.js:341-346 | The rotation step of `clean` |
| Components.Transform.Clean | src/components/Transform.js:312-350 | Flushes every group. If any stays dirty: one next-tick request and dirty kept. Otherwise: not dirty and no request |
| WebglGeometries.IndexOf | src/webgl-geometries/DynamicGeometry.js:89 | `indexOf`: −1 iff absent, otherwise the first position holding the element |
| WebglGeometries.IndexOfAppend | src/webgl-geometries/DynamicGeometry.js:91-93 | Appending never moves the first occurrence of an element already present |
| WebglGeometries.IndexOfDistinct | src/webgl-geometries/DynamicGeometry.js:89 | In a list without repeats, `indexOf(s[i])` is `i` |
| WebglGeometries.SizeOrDefault | src/webgl-geometries/DynamicGeometry.js:96 | `size` or `DEFAULT_BUFFER_SIZE`: a missing or zero size gives the default |
| WebglGeometries.Slot | src/webgl-geometries/DynamicGeometry.js:89-93 | The buffer's index: its existing position, or a new last position, and it is the name's `indexOf` in the grown name list |
| WebglGeometries.Invalidate | src/webgl-geometries/DynamicGeometry.js:98-100 | Appends the index iff absent, so the list stays free of repeats |
| WebglGeometries.SetBuffer | src/webgl-geometries/DynamicGeometry.js:88-103 | The table stays well formed: parallel arrays, distinct names, distinct in-range invalidations |
| WebglGeometries.SetBufferStores | src/webgl-geometries/DynamicGeometry.js:88-103 | The name is appended iff new. Its slot gets the value or `[]` and the size or default. Its index is invalidated once. Other buffers are unchanged |
| WebglGeometries.Lookup | src/webgl-geometries/DynamicGeometry.js:67-76 | Throws "getVertexBuffer requires a name" on an empty name and "buffer does not exist" on an unknown one; otherwise the buffer's values |
| WebglGeometries.LookupAfterSet | src/webgl-geometries/DynamicGeometry.js:67-103 | Reading a buffer after writing it returns what was written (the value or `[]`) |
| WebglGeometries.LookupOtherAfterSet | src/webgl-geometries/DynamicGeometry.js:67-103 | Writing one buffer does not change what reading another returns |
| WebglGeometries.SetBufferKeepsOthers | src/webgl-geometries/DynamicGeometry.js:88-103 | Writing one buffer keeps every other buffer's index, values and spacing |
| WebglGeometries.CopyBuffers | src/webgl-geometries/DynamicGeometry.js:113-122 | Copying the other geometry's buffers one by one keeps the table well formed |
| WebglGeometries.CopyBuffersKeepsOthers | src/webgl-geometries/DynamicGeometry.js:113-122 | Buffers whose names are not copied keep their index, values and spacing |
| WebglGeometries.CopyBuffersCopiesEveryBuffer | src/webgl-geometries/DynamicGeometry.js:113-122 | After `fromGeometry`, every buffer of the source geometry is present with its values and its spacing (or the default) |
| WebglGeometries.ToUpper | src/webgl-geometries/DynamicGeometry.js:175 | Same length, character-wise upper-casing, and no lower-case ASCII letter remains |
| WebglGeometries.ToUpperIdempotent | src/webgl-geometries/DynamicGeometry.js:175 | Upper-casing twice is upper-casing once |
| WebglGeometries.PositionsRoundTrip | src/webgl-geometries/DynamicGeometry.js:131-133 | After `setVertexPositions(v)`, `getVertexPositions()` returns `v`, or `[]` when absent, and the spacing is 3 |
| WebglGeometries.DynamicGeometry.constructor | src/webgl-geometries/DynamicGeometry.js:40-44 | A dynamic geometry with no buffers and no invalidations |
| WebglGeometries.DynamicGeometry.SetVertexBuffer | src/webgl-geometries/DynamicGeometry.js:88-103 | The in-place update of the four arrays is the pure `SetBuffer` of the old table and keeps it well formed |
| WebglGeometries.DynamicGeometry.FromGeometry | src/webgl-geometries/DynamicGeometry.js:113-122 | The loop's result is `CopyBuffers` of the old table with the other geometry's arrays |
| WebglGeometries.DynamicGeometry.SetVertexPositions | src/webgl-geometries/DynamicGeometry.js:131-133 | Writes "a_pos" with spacing 3 |
| WebglGeometries.DynamicGeometry.SetNormals | src/webgl-geometries/DynamicGeometry.js:142-144 | Writes "a_normals" with spacing 3 |
| WebglGeometries.DynamicGeometry.SetTextureCoords | src/webgl-geometries/DynamicGeometry.js:153-155 | Writes "a_texCoord" with spacing 2 |
| WebglGeometries.DynamicGeometry.SetIndices | src/webgl-geometries/DynamicGeometry.js:163-165 | Writes "indices" with spacing 1 |
| WebglGeometries.DynamicGeometry.SetDrawType | src/webgl-geometries/DynamicGeometry.js:174-177 | The draw type is the upper-cased argument |
| WebglGeometries.DynamicGeometry.GetVertexBuffer | src/webgl-geometries/DynamicGeometry.js:67-76 | Throws "getVertexBuffer requires a name" on an empty name and "buffer does not exist" on an unknown one; otherwise returns the values stored under the name |
| WebglGeometries.DynamicGeometry.GetVertexPositions | src/webgl-geometries/DynamicGeometry.js:185-187 | The "a_pos" buffer's values; "buffer does not exist" iff there is none |
| WebglGeometries.DynamicGeometry.GetNormals | src/webgl-geometries/DynamicGeometry.js:194-196 | The "a_normals" buffer's values; "buffer does not exist" iff there is none |
| WebglGeometries.DynamicGeometry.GetTextureCoords | src/webgl-geometries/DynamicGeometry.js:203-205 | The "a_texCoord" buffer's values; "buffer does not exist" iff there is none |
| WebglGeometries.DynamicGeometry.GetLength | src/webgl-geometries/DynamicGeometry.js:54-56 | The length of the positions buffer; throws "buffer does not exist" iff there is none |
| WebglRenderables.BufferDataRecords | src/webgl-renderables/Mesh.js:144-152 | Corrected drain: six tokens per invalidation, newest first |
| WebglRenderables.BufferDataRecordsSendEachInvalidation | src/webgl-renderables/Mesh.js:144-152 | The record at each position carries the buffer the popped invalidation names: its name, values and spacing |
| WebglRenderables.BufferDataRecordsAsWritten | src/webgl-renderables/Mesh.js:141-152 | The drain as written: six tokens for each loop counter value `i`, taken from buffer `i` |
| WebglRenderables.AsWrittenSendsWrongBuffer | src/webgl-renderables/Mesh.js:144-152 | With buffers ["a_pos", "a_normals"] and only index 1 invalidated, the as-written drain uploads "a_pos", while the invalidated buffer is "a_normals" |
| WebglRenderables.AsWrittenStaysInBounds | src/webgl-renderables/Mesh.js:141-152 | A well-formed geometry has no more invalidations than buffers, so the as-written loop's reads `bufferNames[i]` … stay inside the arrays |
| WebglRenderables.AsWrittenAgreesWhenInOrder | src/webgl-renderables/Mesh.js:141-152 | The two drains agree whenever invalidation j is index j, e.g. a fresh geometry whose buffers were each written once in order |
| WebglRenderables.Mesh.constructor | src/webgl-renderables/Mesh.js:54-73 | Unmounted, uninitialised, the plane geometry; queues the draw options if given; registers with the node if given |
| WebglRenderables.Mesh.RequestUpdate | src/webgl-renderables/Mesh.js:640-645 | At most one outstanding node request: one is sent iff none is outstanding and the mesh is mounted |
| WebglRenderables.Mesh.SetDrawOptions | src/webgl-renderables/Mesh.js:83-89 | Always queues GL_SET_DRAW_OPTIONS and the options, and stores them |
| WebglRenderables.Mesh.SetGeometry | src/webgl-renderables/Mesh.js:114-156 | Throws on an unknown primitive name and changes nothing. Otherwise: GL_SET_GEOMETRY when changed (always for a primitive name, which builds a new geometry) and initialised; the drain when initialised and mounted; requests accordingly. Follows the corrected drain of Findings row 1: the source uploads buffer `i` of the loop counter instead |
| WebglRenderables.Mesh.SwitchGeometry | src/webgl-renderables/Mesh.js:128-138 | The geometry switch step: queued when initialised, with a request iff the geometry changed or the mesh is drawing |
| WebglRenderables.Mesh.DrainInvalidations | src/webgl-renderables/Mesh.js:140-154 | When initialised and mounted: requests an update if there are invalidations, then drains them all. Follows the corrected drain of Findings row 1: the source uploads buffer `i` of the loop counter instead |
| WebglRenderables.Mesh.PopInvalidations | src/webgl-renderables/Mesh.js:144-152 | The loop empties the invalidation list and queues one buffer-data record per invalidated buffer. Follows the corrected drain of Findings row 1: the source uploads buffer `i` of the loop counter instead |
| WebglRenderables.Mesh.SetFlatShading | src/webgl-renderables/Mesh.js:236-248 | When drawing or changed: stores the flag, queues `u_flatShading` as 1/0 if initialised, and requests an update |
| WebglRenderables.Mesh.OnShow | src/webgl-renderables/Mesh.js:539-543 | Always queues GL_MESH_VISIBILITY true and requests an update |
| WebglRenderables.Mesh.OnHide | src/webgl-renderables/Mesh.js:552-556 | Always queues GL_MESH_VISIBILITY false and requests an update |
| WebglRenderables.Mesh.QueueUniform | src/webgl-renderables/Mesh.js:568-576 | The shared uniform rule: queued only when initialised, update always requested |
| WebglRenderables.Mesh.OnTransformChange | src/webgl-renderables/Mesh.js:568-576 | Queues `u_transform` with the world transform when initialised |
| WebglRenderables.Mesh.OnSizeChange | src/webgl-renderables/Mesh.js:590-598 | Queues `u_size` with [x, y, z] when initialised |
| WebglRenderables.Mesh.OnOpacityChange | src/webgl-renderables/Mesh.js:610-618 | Queues `u_opacity` with the world opacity when initialised |
| WebglRenderables.Mesh.Init | src/webgl-renderables/Mesh.js:654-661 | Initialises, queues transform, opacity and size uniforms in that order, and sends at most one request |
| WebglRenderables.Mesh.Draw | src/webgl-renderables/Mesh.js:670-689 | Queues the three uniforms, the geometry record and every invalidated buffer, then the stored draw options and flat shading; invalidations end empty. Follows the corrected drain of Findings row 1: the source uploads buffer `i` of the loop counter instead |
| WebglRenderables.Mesh.ReapplyValue | src/webgl-renderables/Mesh.js:675-681 | The part of `draw` after `init`: the geometry record, every invalidated buffer, then the stored settings, with no further request (`init` already made it). Follows the corrected drain of Findings row 1: the source uploads buffer `i` of the loop counter instead |
| WebglRenderables.Mesh.ResendSettings | src/webgl-renderables/Mesh.js:680-681 | Re-applies stored draw options always, and stored flat shading, which is queued because the mesh is drawing |
| WebglRenderables.Mesh.OnMount | src/webgl-renderables/Mesh.js:503-511 | Keeps the node and id, then draws: everything `draw` queues. The new node gets one request iff none was outstanding, since `onDismount` does not clear `_requestingUpdate`. Follows the corrected drain of Findings row 1: the source uploads buffer `i` of the loop counter instead |
| WebglRenderables.Mesh.OnUpdate | src/webgl-renderables/Mesh.js:453-491 | On a mounted node: sends WITH, the location, then the whole queue in order; empties the queue and clears the request flag. Otherwise nothing changes |
| WebglRenderables.Mesh.OnDismount | src/webgl-renderables/Mesh.js:520-530 | Sends WITH, the location and GL_REMOVE_MESH to the node, then forgets the node and the drawing state |

## Left out

- Transitionable.js is not part of this model.
  - `Channel` abstracts its interpolation: curves, durations, the clock, `pause` and `resume` are not modelled.
  - Passage of time is the explicit `Advance`/`Settle`.
  - Callbacks are carried along but never invoked.
- Node.js is not part of this model.
  - `Scene.Node` only records requests, draw commands and the vectors and rotation components write.
  - Mounting (`addComponent` calling `onMount`) and the node's own size, transform and opacity computations are not modelled.
- Quaternion.js is not part of this model: `multiply` and `fromEuler` are function parameters with no assumed properties.
- Numbers are `real`: floating-point rounding is not modelled.
- Components.Vec3Group: the groups are values held by the transform, not objects.
  - The group's back-reference to its transform and aliasing of a group object held elsewhere are not modelled.
  - The group's half of the dirty protocol is `Components.Transform.MarkDirty`.
- Components.QuatGroup.Set: follows the corrected options of Findings row 2. The source throws a TypeError at Transform.js:123 when no options object is passed. It has already requested the update and set the dirty flags by then. The model sets the rotation at once instead.
- Components.Transform.SetRotation: follows the corrected options of Findings row 2; the throw for a call without options is not modelled.
- Components.Transform.Rotate: follows the corrected options of Findings row 2; the throw for a call without options is not modelled.
- Components.Transform.SetGivenRotation: follows the corrected options of Findings row 2. In the source, `setState`'s rotation step always throws.
- Components.Transform.SetState: follows the corrected options of Findings row 2. In the source, a state carrying a rotation throws after the vector groups are set and never returns `true`.
- Components.SetStateOfValueSettlesAtValue: covers the five vector groups only. In the source, `setState(getValue())` with a rotation group throws: it reads `.x` … `.w` off the rotation array, and Transform.js:123 assigns to undefined options.
- Components.ValueAsState: passes the rotation on as four numbers. The source hands `setState` the rotation array, whose `.x` … `.w` are undefined.
- Transitions.Channel.Set: Transitionable.js is not part of this model. The immediate `set` without options rests on `Align.js:44-46`; what it does with a callback is not modelled.
- Components.Transform.GetValue reports the rotation as the stored `[x, y, z, w]` array. Feeding that back to `setState` reads `.x` … `.w` off an array in the source; the model's `RotationState` takes the four numbers directly.
- Components.Transform: `onUpdate` just calls `clean` and is not a separate member. `toString` is the constant "Transform". `pause`/`resume` on the groups are left out with Transitionable's timing.
- Utilities.Registry: values are assumed non-null. In the source, `register(key, null)` or `register(key, undefined)` leaves a live key whose slot value is null yet not on the free stack. The model stores every registered value as present, so `GetValues`' "filled iff not freed" does not cover that case.
- Utilities.Registry: keys are assumed not to be names a JavaScript object inherits (`toString`, `constructor` and the like). The source's `{}` maps give those keys inherited values: on a new registry `get("constructor")` returns a function, and `register("constructor", v)` takes the overwrite branch instead of a slot.
- Utilities.Registry: keys are not coerced. JavaScript turns object keys into property-name strings, so distinct objects can collide; the model compares keys by value.
- Align.js is not part of this model.
- Geometry.js is not part of this model.
  - The geometry id, its draw type and `DEFAULT_BUFFER_SIZE` are constructor parameters.
  - Static geometries are not modelled: the mesh only holds `DynamicGeometry` objects, whose `dynamic` flag is always true. So the model's `GL_SET_GEOMETRY` and `GL_BUFFER_DATA` records carry `true` where a static geometry, such as the default plane, sends `false`.
  - The primitive constructors (Box, Plane, …) are not modelled: `setGeometry` by name takes the already-built geometry as a parameter.
  - The `console.warn` deprecation message is left out.
- WebglGeometries.ToUpper: upper-cases ASCII letters only, not the full Unicode case mapping of `toUpperCase`.
- WebglGeometries.DynamicGeometry.FromGeometry: reads the other geometry's arrays once, before the loop. Its `requires other.Valid()` gives distinct buffer names, and with distinct buffer names step j only touches index j, so this matches the source even when the other geometry is this one.
- WebglRenderables.Mesh: the material side is not modelled.
  - This covers base colour, glossiness, normals and position-offset expressions, `_pushInvalidations`, and material registration. They depend on Color.js and the material modules, which are outside this model.
  - Because glossiness is never set, `onUpdate` always clears the request flag.
- WebglRenderables.Mesh: the getters (`getDrawOptions`, `getGeometry`, `getFlatShading`, `getValue`, …) and the empty `onAddUIEvent` are not modelled.
- WebglRenderables.Mesh.OnMount: `TransformSystem`, `OpacitySystem` and `node.getSize()` are outside this model. The world transform, world opacity and size they would supply are parameters of `OnMount`, `Draw` and `Init`.
- WebglRenderables.Mesh.PopInvalidations: uploads the buffer each popped invalidation names, the corrected drain of Findings row 1. The source uploads buffer `i` of the loop counter.
- WebglRenderables.Mesh.DrainInvalidations: uses the corrected drain of Findings row 1.
- WebglRenderables.Mesh.SetGeometry: uses the corrected drain of Findings row 1.
- WebglRenderables.Mesh.ReapplyValue: uses the corrected drain of Findings row 1.
- WebglRenderables.Mesh.OnMount: uses the corrected drain of Findings row 1.
- WebglRenderables.Mesh.Draw: uses the corrected drain of Findings row 1.
- WebglRenderables.Mesh.Draw: does not state that the geometry stays well formed afterwards; only the contents of the queue and the invalidation list are stated.
- Commands are tokens (`Scene.Token`); the numeric command codes of the renderer are not modelled.

## Findings

| source | as written | input that shows it | evidently intended | confidence | as-written member | corrected member |
|---|---|---|---|---|---|---|
| src/webgl-renderables/Mesh.js:144-152 | The drain loop pops the invalidation list but uploads `bufferNames[i]`, `bufferValues[i]` and `bufferSpacings[i]`, where `i` is the loop counter, not the popped index | Geometry with buffers ["a_pos", "a_normals"] after only "a_normals" was rewritten: invalidations = [1]. The upload sends "a_pos", and "a_normals" is never re-sent | Upload the buffer whose index was popped | not executed | WebglRenderables.AsWrittenSendsWrongBuffer | WebglRenderables.BufferDataRecordsSendEachInvalidation |
| src/components/Transform.js:123 | `options.method = 'slerp'` runs even when `options` is undefined, e.g. `setRotation(x, y, z, w)` with no options, or `setState` with a rotation | `setState({component: 'Transform', rotation: {x: 0, y: 0, z: 0, w: 1}})` throws a TypeError | Blend by slerp when an options object is given, and without options set the rotation at once like every other `set` | not executed | Components.SetRotationWithoutOptionsThrows | Components.SlerpOptions |
