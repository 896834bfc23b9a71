/**
 * The interpolator that Transform.js drives. Transitionable.js is not part of
 * this model; what Transform.js relies on is kept: a current state, a FIFO
 * queue of pending transitions whose last entry is the pending tail,
 * `set`, `isActive`, and `halt`. A `set` with a transition is queued; one
 * without a transition takes effect at once, as the `Align` constructor
 * relies on when it loads the node's align (src/components/Align.js:44-46).
 * Time is abstract: `Advance` completes the transition at the head of the queue.
 */
module Transitions {
  import opened Wrappers

  /** The options object a caller passes with a target; `blendMethod` is its `method` property. */
  datatype TransitionOptions = TransitionOptions(duration: Option<real>, curve: Option<string>, blendMethod: Option<string>)

  /**
   * A JavaScript argument where the source inspects its shape at run time:
   * the optional `w`, `options` and `callback` parameters of the rotation setters.
   */
  datatype Arg = Undefined | Null | Number(n: real) | Options(options: TransitionOptions) | Function(callback: nat)
  {
    /** JavaScript's `x == null`. */
    predicate IsNullish() {
      Undefined? || Null?
    }
  }

  /** One queued transition: its target, its options and its completion callback. */
  datatype Transition<T> = Transition(target: T, options: Arg, callback: Arg)

  /** A `Transitionable`: the current state and the pending transitions, oldest first. */
  datatype Channel<T> = Channel(state: T, queue: seq<Transition<T>>)
  {
    /** `get()`: the current value. */
    function Get(): T {
      state
    }

    /** `isActive()`: some transition has not completed yet. */
    predicate IsActive() {
      |queue| > 0
    }

    /** The value the channel will settle at: the last queued target, else the current state. */
    function PendingTail(): T {
      if |queue| > 0 then queue[|queue| - 1].target else state
    }

    /**
     * `set(target, options, callback)`. Given options, the transition is
     * queued after the pending tail and the current value stays. Without
     * options (`null` or `undefined`) the channel jumps to `target` and
     * whatever was queued is dropped.
     */
    function Set(target: T, options: Arg, callback: Arg): (r: Channel<T>)
      ensures r.PendingTail() == target
      ensures options.IsNullish() ==> !r.IsActive() && r.Get() == target
      ensures !options.IsNullish() ==> r.IsActive() && r.Get() == Get()
      ensures !options.IsNullish() ==> r.queue == queue + [Transition(target, options, callback)]
    {
      if options.IsNullish() then Channel(target, [])
      else Channel(state, queue + [Transition(target, options, callback)])
    }

    /** `halt()`: drop the pending transitions and stay at the current value. */
    function Halt(): (r: Channel<T>)
      ensures !r.IsActive()
      ensures r.Get() == Get()
    {
      Channel(state, [])
    }

    /** The transition at the head of the queue completes. */
    function Advance(): (r: Channel<T>)
      requires IsActive()
      ensures r.Get() == queue[0].target
      ensures r.PendingTail() == PendingTail()
      ensures |r.queue| == |queue| - 1
    {
      Channel(queue[0].target, queue[1..])
    }

    /** Every pending transition completes. */
    function Settle(): (r: Channel<T>)
      ensures !r.IsActive()
      ensures r.Get() == PendingTail()
      decreases |queue|
    {
      if IsActive() then Advance().Settle() else this
    }
  }

  /** A channel created at `value`, with nothing queued. */
  function Fresh<T>(value: T): (r: Channel<T>)
    ensures !r.IsActive()
    ensures r.Get() == value && r.PendingTail() == value
  {
    Channel(value, [])
  }

  /** Two `set` calls in a row chain: the channel settles at the second target, whether or not the first had completed. */
  lemma ChainedSetsSettleAtLastTarget<T>(c: Channel<T>, t1: T, t2: T, o1: Arg, o2: Arg, cb1: Arg, cb2: Arg)
    ensures c.Set(t1, o1, cb1).Set(t2, o2, cb2).Settle().Get() == t2
    ensures c.Set(t1, o1, cb1).Settle().Set(t2, o2, cb2).Settle().Get() == t2
  {
  }
}
