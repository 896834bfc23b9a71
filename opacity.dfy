/**
 * The opacity component of a node (src/core/Opacity.js). `opacity` is the
 * value the application set, `local` the value composited with the parent
 * chain up to the nearest breakpoint, `global` the cached world opacity.
 */
module Core {
  import opened Wrappers

  /** `Opacity.WORLD_CHANGED` and `Opacity.LOCAL_CHANGED`. */
  const WORLD_CHANGED: bv32 := 1
  const LOCAL_CHANGED: bv32 := 2

  /** The bitmask `fromNode` and `fromNodeWithParent` return. */
  function ChangeMask(localChanged: bool, worldChanged: bool): (m: bv32)
    ensures (m & LOCAL_CHANGED != 0) <==> localChanged
    ensures (m & WORLD_CHANGED != 0) <==> worldChanged
    ensures m <= 3
  {
    (if worldChanged then WORLD_CHANGED else 0) | (if localChanged then LOCAL_CHANGED else 0)
  }

  /**
   * `chain` lists the ancestors of `o`, parent first, ending at the root:
   * the parent links are acyclic and `o` is not its own ancestor.
   */
  ghost predicate ParentChain(o: Opacity, chain: seq<Opacity>)
    reads o, chain
  {
    && o !in chain
    && (o.parent == null <==> |chain| == 0)
    && (|chain| > 0 ==> chain[0] == o.parent && chain[|chain| - 1].parent == null)
    && (forall j :: 0 <= j < |chain| - 1 ==> chain[j].parent == chain[j + 1])
  }

  /** The position in `chain` of the first breakpoint, or `|chain|` when there is none. */
  function NearestBreakPoint(chain: seq<Opacity>): (n: nat)
    reads chain
    ensures n <= |chain|
    ensures n < |chain| ==> chain[n].breakPoint
    ensures forall j :: 0 <= j < n ==> !chain[j].breakPoint
    decreases |chain|
  {
    if |chain| == 0 then 0
    else if chain[0].breakPoint then 0
    else 1 + NearestBreakPoint(chain[1..])
  }

  /**
   * The world opacity `calculateWorldOpacity` gives a node whose ancestors
   * are `chain`: the nearest breakpoint's cached world value times `local`,
   * or `local` alone when no ancestor is a breakpoint.
   */
  ghost function WorldOpacity(o: Opacity, chain: seq<Opacity>): real
    reads o, chain
  {
    var n := NearestBreakPoint(chain);
    if n < |chain| then chain[n].global * o.local else o.local
  }

  class Opacity {
    var local: real
    var global: real
    var opacity: real
    var parent: Opacity?
    var breakPoint: bool
    var calculatingWorldOpacity: bool

    /** Every breakpoint calculates its world opacity. */
    ghost predicate Valid()
      reads this
    {
      breakPoint ==> calculatingWorldOpacity
    }

    constructor (parent: Opacity?)
      ensures Valid()
      ensures local == 1.0 && global == 1.0 && opacity == 1.0
      ensures this.parent == parent
      ensures !breakPoint && !calculatingWorldOpacity
    {
      local, global, opacity := 1.0, 1.0, 1.0;
      this.parent := parent;
      breakPoint, calculatingWorldOpacity := false, false;
    }

    /** `reset()`: detach from the parent and drop the breakpoint; the values are kept. */
    method Reset()
      modifies this`parent, this`breakPoint
      ensures Valid()
      ensures parent == null && !breakPoint
    {
      parent := null;
      breakPoint := false;
    }

    method SetParent(parent: Opacity?)
      modifies this`parent
      ensures this.parent == parent
    {
      this.parent := parent;
    }

    /** `setBreakPoint()`: a breakpoint always calculates its world opacity. */
    method SetBreakPoint()
      modifies this`breakPoint, this`calculatingWorldOpacity
      ensures Valid()
      ensures breakPoint && calculatingWorldOpacity
    {
      breakPoint := true;
      calculatingWorldOpacity := true;
    }

    method SetCalculateWorldOpacity()
      modifies this`calculatingWorldOpacity
      ensures Valid()
      ensures calculatingWorldOpacity
    {
      calculatingWorldOpacity := true;
    }

    /** `setOpacity(v)` records the value; `local` and `global` wait for `calculate`. */
    method SetOpacity(opacity: real)
      modifies this`opacity
      ensures this.opacity == opacity
    {
      this.opacity := opacity;
    }

    /** `getWorldOpacity()`: the cached world value, an error unless it is being kept. */
    function GetWorldOpacity(): (r: Result<real>)
      reads this
      ensures r.Failure? <==> !breakPoint && !calculatingWorldOpacity
      ensures r.Success? ==> r.value == global
      ensures Valid() ==> (r.Success? <==> calculatingWorldOpacity)
    {
      if !breakPoint && !calculatingWorldOpacity then
        Failure("This opacity is not calculating world transforms")
      else
        Success(global)
    }

    /**
     * `calculateWorldOpacity()`: walk up to the nearest breakpoint and
     * recompute `global`; report whether it changed. The breakpoint found
     * never refuses `getWorldOpacity`.
     */
    method CalculateWorldOpacity(ghost chain: seq<Opacity>) returns (changed: bool)
      requires ParentChain(this, chain)
      modifies this`global
      ensures global == WorldOpacity(this, chain)
      ensures changed <==> global != old(global)
    {
      var nearest := parent;
      var previousGlobal := global;
      ghost var i := 0;
      while nearest != null && !nearest.breakPoint
        invariant 0 <= i <= |chain|
        invariant i < |chain| ==> nearest == chain[i]
        invariant i == |chain| ==> nearest == null
        invariant forall j :: 0 <= j < i ==> !chain[j].breakPoint
        decreases |chain| - i
      {
        nearest := nearest.parent;
        i := i + 1;
      }
      NearestBreakPointIsFirst(chain, i);
      if nearest != null {
        var w := nearest.GetWorldOpacity();
        assert w.Success?;
        global := w.value * local;
      } else {
        global := local;
      }
      changed := previousGlobal != global;
    }

    /** `fromNode()`: `local` takes the application's value directly. */
    method FromNode(ghost chain: seq<Opacity>) returns (changed: bv32)
      requires calculatingWorldOpacity ==> ParentChain(this, chain)
      modifies this`local, this`global
      ensures local == opacity
      ensures calculatingWorldOpacity ==> global == WorldOpacity(this, chain)
      ensures !calculatingWorldOpacity ==> global == old(global)
      ensures changed == ChangeMask(old(local) != local, global != old(global))
    {
      changed := 0;
      if opacity != local {
        changed := changed | LOCAL_CHANGED;
      }
      local := opacity;
      if calculatingWorldOpacity {
        var worldChanged := CalculateWorldOpacity(chain);
        if worldChanged {
          changed := changed | WORLD_CHANGED;
        }
      }
    }

    /** `fromNodeWithParent()`: `local` is the parent's `local` times the application's value. */
    method FromNodeWithParent(ghost chain: seq<Opacity>) returns (changed: bv32)
      requires parent != null
      requires calculatingWorldOpacity ==> ParentChain(this, chain)
      modifies this`local, this`global
      ensures local == old(parent.local) * opacity
      ensures calculatingWorldOpacity ==> global == WorldOpacity(this, chain)
      ensures !calculatingWorldOpacity ==> global == old(global)
      ensures changed == ChangeMask(old(local) != local, global != old(global))
    {
      changed := 0;
      var previousLocal := local;
      local := parent.local * opacity;
      if calculatingWorldOpacity {
        var worldChanged := CalculateWorldOpacity(chain);
        if worldChanged {
          changed := changed | WORLD_CHANGED;
        }
      }
      if previousLocal != local {
        changed := changed | LOCAL_CHANGED;
      }
    }

    /** `calculate(node)`: compose with the parent unless it is absent or a breakpoint. */
    method Calculate(ghost chain: seq<Opacity>) returns (changed: bv32)
      requires calculatingWorldOpacity ==> ParentChain(this, chain)
      modifies this`local, this`global
      ensures local == (if parent == null || parent.breakPoint then opacity else old(parent.local) * opacity)
      ensures calculatingWorldOpacity ==> global == WorldOpacity(this, chain)
      ensures !calculatingWorldOpacity ==> global == old(global)
      ensures changed == ChangeMask(old(local) != local, global != old(global))
    {
      if parent == null || parent.breakPoint {
        changed := FromNode(chain);
      } else {
        changed := FromNodeWithParent(chain);
      }
    }
  }

  /** A breakpoint root with opacity `a` and a plain child with opacity `b`, both calculated. */
  method NewBreakPointWithChild(a: real, b: real) returns (root: Opacity, middle: Opacity)
    ensures fresh(root) && fresh(middle) && root != middle
    ensures root.parent == null && root.breakPoint && root.calculatingWorldOpacity && root.global == a
    ensures middle.parent == root && !middle.breakPoint && middle.opacity == b && middle.local == b
  {
    root := new Opacity(null);
    root.SetBreakPoint();
    root.SetOpacity(a);
    var _ := root.Calculate([]);
    middle := new Opacity(root);
    middle.SetOpacity(b);
    var _ := middle.Calculate([root]);
  }

  /** A child of `middle` that keeps its world opacity, with opacity `c`, calculated. */
  method NewTrackingLeaf(root: Opacity, middle: Opacity, c: real) returns (leaf: Opacity)
    requires root != middle && root.parent == null && root.breakPoint
    requires middle.parent == root && !middle.breakPoint
    ensures fresh(leaf) && leaf.parent == middle && leaf.calculatingWorldOpacity && leaf.opacity == c
    ensures leaf.local == middle.local * c && leaf.global == root.global * leaf.local
  {
    leaf := new Opacity(middle);
    leaf.SetCalculateWorldOpacity();
    leaf.SetOpacity(c);
    RecalculateLeaf(root, middle, leaf);
  }

  /** `calculate` on a leaf two levels below a breakpoint root, through a plain parent. */
  method RecalculateLeaf(root: Opacity, middle: Opacity, leaf: Opacity)
    requires root != middle && root.parent == null && root.breakPoint
    requires middle.parent == root && !middle.breakPoint
    requires leaf != root && leaf != middle && leaf.parent == middle && leaf.calculatingWorldOpacity
    modifies leaf`local, leaf`global
    ensures leaf.local == middle.local * leaf.opacity && leaf.global == root.global * leaf.local
  {
    var _ := leaf.Calculate([middle, root]);
    NearestBreakPointIsFirst([middle, root], 1);
  }

  /**
   * A breakpoint root with children B and C below it: C's world opacity is
   * the root's world value times B's and C's own values, and recomputing
   * after the root changes moves C's world value without touching B's or
   * C's `local`.
   */
  method BreakPointScenario(a: real, b: real, c: real, a2: real)
    returns (before: real, after: real, bLocal: real, cLocal: real)
    ensures before == a * (b * c) && after == a2 * (b * c)
    ensures bLocal == b && cLocal == b * c
  {
    var root, middle := NewBreakPointWithChild(a, b);
    var leaf := NewTrackingLeaf(root, middle, c);
    before := leaf.global;
    root.SetOpacity(a2);
    var _ := root.Calculate([]);
    assert root.global == a2;
    var _ := middle.Calculate([root]);
    assert middle.local == b;
    RecalculateLeaf(root, middle, leaf);
    after, bLocal, cLocal := leaf.global, middle.local, leaf.local;
  }

  /** Every ancestor before position `i` is not a breakpoint, and `chain[i]` is one (or the walk ran off the root). */
  lemma {:induction false} NearestBreakPointIsFirst(chain: seq<Opacity>, i: nat)
    requires i <= |chain|
    requires i < |chain| ==> chain[i].breakPoint
    requires forall j :: 0 <= j < i ==> !chain[j].breakPoint
    ensures NearestBreakPoint(chain) == i
    decreases i
  {
    if i > 0 {
      NearestBreakPointIsFirst(chain[1..], i - 1);
    }
  }
}
