/** The path follower of Assets/Scripts/PathSystem/PathFollower.cs (with the `PathData` and
    `PathNode` records of the same directory): a coroutine that walks an object from node to node,
    moving at the current node's speed until within 0.05 of the next node, waiting there for that
    node's `waitTime`, and wrapping around when the path loops.

    The coroutine is modelled frame by frame: `Routine` is where it is suspended, `Resume` runs it
    from there to its next `yield`. The path is read afresh each frame, so it is a parameter
    (`None` when `pathData` or its node list is null). `Vector2.MoveTowards` needs a square root,
    so the frame reports the call it makes (`MoveRequest`) and the caller passes in the engine's
    answer. */
module PathFollowing {
  import opened UnityMath

  datatype Vec2 = Vec2(x: real, y: real)

  function DistSq(a: Vec2, b: Vec2): real
  {
    Sq(a.x - b.x) + Sq(a.y - b.y)
  }

  /** `Vector2.Distance(a, b) > 0.05`, compared on squares. */
  predicate Far(a: Vec2, b: Vec2)
  {
    DistSq(a, b) > Sq(0.05)
  }

  /** `PathNode`. */
  datatype PathNode = PathNode(position: Vec2, waitTime: real, moveSpeed: real)

  /** What `PathData` holds in a given frame. */
  datatype PathView = PathView(nodes: seq<PathNode>, loop: bool)

  /** The guard at the head of each leg and after each move: a path with at least two nodes. */
  predicate Followable(path: Option<PathView>)
  {
    path.Some? && |path.value.nodes| >= 2
  }

  /** The index a leg starts from: one past the end is reset to 0. */
  function LegStart(index: nat, count: nat): nat
  {
    if index >= count then 0 else index
  }

  /** The node a leg heads for, or None where the coroutine ends (the last node of a path that
      does not loop). The source's second bounds check on the wrapped index can never fire and is
      not modelled. */
  function NextNode(path: PathView, index: nat): Option<nat>
    requires |path.nodes| >= 2
  {
    var nextIndex := LegStart(index, |path.nodes|) + 1;
    if !path.loop && nextIndex >= |path.nodes| then None
    else Some(if path.loop then nextIndex % |path.nodes| else nextIndex)
  }

  /** The `Vector2.MoveTowards` call a frame makes. */
  datatype MoveRequest = MoveRequest(target: Vec2, maxDelta: real)

  /** Where the coroutine is suspended. `Moving` is the `yield return null` inside a leg (the leg's
      nodes as captured, and the index the next leg starts from); `Waiting` is the
      `WaitForSeconds` at a node; `Frozen` is a frame that never reaches a `yield` (see
      `FreezesExactlyWhenEveryNodeIsHere`). */
  datatype Routine =
    | Idle
    | Moving(nextIndex: nat, current: PathNode, next: PathNode)
    | Waiting(nextIndex: nat, waitTime: real, elapsed: real)
    | Frozen

  /** What one frame of the coroutine yields: where it is suspended and the move it requested. */
  datatype Frame = Frame(routine: Routine, request: Option<MoveRequest>)

  /** The coroutine's outer loop, entered at `index` with the object at `pos`, after `spins` legs
      that ended without a `yield` this frame. Once every leg of a looping path has passed that way
      the loop is back where it began with nothing changed, so it never yields: `Frozen`. */
  function Legs(path: Option<PathView>, pos: Vec2, index: nat, dt: real, spins: nat): Frame
    requires Followable(path) ==> spins <= |path.value.nodes|
    decreases if Followable(path) then |path.value.nodes| - spins else 0
  {
    if !Followable(path) then Frame(Idle, None)
    else if spins == |path.value.nodes| then Frame(Frozen, None)
    else
      var nodes := path.value.nodes;
      var current := nodes[LegStart(index, |nodes|)];
      var nextIndex := LegStart(index, |nodes|) + 1;
      match NextNode(path.value, index)
      case None => Frame(Idle, None)
      case Some(s) =>
        var next := nodes[s];
        if Far(pos, next.position) then
          Frame(Moving(nextIndex, current, next), Some(MoveRequest(next.position, PerFrame(current.moveSpeed, dt))))
        else if next.waitTime > 0.0 then Frame(Waiting(nextIndex, next.waitTime, 0.0), None)
        else Legs(path, pos, nextIndex, dt, spins + 1)
  }

  /** `Start`: the position it sets, and the first frame of `FollowPath` when it starts it. */
  function StartFrame(path: Option<PathView>, pos: Vec2, dt: real): (Vec2, Frame)
  {
    if path.None? || |path.value.nodes| == 0 then (pos, Frame(Idle, None))
    else if |path.value.nodes| == 1 then (path.value.nodes[0].position, Frame(Idle, None))
    else
      var start := path.value.nodes[0].position;
      (start, Legs(path, start, 0, dt, 0))
  }

  /** One later frame of `FollowPath`, resumed from `routine`. */
  function ResumeFrame(path: Option<PathView>, pos: Vec2, routine: Routine, dt: real): Frame
  {
    match routine
    case Idle => Frame(Idle, None)
    case Frozen => Frame(Frozen, None)
    case Moving(nextIndex, current, next) =>
      if !Followable(path) then Frame(Idle, None)
      else if Far(pos, next.position) then
        Frame(routine, Some(MoveRequest(next.position, PerFrame(current.moveSpeed, dt))))
      else if next.waitTime > 0.0 then Frame(Waiting(nextIndex, next.waitTime, 0.0), None)
      else Legs(path, pos, nextIndex, dt, 0)
    case Waiting(nextIndex, waitTime, elapsed) =>
      if elapsed + dt >= waitTime then Legs(path, pos, nextIndex, dt, 0)
      else Frame(Waiting(nextIndex, waitTime, elapsed + dt), None)
  }

  class PathFollower {
    var position: Vec2
    var routine: Routine

    constructor (initialPosition: Vec2)
      ensures position == initialPosition && routine == Idle
    {
      position := initialPosition;
      routine := Idle;
    }

    /** `Start`; `moved` is the engine's `Vector2.MoveTowards` for the request, if one is made. */
    method Start(path: Option<PathView>, dt: real, moved: Vec2) returns (request: Option<MoveRequest>)
      modifies this
      ensures var (p, f) := StartFrame(path, old(position), dt);
        routine == f.routine && request == f.request && position == (if f.request.Some? then moved else p)
    {
      if path.None? || |path.value.nodes| == 0 {
        routine := Idle;
        return None;
      }
      if |path.value.nodes| == 1 {
        position := path.value.nodes[0].position;
        routine := Idle;
        return None;
      }
      position := path.value.nodes[0].position;
      var f := FollowLegs(path, 0, dt);
      routine := f.routine;
      request := f.request;
      if request.Some? {
        position := moved;
      }
    }

    /** One frame of the coroutine after `Start`. */
    method Resume(path: Option<PathView>, dt: real, moved: Vec2) returns (request: Option<MoveRequest>)
      modifies this
      ensures var f := ResumeFrame(path, old(position), old(routine), dt);
        routine == f.routine && request == f.request && position == (if f.request.Some? then moved else old(position))
    {
      var f: Frame;
      match routine {
        case Idle =>
          f := Frame(Idle, None);
        case Frozen =>
          f := Frame(Frozen, None);
        case Moving(nextIndex, current, next) =>
          if !Followable(path) {
            f := Frame(Idle, None);
          } else if Far(position, next.position) {
            f := Frame(routine, Some(MoveRequest(next.position, PerFrame(current.moveSpeed, dt))));
          } else if next.waitTime > 0.0 {
            f := Frame(Waiting(nextIndex, next.waitTime, 0.0), None);
          } else {
            f := FollowLegs(path, nextIndex, dt);
          }
        case Waiting(nextIndex, waitTime, elapsed) =>
          if elapsed + dt >= waitTime {
            f := FollowLegs(path, nextIndex, dt);
          } else {
            f := Frame(Waiting(nextIndex, waitTime, elapsed + dt), None);
          }
      }
      routine := f.routine;
      request := f.request;
      if request.Some? {
        position := moved;
      }
    }

    /** The `while (true)` loop of `FollowPath` from `index` to its next `yield` or `yield break`.
        The path cannot change within a frame, so the guard that heads each pass is checked once. */
    method FollowLegs(path: Option<PathView>, index: nat, dt: real) returns (f: Frame)
      ensures f == Legs(path, position, index, dt, 0)
    {
      if !Followable(path) {
        return Frame(Idle, None);
      }
      var nodes := path.value.nodes;
      var i: nat := index;
      var spins := 0;
      while spins < |nodes|
        invariant 0 <= spins <= |nodes|
        invariant Legs(path, position, i, dt, spins) == Legs(path, position, index, dt, 0)
        decreases |nodes| - spins
      {
        if i >= |nodes| {
          i := 0;
        }
        var current := nodes[i];
        var nextIndex := i + 1;
        if !path.value.loop && nextIndex >= |nodes| {
          return Frame(Idle, None);
        }
        var safeNextIndex := if path.value.loop then nextIndex % |nodes| else nextIndex;
        var next := nodes[safeNextIndex];
        if Far(position, next.position) {
          return Frame(Moving(nextIndex, current, next), Some(MoveRequest(next.position, PerFrame(current.moveSpeed, dt))));
        }
        if next.waitTime > 0.0 {
          return Frame(Waiting(nextIndex, next.waitTime, 0.0), None);
        }
        i := nextIndex;
        spins := spins + 1;
      }
      return Frame(Frozen, None);
    }
  }

  // ---------------------------------------------------------------- properties

  /** `Start`: nothing happens without a path or nodes, a single node only places the object, and
      two or more place it on node 0 and start following towards node 1. */
  lemma StartCases(path: Option<PathView>, pos: Vec2, dt: real)
    ensures path.None? || |path.value.nodes| == 0 ==> StartFrame(path, pos, dt) == (pos, Frame(Idle, None))
    ensures path.Some? && |path.value.nodes| == 1 ==>
      StartFrame(path, pos, dt) == (path.value.nodes[0].position, Frame(Idle, None))
    ensures Followable(path) ==>
      var (p, f) := StartFrame(path, pos, dt);
      p == path.value.nodes[0].position &&
      (Far(p, path.value.nodes[1].position) ==>
        f == Frame(Moving(1, path.value.nodes[0], path.value.nodes[1]),
                   Some(MoveRequest(path.value.nodes[1].position, PerFrame(path.value.nodes[0].moveSpeed, dt)))))
  {
    if Followable(path) {
      assert 1 % |path.value.nodes| == 1;
    }
  }

  /** A stopped coroutine stays stopped, so a single-node path never moves. */
  lemma IdleStaysIdle(path: Option<PathView>, pos: Vec2, dt: real)
    ensures ResumeFrame(path, pos, Idle, dt) == Frame(Idle, None)
  {
  }

  /** Index stepping: a leg from an index at or past the end starts at 0; on a looping path it
      heads for the following node, wrapping from the last to the first; on a path that does not
      loop it heads for the following node, and the coroutine ends at the last node. */
  lemma LegIndexRules(path: PathView, index: nat)
    requires |path.nodes| >= 2
    ensures index >= |path.nodes| ==> LegStart(index, |path.nodes|) == 0
    ensures var i := LegStart(index, |path.nodes|);
      i < |path.nodes| &&
      (path.loop ==> NextNode(path, index) == Some(if i + 1 == |path.nodes| then 0 else i + 1)) &&
      (!path.loop ==> (NextNode(path, index).None? <==> i + 1 == |path.nodes|)) &&
      (!path.loop && i + 1 < |path.nodes| ==> NextNode(path, index) == Some(i + 1))
  {
    WrapMod(LegStart(index, |path.nodes|) + 1, |path.nodes|);
  }

  /** While a leg is under way, each frame requests a move towards the leg's target at the
      current node's speed; within 0.05 of it the coroutine waits there when the node has a wait,
      and otherwise goes on to the next leg. A path that has lost its nodes stops it. */
  lemma MovingFrame(path: Option<PathView>, pos: Vec2, nextIndex: nat, current: PathNode, next: PathNode, dt: real)
    ensures var r := Moving(nextIndex, current, next);
      var f := ResumeFrame(path, pos, r, dt);
      (!Followable(path) ==> f == Frame(Idle, None)) &&
      (Followable(path) && Far(pos, next.position) ==>
        f == Frame(r, Some(MoveRequest(next.position, PerFrame(current.moveSpeed, dt))))) &&
      (Followable(path) && !Far(pos, next.position) && next.waitTime > 0.0 ==>
        f == Frame(Waiting(nextIndex, next.waitTime, 0.0), None)) &&
      (Followable(path) && !Far(pos, next.position) && next.waitTime <= 0.0 ==>
        f == Legs(path, pos, nextIndex, dt, 0))
  {
  }

  /** A wait lasts until the frame times add up to the node's wait; it requests no move, and it
      is not cut short by the path changing. */
  lemma WaitingFrame(path: Option<PathView>, pos: Vec2, nextIndex: nat, waitTime: real, elapsed: real, dt: real)
    ensures var f := ResumeFrame(path, pos, Waiting(nextIndex, waitTime, elapsed), dt);
      (elapsed + dt < waitTime ==> f == Frame(Waiting(nextIndex, waitTime, elapsed + dt), None)) &&
      (elapsed + dt >= waitTime ==> f == Legs(path, pos, nextIndex, dt, 0))
  {
  }

  /** A frame that finds fewer than two nodes ends the coroutine without moving. */
  lemma StopsWithoutTwoNodes(path: Option<PathView>, pos: Vec2, index: nat, dt: real, spins: nat)
    requires !Followable(path)
    ensures Legs(path, pos, index, dt, spins) == Frame(Idle, None)
  {
  }

  /** A path that does not loop never freezes a frame: its legs only move forward. */
  lemma {:induction false} OpenPathNeverFreezes(path: Option<PathView>, pos: Vec2, index: nat, dt: real, spins: nat)
    requires Followable(path) && !path.value.loop
    requires spins <= LegStart(index, |path.value.nodes|)
    ensures Legs(path, pos, index, dt, spins).routine != Frozen
    decreases |path.value.nodes| - spins
  {
    var c := |path.value.nodes|;
    var i := LegStart(index, c);
    if i + 1 < c {
      var next := path.value.nodes[i + 1];
      if !Far(pos, next.position) && next.waitTime <= 0.0 {
        OpenPathNeverFreezes(path, pos, i + 1, dt, spins + 1);
      }
    }
  }

  /** `x` reduced once by `c`. */
  function Wrap(x: nat, c: nat): nat
  {
    if x < c then x else x - c
  }

  /** The node the `k`-th leg of a frame heads for on a looping path, when the first leg started
      at `first`. */
  function Visited(first: nat, k: nat, c: nat): nat
  {
    Wrap(first + k + 1, c)
  }

  /** A node at which a leg ends without a `yield`: already within 0.05 and with no wait. */
  predicate PassedThrough(path: PathView, pos: Vec2, j: nat)
    requires j < |path.nodes|
  {
    !Far(pos, path.nodes[j].position) && path.nodes[j].waitTime <= 0.0
  }

  /** On a looping path, after `spins` legs without a `yield` the frame freezes exactly when every
      remaining leg also ends without one. */
  lemma {:induction false} LoopFreezesFrom(path: Option<PathView>, pos: Vec2, index: nat, dt: real, spins: nat, first: nat)
    requires Followable(path) && path.value.loop
    requires first < |path.value.nodes| && spins <= |path.value.nodes|
    requires LegStart(index, |path.value.nodes|) == Wrap(first + spins, |path.value.nodes|)
    ensures Legs(path, pos, index, dt, spins).routine == Frozen <==>
      forall k :: spins <= k < |path.value.nodes| ==>
        Visited(first, k, |path.value.nodes|) < |path.value.nodes| &&
        PassedThrough(path.value, pos, Visited(first, k, |path.value.nodes|))
    decreases |path.value.nodes| - spins
  {
    var c := |path.value.nodes|;
    if spins < c {
      var i := LegStart(index, c);
      var s := Visited(first, spins, c);
      WrapMod(i + 1, c);
      assert NextNode(path.value, index) == Some(s);
      assert LegStart(i + 1, c) == Wrap(first + spins + 1, c);
      LoopFreezesFrom(path, pos, i + 1, dt, spins + 1, first);
    }
  }

  /** Stepping past the last node of a loop wraps round to the first. */
  lemma WrapMod(x: nat, c: nat)
    requires 0 < x <= c
    ensures x % c == Wrap(x, c)
  {
    if x == c {
      assert x % c == 0;
    }
  }

  /** A frame of `FollowPath` never reaches a `yield` exactly when the path loops and every one of
      its nodes is within 0.05 of the object and has no wait: the `while (true)` loop then goes
      round the path for ever and the game hangs. */
  lemma FreezesExactlyWhenEveryNodeIsHere(path: Option<PathView>, pos: Vec2, index: nat, dt: real)
    requires Followable(path)
    ensures Legs(path, pos, index, dt, 0).routine == Frozen <==>
      path.value.loop && forall j :: 0 <= j < |path.value.nodes| ==> PassedThrough(path.value, pos, j)
  {
    var c := |path.value.nodes|;
    var first := LegStart(index, c);
    if !path.value.loop {
      OpenPathNeverFreezes(path, pos, index, dt, 0);
    } else {
      LoopFreezesFrom(path, pos, index, dt, 0, first);
      if forall k :: 0 <= k < c ==> Visited(first, k, c) < c && PassedThrough(path.value, pos, Visited(first, k, c)) {
        forall j | 0 <= j < c
          ensures PassedThrough(path.value, pos, j)
        {
          var k := if j > first then j - first - 1 else j + c - first - 1;
          assert Visited(first, k, c) == j;
        }
      }
    }
  }
}
