/**
 * The engine-side game rules, with the physics library abstracted away:
 * the collision classifier and scorer, the per-tick drain check and flipper
 * return, the keyboard rules for flipping and launching, and the single
 * ball slot. The physics library itself appears only as an Integrate step
 * that moves the ball and turns the flippers between ticks.
 */
module Engine {
  import opened Constants
  import opened Table
  import opened Common

  // ---------------------------------------------------------------------
  // Collision classifier and scorer
  // ---------------------------------------------------------------------

  /** Two bodies that began touching in one physics step. */
  datatype Pair = Pair(bodyA: Body, bodyB: Body)

  predicate HasRole(p: Pair, role: Role) {
    p.bodyA.role == role || p.bodyB.role == role
  }

  /**
   * The score events one pair emits: one bumper event if either body is a
   * bumper, then one target event if either body is a target.
   */
  function PairScores(p: Pair): (r: seq<int>)
    ensures multiset(r)[BUMPER_POINTS] == (if HasRole(p, Bumper) then 1 else 0)
    ensures multiset(r)[TARGET_POINTS] == (if HasRole(p, Target) then 1 else 0)
    ensures forall i :: 0 <= i < |r| ==> r[i] == BUMPER_POINTS || r[i] == TARGET_POINTS
    ensures r == [] <==> !HasRole(p, Bumper) && !HasRole(p, Target)
    ensures HasRole(p, Bumper) && HasRole(p, Target) ==> r == [BUMPER_POINTS, TARGET_POINTS]
  {
    (if HasRole(p, Bumper) then [BUMPER_POINTS] else []) +
    (if HasRole(p, Target) then [TARGET_POINTS] else [])
  }

  /** The score events of a batch: each pair's events, pair after pair. */
  function Emissions(pairs: seq<Pair>): (r: seq<int>)
    ensures |r| <= 2 * |pairs|
    decreases |pairs|
  {
    if pairs == [] then [] else PairScores(pairs[0]) + Emissions(pairs[1..])
  }

  lemma {:induction false} EmissionsAppend(a: seq<Pair>, b: seq<Pair>)
    ensures Emissions(a + b) == Emissions(a) + Emissions(b)
    decreases |a|
  {
    if a == [] {
      assert a + b == b;
    } else {
      assert (a + b)[0] == a[0];
      assert (a + b)[1..] == a[1..] + b;
      EmissionsAppend(a[1..], b);
      var head := PairScores(a[0]);
      assert Emissions(a + b) == head + (Emissions(a[1..]) + Emissions(b));
      assert head + (Emissions(a[1..]) + Emissions(b)) == (head + Emissions(a[1..])) + Emissions(b);
    }
  }

  /** Extending a prefix of a batch by one pair appends that pair's events. */
  lemma EmissionsPrefix(pairs: seq<Pair>, i: nat)
    requires i < |pairs|
    ensures Emissions(pairs[..i + 1]) == Emissions(pairs[..i]) + PairScores(pairs[i])
  {
    var single := [pairs[i]];
    assert pairs[..i + 1] == pairs[..i] + single;
    EmissionsAppend(pairs[..i], single);
    EmissionsOne(pairs[i]);
  }

  lemma EmissionsOne(p: Pair)
    ensures Emissions([p]) == PairScores(p)
  {
    assert [p][1..] == [];
  }

  /** How many pairs of the batch touch a body carrying `role`. */
  function PairsWith(pairs: seq<Pair>, role: Role): nat
    decreases |pairs|
  {
    if pairs == [] then 0 else (if HasRole(pairs[0], role) then 1 else 0) + PairsWith(pairs[1..], role)
  }

  /**
   * A batch emits exactly one bumper event per pair that touches a bumper,
   * exactly one target event per pair that touches a target, and nothing else.
   */
  lemma {:induction false} EmissionsCount(pairs: seq<Pair>)
    ensures multiset(Emissions(pairs))[BUMPER_POINTS] == PairsWith(pairs, Bumper)
    ensures multiset(Emissions(pairs))[TARGET_POINTS] == PairsWith(pairs, Target)
    ensures |Emissions(pairs)| == PairsWith(pairs, Bumper) + PairsWith(pairs, Target)
    decreases |pairs|
  {
    if pairs != [] {
      EmissionsCount(pairs[1..]);
      var head, tail := PairScores(pairs[0]), Emissions(pairs[1..]);
      assert multiset(head + tail) == multiset(head) + multiset(tail);
      assert |head| == (if HasRole(pairs[0], Bumper) then 1 else 0) + (if HasRole(pairs[0], Target) then 1 else 0);
    }
  }

  /** Every event of a batch is worth either the bumper or the target value. */
  lemma {:induction false} EmissionsValues(pairs: seq<Pair>)
    ensures forall v :: v in Emissions(pairs) ==> v == BUMPER_POINTS || v == TARGET_POINTS
    decreases |pairs|
  {
    if pairs != [] {
      EmissionsValues(pairs[1..]);
      var head, tail := PairScores(pairs[0]), Emissions(pairs[1..]);
      assert forall v :: v in head ==> v == BUMPER_POINTS || v == TARGET_POINTS;
      assert forall v :: v in head + tail ==> v in head || v in tail;
    }
  }

  /** The points one pair scores. */
  lemma PairPoints(p: Pair)
    ensures Sum(PairScores(p)) ==
      (if HasRole(p, Bumper) then BUMPER_POINTS else 0) + (if HasRole(p, Target) then TARGET_POINTS else 0)
  {
    var b := if HasRole(p, Bumper) then [BUMPER_POINTS] else [];
    var t := if HasRole(p, Target) then [TARGET_POINTS] else [];
    SumAppend(b, t);
    assert Sum([BUMPER_POINTS]) == BUMPER_POINTS;
    assert Sum([TARGET_POINTS]) == TARGET_POINTS;
  }

  /** The points of a batch total 100 per bumper pair and 500 per target pair. */
  lemma {:induction false} EmissionsTotal(pairs: seq<Pair>)
    ensures Sum(Emissions(pairs)) ==
      BUMPER_POINTS * PairsWith(pairs, Bumper) + TARGET_POINTS * PairsWith(pairs, Target)
    decreases |pairs|
  {
    if pairs != [] {
      EmissionsTotal(pairs[1..]);
      SumAppend(PairScores(pairs[0]), Emissions(pairs[1..]));
      PairPoints(pairs[0]);
    }
  }

  // ---------------------------------------------------------------------
  // Flipper return
  // ---------------------------------------------------------------------

  /** The flipper travel, in radians, and the angle each tick moves a flipper towards rest. */
  const MIN_ANGLE: real := -0.5
  const MAX_ANGLE: real := 0.5
  const REST_STEP: real := 0.1

  function RealMin(a: real, b: real): real { if a <= b then a else b }
  function RealMax(a: real, b: real): real { if a >= b then a else b }

  /** Bounds an angle to the flipper travel. */
  function Clamp(x: real): (r: real)
    ensures MIN_ANGLE <= r <= MAX_ANGLE
    ensures MIN_ANGLE <= x <= MAX_ANGLE ==> r == x
    ensures x > MAX_ANGLE ==> r == MAX_ANGLE
    ensures x < MIN_ANGLE ==> r == MIN_ANGLE
  {
    RealMax(MIN_ANGLE, RealMin(MAX_ANGLE, x))
  }

  /** One tick of return: the left flipper creeps up to +0.5, the right one down to -0.5. */
  function RestLeft(a: real): (r: real)
    ensures MIN_ANGLE <= r <= MAX_ANGLE
    ensures MIN_ANGLE - REST_STEP <= a <= MAX_ANGLE - REST_STEP ==> r == a + REST_STEP
    ensures a >= MAX_ANGLE - REST_STEP ==> r == MAX_ANGLE
    ensures a <= MIN_ANGLE - REST_STEP ==> r == MIN_ANGLE
  {
    Clamp(a + REST_STEP)
  }

  function RestRight(a: real): (r: real)
    ensures MIN_ANGLE <= r <= MAX_ANGLE
    ensures MIN_ANGLE + REST_STEP <= a <= MAX_ANGLE + REST_STEP ==> r == a - REST_STEP
    ensures a <= MIN_ANGLE + REST_STEP ==> r == MIN_ANGLE
    ensures a >= MAX_ANGLE + REST_STEP ==> r == MAX_ANGLE
  {
    Clamp(a - REST_STEP)
  }

  /** The angle after n ticks of return with no physics in between. */
  function LeftAfter(a: real, n: nat): real
    decreases n
  {
    if n == 0 then a else LeftAfter(RestLeft(a), n - 1)
  }

  function RightAfter(a: real, n: nat): real
    decreases n
  {
    if n == 0 then a else RightAfter(RestRight(a), n - 1)
  }

  /** From inside the travel, the left flipper rises by 0.1 per tick until it rests at +0.5. */
  lemma {:induction false} LeftSettles(a: real, n: nat)
    requires MIN_ANGLE <= a <= MAX_ANGLE
    ensures LeftAfter(a, n) == RealMin(MAX_ANGLE, a + (n as real) * REST_STEP)
    decreases n
  {
    if n > 0 {
      LeftSettles(RestLeft(a), n - 1);
    }
  }

  lemma {:induction false} RightSettles(a: real, n: nat)
    requires MIN_ANGLE <= a <= MAX_ANGLE
    ensures RightAfter(a, n) == RealMax(MIN_ANGLE, a - (n as real) * REST_STEP)
    decreases n
  {
    if n > 0 {
      RightSettles(RestRight(a), n - 1);
    }
  }

  /** Whatever the starting angle, eleven ticks bring each flipper to rest. */
  lemma FlippersReturnToRest(left: real, right: real, n: nat)
    requires n >= 11
    ensures LeftAfter(left, n) == MAX_ANGLE
    ensures RightAfter(right, n) == MIN_ANGLE
  {
    LeftSettles(RestLeft(left), n - 1);
    RightSettles(RestRight(right), n - 1);
  }

  // ---------------------------------------------------------------------
  // Ball position, keys and the effects of a key press
  // ---------------------------------------------------------------------

  /** The ball's current position, as the physics library reports it. */
  datatype BallPos = BallPos(x: real, y: real)

  /** Below this y the ball has fallen into the drain. */
  const DRAIN_Y: int := GAME_HEIGHT + 50

  predicate Drained(p: BallPos) { p.y > DRAIN_Y as real }
  predicate InLane(p: BallPos) { p.x > LANE_X as real }

  function SpawnPos(): (p: BallPos)
    ensures InLane(p) && !Drained(p)
  {
    BallPos(SpawnPoint().x as real, SpawnPoint().y as real)
  }

  datatype Key = KeyZ | KeyM | Space | OtherKey
  datatype Side = Left | Right

  /** The upward push of a second launch press while the ball is still in the lane. */
  const NUDGE_FORCE: real := -0.06

  /** What a key press does: an upward impulse on a flipper or the ball, a new ball, or nothing. */
  datatype KeyEffect = NoEffect | Flip(side: Side, forceY: real) | Spawn | Nudge(forceY: real)

  function KeyResponse(isPlaying: bool, key: Key, ball: Option<BallPos>): (fx: KeyEffect)
    ensures !isPlaying ==> fx == NoEffect
    ensures fx.Spawn? <==> isPlaying && key == Space && ball.None?
    ensures fx.Nudge? <==> isPlaying && key == Space && ball.Some? && InLane(ball.value)
    ensures fx.Flip? <==> isPlaying && (key == KeyZ || key == KeyM)
    ensures fx.Flip? ==> fx.side == (if key == KeyZ then Left else Right) && fx.forceY == -FLIPPER_STRENGTH
    ensures fx.Nudge? ==> fx.forceY == NUDGE_FORCE
  {
    if !isPlaying then NoEffect
    else match key
      case KeyZ => Flip(Left, -FLIPPER_STRENGTH)
      case KeyM => Flip(Right, -FLIPPER_STRENGTH)
      case Space =>
        if ball.None? then Spawn
        else if InLane(ball.value) then Nudge(NUDGE_FORCE)
        else NoEffect
      case OtherKey => NoEffect
  }

  // ---------------------------------------------------------------------
  // The world and its ball
  // ---------------------------------------------------------------------

  /** The body the ball slot contributes to the world: none, or the ball. */
  function BallParts(ball: Option<BallPos>): seq<Part> {
    if ball.Some? then [Solid(BallBody())] else []
  }

  /** The world's contents: the table, and the ball body when the slot holds a ball. */
  function WorldWith(ball: Option<BallPos>): seq<Part> {
    TableParts() + BallParts(ball)
  }

  /** The world always holds three bumpers, two targets, two flippers, and one ball exactly when the slot is full. */
  lemma WorldCounts(ball: Option<BallPos>)
    ensures CountRole(WorldWith(ball), Ball) == (if ball.Some? then 1 else 0)
    ensures CountRole(WorldWith(ball), Bumper) == 3
    ensures CountRole(WorldWith(ball), Target) == 2
    ensures CountRole(WorldWith(ball), Flipper) == 2
  {
    var extra := BallParts(ball);
    forall role: Role
      ensures CountRole(WorldWith(ball), role) == Expected(role) + (if ball.Some? && role == Ball then 1 else 0)
    {
      TableRoleCount(role);
      CountAppend(TableParts(), extra, role);
      if ball.Some? {
        assert extra[1..] == [];
      }
    }
  }

  /** Removes every occurrence of body `b` from the world. */
  function RemoveBody(parts: seq<Part>, b: Body): seq<Part>
    decreases |parts|
  {
    if parts == [] then []
    else if parts[0] == Solid(b) then RemoveBody(parts[1..], b)
    else [parts[0]] + RemoveBody(parts[1..], b)
  }

  /** Removing a body with a role the list does not hold changes nothing. */
  lemma {:induction false} RemoveAbsent(parts: seq<Part>, b: Body)
    requires CountRole(parts, b.role) == 0
    ensures RemoveBody(parts, b) == parts
    decreases |parts|
  {
    if parts != [] {
      RemoveAbsent(parts[1..], b);
      assert [parts[0]] + parts[1..] == parts;
    }
  }

  lemma {:induction false} RemoveAppend(a: seq<Part>, c: seq<Part>, b: Body)
    ensures RemoveBody(a + c, b) == RemoveBody(a, b) + RemoveBody(c, b)
    decreases |a|
  {
    if a == [] {
      assert a + c == c;
    } else {
      assert (a + c)[1..] == a[1..] + c;
      RemoveAppend(a[1..], c, b);
    }
  }

  /** Removing the ball body from a world with a ball leaves exactly the table. */
  lemma RemoveBall()
    ensures RemoveBody(WorldWith(Some(SpawnPos())), BallBody()) == TableParts()
  {
    TableRoleCount(Ball);
    RemoveAppend(TableParts(), [Solid(BallBody())], BallBody());
    RemoveAbsent(TableParts(), BallBody());
    assert [Solid(BallBody())][1..] == [];
  }

  // ---------------------------------------------------------------------
  // The engine
  // ---------------------------------------------------------------------

  /**
   * One engine instance, built when a round's active flag is set and torn
   * down when it changes. `ball` is the nullable ball slot; `world` is what
   * is registered with the physics world; the two angles are the flippers'.
   */
  class PinballEngine {
    const isPlaying: bool
    var world: seq<Part>
    var ball: Option<BallPos>
    var leftAngle: real
    var rightAngle: real

    /** The world holds the table and, exactly when the slot is full, one ball. */
    ghost predicate Valid()
      reads this
    {
      world == WorldWith(ball)
    }

    /** Builds the table and, if a round is active, puts the first ball in the lane. */
    constructor (isPlaying: bool)
      ensures Valid()
      ensures this.isPlaying == isPlaying
      ensures ball == (if isPlaying then Some(SpawnPos()) else None)
      ensures world == TableParts() + (if isPlaying then [Solid(BallBody())] else [])
      ensures leftAngle == 0.0 && rightAngle == 0.0
    {
      this.isPlaying := isPlaying;
      world := TableParts();
      ball := None;
      leftAngle, rightAngle := 0.0, 0.0;
      new;
      if isPlaying {
        CreateBall();
      }
    }

    /** Spawns the ball at the bottom of the plunger lane and registers it. */
    method CreateBall()
      requires Valid() && ball.None?
      modifies this
      ensures Valid()
      ensures ball == Some(SpawnPos())
      ensures world == old(world) + [Solid(BallBody())]
      ensures leftAngle == old(leftAngle) && rightAngle == old(rightAngle)
    {
      ball := Some(SpawnPos());
      world := world + [Solid(BallBody())];
    }

    /**
     * The work done before each physics step. With no ball it does nothing.
     * Otherwise a ball below the drain line is removed and reported lost
     * (the result), and both flippers take one step back towards rest.
     */
    method Tick() returns (lost: bool)
      requires Valid()
      modifies this
      ensures Valid()
      ensures old(ball).None? ==>
        !lost && ball == None && world == old(world) &&
        leftAngle == old(leftAngle) && rightAngle == old(rightAngle)
      ensures old(ball).Some? ==>
        lost == Drained(old(ball).value) &&
        ball == (if lost then None else old(ball)) &&
        world == (if lost then TableParts() else old(world)) &&
        leftAngle == RestLeft(old(leftAngle)) && rightAngle == RestRight(old(rightAngle))
      ensures old(ball).Some? ==> MIN_ANGLE <= leftAngle <= MAX_ANGLE && MIN_ANGLE <= rightAngle <= MAX_ANGLE
    {
      if ball.None? {
        return false;
      }
      lost := false;
      if Drained(ball.value) {
        RemoveBallFromWorld();
        lost := true;
      }
      leftAngle := RestLeft(leftAngle);
      rightAngle := RestRight(rightAngle);
    }

    /** Takes the ball out of the world and empties the slot. */
    method RemoveBallFromWorld()
      requires Valid() && ball.Some?
      modifies this
      ensures Valid() && ball == None && world == TableParts()
      ensures leftAngle == old(leftAngle) && rightAngle == old(rightAngle)
    {
      // The ball body is registered with its spawn geometry, whatever its current position.
      assert world == WorldWith(Some(SpawnPos()));
      RemoveBall();
      world := RemoveBody(world, BallBody());
      ball := None;
    }

    /**
     * A key press. Nothing happens unless a round is active. The flipper keys
     * push a flipper; the launch key fills an empty slot, nudges a ball that
     * is still in the plunger lane, and otherwise does nothing.
     */
    method KeyDown(key: Key) returns (fx: KeyEffect)
      requires Valid()
      modifies this
      ensures Valid()
      ensures fx == KeyResponse(isPlaying, key, old(ball))
      ensures ball == (if fx.Spawn? then Some(SpawnPos()) else old(ball))
      ensures world == (if fx.Spawn? then old(world) + [Solid(BallBody())] else old(world))
      ensures leftAngle == old(leftAngle) && rightAngle == old(rightAngle)
      ensures fx.Spawn? || old(ball).Some? ==> CountRole(world, Ball) == 1
    {
      fx := NoEffect;
      if isPlaying {
        if key == KeyZ {
          fx := Flip(Left, -FLIPPER_STRENGTH);
        }
        if key == KeyM {
          fx := Flip(Right, -FLIPPER_STRENGTH);
        }
        if key == Space && ball.None? {
          CreateBall();
          fx := Spawn;
        } else if key == Space && ball.Some? && InLane(ball.value) {
          fx := Nudge(NUDGE_FORCE);
        }
      }
      WorldCounts(ball);
    }

    /** The score events of one batch of collision pairs, in order. */
    method OnCollisions(pairs: seq<Pair>) returns (scores: seq<int>)
      ensures scores == Emissions(pairs)
    {
      scores := [];
      for i := 0 to |pairs|
        invariant scores == Emissions(pairs[..i])
      {
        EmissionsPrefix(pairs, i);
        scores := scores + PairScores(pairs[i]);
      }
      assert pairs[..|pairs|] == pairs;
    }

    /**
     * The physics library's step, which this model does not compute: it
     * moves the ball (if there is one) and turns the flippers.
     */
    method Integrate(pos: BallPos, left: real, right: real)
      requires Valid()
      modifies this
      ensures Valid()
      ensures ball == (if old(ball).Some? then Some(pos) else None)
      ensures world == old(world) && leftAngle == left && rightAngle == right
    {
      if ball.Some? {
        ball := Some(pos);
      }
      leftAngle, rightAngle := left, right;
    }
  }
}
