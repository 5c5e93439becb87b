/**
 * The table builder: the static bodies of the play field (walls, plunger-lane
 * wall, slopes, bumpers, targets), the two flipper assemblies and the ball
 * body, as plain values. Every position is a fixed integer derived from the
 * play-field size; y grows downwards.
 */
module Table {
  import opened Constants

  datatype Vec = Vec(x: int, y: int)

  /** The role label a body carries; walls and slopes carry none. */
  datatype Role = Plain | Bumper | Target | Flipper | Ball

  datatype Shape =
    | Rect(width: int, height: int)
    | RoundedRect(width: int, height: int, cornerRadius: int)
    | Circle(radius: int)
    | Trapezoid(width: int, height: int, slope: real)

  /**
   * A body as registered with the physics world. `anglePi` is the initial
   * angle as a multiple of pi (0.1 stands for pi/10); `restitution` and
   * `friction` are 0.0 and 0.1 where the code leaves the physics defaults.
   */
  datatype Body = Body(
    role: Role,
    shape: Shape,
    pos: Vec,
    anglePi: real,
    isStatic: bool,
    restitution: real,
    friction: real)

  /** A pin joint from a fixed world point `pointA` to `pointB`, an offset from the body's centre. */
  datatype Constraint = Constraint(pointA: Vec, pointB: Vec, stiffness: real, length: int)

  /** One entry of the world's composite: a body or a constraint. */
  datatype Part = Solid(body: Body) | Joint(constraint: Constraint)

  datatype FlipperAssembly = FlipperAssembly(body: Body, pivot: Constraint, stop: Constraint)

  const DEFAULT_RESTITUTION: real := 0.0
  const DEFAULT_FRICTION: real := 0.1

  const FLIPPER_WIDTH: int := 80
  const FLIPPER_HEIGHT: int := 15
  const BUMPER_RADIUS: int := 25

  /** The x-coordinate right of which a ball is in the plunger lane. */
  const LANE_X: int := GAME_WIDTH - 50

  function StaticBody(role: Role, shape: Shape, pos: Vec, anglePi: real): Body {
    Body(role, shape, pos, anglePi, true, DEFAULT_RESTITUTION, DEFAULT_FRICTION)
  }

  /** Top, left and right walls, then the wall that separates the plunger lane. */
  function Walls(): seq<Part> {
    [ Solid(StaticBody(Plain, Rect(GAME_WIDTH, 10), Vec(GAME_WIDTH / 2, 5), 0.0)),
      Solid(StaticBody(Plain, Rect(10, GAME_HEIGHT), Vec(5, GAME_HEIGHT / 2), 0.0)),
      Solid(StaticBody(Plain, Rect(10, GAME_HEIGHT), Vec(GAME_WIDTH - 5, GAME_HEIGHT / 2), 0.0)),
      Solid(StaticBody(Plain, Rect(10, 300), Vec(LANE_X, GAME_HEIGHT - 150), 0.0)) ]
  }

  /** The two slopes near the bottom corners, tilted by pi/10 and -pi/10. */
  function Slopes(): seq<Part> {
    [ Solid(StaticBody(Plain, Trapezoid(150, 40, -0.4), Vec(80, GAME_HEIGHT - 120), 0.1)),
      Solid(StaticBody(Plain, Trapezoid(150, 40, -0.4), Vec(GAME_WIDTH - 120, GAME_HEIGHT - 120), -0.1)) ]
  }

  function BumperBody(pos: Vec): Body {
    Body(Bumper, Circle(BUMPER_RADIUS), pos, 0.0, true, 1.5, DEFAULT_FRICTION)
  }

  function Bumpers(): seq<Part> {
    [ Solid(BumperBody(Vec(GAME_WIDTH / 2 - 60, 200))),
      Solid(BumperBody(Vec(GAME_WIDTH / 2 + 60, 200))),
      Solid(BumperBody(Vec(GAME_WIDTH / 2, 280))) ]
  }

  /** The two targets, turned by pi/4 and -pi/4. */
  function Targets(): seq<Part> {
    [ Solid(StaticBody(Target, Rect(30, 10), Vec(40, 400), 0.25)),
      Solid(StaticBody(Target, Rect(30, 10), Vec(GAME_WIDTH - 80, 400), -0.25)) ]
  }

  /**
   * A flipper centred at (x, y). It turns about its outer end (x - 40 for
   * the left flipper, x + 40 for the right one), held there by a stiff
   * zero-length pivot; a soft stop joint ties its inner end to a point 60
   * units from the pivot towards the table's middle and 20 units up.
   */
  function CreateFlipper(x: int, y: int, isRight: bool): (f: FlipperAssembly)
    ensures f.body.role == Flipper && !f.body.isStatic && f.body.pos == Vec(x, y)
    ensures f.body.shape == RoundedRect(FLIPPER_WIDTH, FLIPPER_HEIGHT, 7)
    ensures f.pivot.pointA == Vec(if isRight then x + 40 else x - 40, y)
    // the pivot holds the body at one end of its length ...
    ensures f.pivot.pointA.x == f.body.pos.x + f.pivot.pointB.x && f.pivot.pointB.y == 0
    ensures f.pivot.pointB.x == (if isRight then FLIPPER_WIDTH / 2 else -(FLIPPER_WIDTH / 2))
    ensures f.pivot.stiffness == 1.0 && f.pivot.length == 0
    // ... and the stop holds the other end
    ensures f.stop.pointB.x == -f.pivot.pointB.x && f.stop.pointB.y == 0
    ensures f.stop.pointA == Vec(if isRight then f.pivot.pointA.x - 60 else f.pivot.pointA.x + 60, y - 20)
    ensures f.stop.stiffness == 0.1 && f.stop.length == 40
  {
    var half := FLIPPER_WIDTH / 2;
    var pivotX := if isRight then x + half else x - half;
    var body := Body(Flipper, RoundedRect(FLIPPER_WIDTH, FLIPPER_HEIGHT, 7), Vec(x, y), 0.0,
                     false, DEFAULT_RESTITUTION, DEFAULT_FRICTION);
    var pivot := Constraint(Vec(pivotX, y), Vec(if isRight then half else -half, 0), 1.0, 0);
    var stop := Constraint(Vec(if isRight then pivotX - 60 else pivotX + 60, y - 20),
                           Vec(if isRight then -half else half, 0), 0.1, 40);
    FlipperAssembly(body, pivot, stop)
  }

  function LeftFlipper(): FlipperAssembly { CreateFlipper(130, GAME_HEIGHT - 100, false) }
  function RightFlipper(): FlipperAssembly { CreateFlipper(GAME_WIDTH - 170, GAME_HEIGHT - 100, true) }

  function AssemblyParts(f: FlipperAssembly): seq<Part> {
    [Solid(f.body), Joint(f.pivot), Joint(f.stop)]
  }

  /** Everything registered with the world when the table is built, in registration order. */
  function TableParts(): seq<Part> {
    Walls() + Slopes() + Bumpers() + Targets() + AssemblyParts(LeftFlipper()) + AssemblyParts(RightFlipper())
  }

  /** Where a new ball appears: near the bottom of the plunger lane. */
  function SpawnPoint(): (p: Vec)
    ensures LANE_X < p.x < GAME_WIDTH - 10
    ensures GAME_HEIGHT - 50 < p.y < GAME_HEIGHT
  {
    Vec(GAME_WIDTH - 25, GAME_HEIGHT - 30)
  }

  function BallBody(): (b: Body)
    ensures b.role == Ball && b.pos == SpawnPoint() && !b.isStatic
  {
    Body(Ball, Circle(BALL_RADIUS), SpawnPoint(), 0.0, false, RESTITUTION, FRICTION)
  }

  /** 1 when `p` is a body carrying `role`, else 0. */
  function Weight(p: Part, role: Role): nat {
    if p.Solid? && p.body.role == role then 1 else 0
  }

  /** The number of bodies in `parts` that carry `role`. */
  function CountRole(parts: seq<Part>, role: Role): nat
    decreases |parts|
  {
    if parts == [] then 0 else Weight(parts[0], role) + CountRole(parts[1..], role)
  }

  function CountJoints(parts: seq<Part>): nat
    decreases |parts|
  {
    if parts == [] then 0 else (if parts[0].Joint? then 1 else 0) + CountJoints(parts[1..])
  }

  lemma {:induction false} CountAppend(a: seq<Part>, b: seq<Part>, role: Role)
    ensures CountRole(a + b, role) == CountRole(a, role) + CountRole(b, role)
    ensures CountJoints(a + b) == CountJoints(a) + CountJoints(b)
    decreases |a|
  {
    if a == [] {
      assert a + b == b;
    } else {
      assert (a + b)[1..] == a[1..] + b;
      CountAppend(a[1..], b, role);
    }
  }

  /** The counts of short lists, element by element. */
  lemma CountTwo(a: Part, b: Part, role: Role)
    ensures CountRole([a, b], role) == Weight(a, role) + Weight(b, role)
    ensures CountJoints([a, b]) == (if a.Joint? then 1 else 0) + (if b.Joint? then 1 else 0)
  {
    assert [b][1..] == [];
    assert CountRole([b], role) == Weight(b, role);
    assert CountJoints([b]) == (if b.Joint? then 1 else 0);
    assert [a, b][1..] == [b];
  }

  lemma CountThree(a: Part, b: Part, c: Part, role: Role)
    ensures CountRole([a, b, c], role) == Weight(a, role) + Weight(b, role) + Weight(c, role)
    ensures CountJoints([a, b, c]) ==
      (if a.Joint? then 1 else 0) + (if b.Joint? then 1 else 0) + (if c.Joint? then 1 else 0)
  {
    assert [a, b, c][1..] == [b, c];
    CountTwo(b, c, role);
  }

  lemma CountFour(a: Part, b: Part, c: Part, d: Part, role: Role)
    ensures CountRole([a, b, c, d], role) == Weight(a, role) + Weight(b, role) + Weight(c, role) + Weight(d, role)
    ensures a.Solid? && b.Solid? && c.Solid? && d.Solid? ==> CountJoints([a, b, c, d]) == 0
  {
    assert [a, b, c, d][1..] == [b, c, d];
    CountThree(b, c, d, role);
  }

  /** How many bodies with each role the table registers. */
  function Expected(role: Role): nat {
    match role
    case Plain => 6
    case Bumper => 3
    case Target => 2
    case Flipper => 2
    case Ball => 0
  }

  /** The count over six groups laid end to end is the sum of their counts. */
  lemma CountSix(w: seq<Part>, s: seq<Part>, b: seq<Part>, t: seq<Part>, l: seq<Part>, r: seq<Part>, role: Role)
    ensures CountRole(w + s + b + t + l + r, role) ==
      CountRole(w, role) + CountRole(s, role) + CountRole(b, role) +
      CountRole(t, role) + CountRole(l, role) + CountRole(r, role)
    ensures CountJoints(w + s + b + t + l + r) ==
      CountJoints(w) + CountJoints(s) + CountJoints(b) + CountJoints(t) + CountJoints(l) + CountJoints(r)
  {
    CountAppend(w, s, role);
    CountAppend(w + s, b, role);
    CountAppend(w + s + b, t, role);
    CountAppend(w + s + b + t, l, role);
    CountAppend(w + s + b + t + l, r, role);
  }

  lemma GroupCounts(role: Role)
    ensures CountRole(Walls(), role) == (if role == Plain then 4 else 0) && CountJoints(Walls()) == 0
    ensures CountRole(Slopes(), role) == (if role == Plain then 2 else 0) && CountJoints(Slopes()) == 0
    ensures CountRole(Bumpers(), role) == (if role == Bumper then 3 else 0) && CountJoints(Bumpers()) == 0
    ensures CountRole(Targets(), role) == (if role == Target then 2 else 0) && CountJoints(Targets()) == 0
  {
    var w, s, b, t := Walls(), Slopes(), Bumpers(), Targets();
    CountFour(w[0], w[1], w[2], w[3], role);
    CountTwo(s[0], s[1], role);
    CountThree(b[0], b[1], b[2], role);
    CountTwo(t[0], t[1], role);
  }

  lemma AssemblyCounts(f: FlipperAssembly, role: Role)
    ensures CountRole(AssemblyParts(f), role) == Weight(Solid(f.body), role)
    ensures CountJoints(AssemblyParts(f)) == 2
  {
    CountThree(Solid(f.body), Joint(f.pivot), Joint(f.stop), role);
  }

  /**
   * The table registers four walls and two slopes (no label), exactly three
   * bumpers, exactly two targets, two flippers with two joints each, and no ball.
   */
  lemma {:induction false} TableRoleCount(role: Role)
    ensures CountRole(TableParts(), role) == Expected(role)
    ensures CountJoints(TableParts()) == 4
  {
    CountSix(Walls(), Slopes(), Bumpers(), Targets(),
             AssemblyParts(LeftFlipper()), AssemblyParts(RightFlipper()), role);
    GroupCounts(role);
    AssemblyCounts(LeftFlipper(), role);
    AssemblyCounts(RightFlipper(), role);
  }

  /** The bumper cluster: radius 25, super-elastic, placed symmetrically about the table's centre line. */
  lemma BumperLayout()
    ensures forall i :: 0 <= i < |Bumpers()| ==>
      Bumpers()[i].body.shape == Circle(25) && Bumpers()[i].body.restitution == 1.5 &&
      Bumpers()[i].body.isStatic
    ensures Bumpers()[0].body.pos == Vec(165, 200) && Bumpers()[1].body.pos == Vec(285, 200)
    ensures Bumpers()[2].body.pos == Vec(225, 280)
    ensures Bumpers()[0].body.pos.x + Bumpers()[1].body.pos.x == GAME_WIDTH
    ensures 2 * Bumpers()[2].body.pos.x == GAME_WIDTH
  {
  }

  /** Reflects a point about the vertical line x = c / 2. */
  function Mirror(v: Vec, c: int): Vec {
    Vec(c - v.x, v.y)
  }

  /**
   * The two flipper assemblies are mirror images of each other about the
   * vertical line x = 205, left of the table's centre because the plunger
   * lane takes the right-hand strip.
   */
  lemma FlippersMirrored()
    ensures Mirror(LeftFlipper().body.pos, 410) == RightFlipper().body.pos
    ensures Mirror(LeftFlipper().pivot.pointA, 410) == RightFlipper().pivot.pointA
    ensures Mirror(LeftFlipper().stop.pointA, 410) == RightFlipper().stop.pointA
    ensures LeftFlipper().pivot.pointB.x == -RightFlipper().pivot.pointB.x
    ensures LeftFlipper().stop.pointB.x == -RightFlipper().stop.pointB.x
    ensures LeftFlipper().pivot.pointA == Vec(90, 700) && RightFlipper().pivot.pointA == Vec(320, 700)
  {
  }
}
