/**
 * The robot's velocity command table: a closed vocabulary of movement keys,
 * each turned into a (linearX, linearY, angularZ) triple scaled by a speed
 * multiplier. Doubles are modelled as reals.
 */
module Commands {

  const BaseLinear: real := 0.3
  const BaseAngular: real := 0.5

  /** A movement command as sent to the robot; `action` is the key as given. */
  datatype RobotCommand = RobotCommand(
    action: string,
    linearX: real,
    linearY: real,
    angularZ: real,
    speedMultiplier: real)

  /** What a key means once recognised; `Halt` covers `stop` and every unknown key. */
  datatype Token =
    | Forward | Backward | StrafeLeft | StrafeRight
    | ForwardLeft | ForwardRight | BackwardLeft | BackwardRight
    | RotateLeft | RotateRight | Halt

  /**
   * Lower-cases ASCII letters. Under a default locale that is not Turkish or
   * Azerbaijani this agrees with Java's `toLowerCase` for the purpose of
   * matching the vocabulary: no other character lower-cases to a string that
   * could complete one of the keys. Under those two locales `I` lower-cases to
   * a dotless i, so "RIGHT" would match no key; that case is not modelled.
   */
  function LowerChar(c: char): char {
    if 'A' <= c <= 'Z' then (c as int + 32) as char else c
  }

  function Lower(s: string): (r: string)
    ensures |r| == |s|
    ensures forall i :: 0 <= i < |s| ==> r[i] == LowerChar(s[i])
  {
    seq(|s|, i requires 0 <= i < |s| => LowerChar(s[i]))
  }

  /** The token an action names: its lower-cased form looked up in the vocabulary. */
  function Classify(action: string): Token {
    Recognise(Lower(action))
  }

  /** The token a lower-case key names. */
  function Recognise(key: string): Token {
    if key == "w" then Forward
    else if key == "s" then Backward
    else if key == "a" then StrafeLeft
    else if key == "d" then StrafeRight
    else if key == "q" then ForwardLeft
    else if key == "e" then ForwardRight
    else if key == "z" then BackwardLeft
    else if key == "c" then BackwardRight
    else if key == "left" then RotateLeft
    else if key == "right" then RotateRight
    else Halt
  }

  /** The movement tokens: every token but `Halt`. */
  predicate Moves(t: Token) {
    !t.Halt?
  }

  /** Unit direction of each token: signs of (linearX, linearY, angularZ). */
  function Direction(t: Token): (int, int, int) {
    match t
    case Forward => (1, 0, 0)
    case Backward => (-1, 0, 0)
    case StrafeLeft => (0, 1, 0)
    case StrafeRight => (0, -1, 0)
    case ForwardLeft => (1, 1, 0)
    case ForwardRight => (1, -1, 0)
    case BackwardLeft => (-1, 1, 0)
    case BackwardRight => (-1, -1, 0)
    case RotateLeft => (0, 0, 1)
    case RotateRight => (0, 0, -1)
    case Halt => (0, 0, 0)
  }

  /**
   * `RobotCommand.fromAction`: the command for a key at a speed multiplier.
   * The result is the token's unit direction, linear components scaled by
   * `BaseLinear * m` and rotation by `BaseAngular * m`.
   */
  function FromAction(action: string, m: real): (cmd: RobotCommand)
    ensures cmd.action == action && cmd.speedMultiplier == m
    ensures cmd.linearX == Direction(Classify(action)).0 as real * BaseLinear * m
    ensures cmd.linearY == Direction(Classify(action)).1 as real * BaseLinear * m
    ensures cmd.angularZ == Direction(Classify(action)).2 as real * BaseAngular * m
  {
    match Classify(action)
    case Forward => RobotCommand(action, 1.0 * BaseLinear * m, 0.0, 0.0, m)
    case Backward => RobotCommand(action, -1.0 * BaseLinear * m, 0.0, 0.0, m)
    case StrafeLeft => RobotCommand(action, 0.0, 1.0 * BaseLinear * m, 0.0, m)
    case StrafeRight => RobotCommand(action, 0.0, -1.0 * BaseLinear * m, 0.0, m)
    case ForwardLeft => RobotCommand(action, 1.0 * BaseLinear * m, 1.0 * BaseLinear * m, 0.0, m)
    case ForwardRight => RobotCommand(action, 1.0 * BaseLinear * m, -1.0 * BaseLinear * m, 0.0, m)
    case BackwardLeft => RobotCommand(action, -1.0 * BaseLinear * m, 1.0 * BaseLinear * m, 0.0, m)
    case BackwardRight => RobotCommand(action, -1.0 * BaseLinear * m, -1.0 * BaseLinear * m, 0.0, m)
    case RotateLeft => RobotCommand(action, 0.0, 0.0, 1.0 * BaseAngular * m, m)
    case RotateRight => RobotCommand(action, 0.0, 0.0, -1.0 * BaseAngular * m, m)
    case Halt => RobotCommand(action, 0.0, 0.0, 0.0, m)
  }

  /** `RobotCommand.isStop`: all three velocity components are exactly zero. */
  predicate IsStop(cmd: RobotCommand) {
    cmd.linearX == 0.0 && cmd.linearY == 0.0 && cmd.angularZ == 0.0
  }

  /** Same velocities, whatever the action recorded. */
  predicate SameVelocity(a: RobotCommand, b: RobotCommand) {
    a.linearX == b.linearX && a.linearY == b.linearY && a.angularZ == b.angularZ
  }

  /** `b` moves exactly opposite to `a`. */
  predicate Opposite(a: RobotCommand, b: RobotCommand) {
    b.linearX == -a.linearX && b.linearY == -a.linearY && b.angularZ == -a.angularZ
  }

  lemma LowerIdempotent(s: string)
    ensures Lower(Lower(s)) == Lower(s)
  {
  }

  /** Every key of the vocabulary is already lower case. */
  lemma KeysRecognised()
    ensures Lower("w") == "w" && Lower("s") == "s" && Lower("a") == "a" && Lower("d") == "d"
    ensures Lower("q") == "q" && Lower("e") == "e" && Lower("z") == "z" && Lower("c") == "c"
    ensures Lower("left") == "left" && Lower("right") == "right" && Lower("stop") == "stop"
  {
  }

  /** Key matching ignores case: an action and its lower-cased form move alike. */
  lemma CaseInsensitive(action: string, m: real)
    ensures SameVelocity(FromAction(action, m), FromAction(Lower(action), m))
    ensures Classify(action) == Classify(Lower(action))
  {
    LowerIdempotent(action);
  }

  /** The forward and strafe keys, the diagonals, and the rotation keys, scaled by `m`. */
  lemma Table(m: real)
    ensures var w := FromAction("w", m); w.linearX == 0.3 * m && w.linearY == 0.0 && w.angularZ == 0.0
    ensures var s := FromAction("s", m); s.linearX == -0.3 * m && s.linearY == 0.0 && s.angularZ == 0.0
    ensures var a := FromAction("a", m); a.linearX == 0.0 && a.linearY == 0.3 * m && a.angularZ == 0.0
    ensures var d := FromAction("d", m); d.linearX == 0.0 && d.linearY == -0.3 * m && d.angularZ == 0.0
    ensures var q := FromAction("q", m); q.linearX == 0.3 * m && q.linearY == 0.3 * m && q.angularZ == 0.0
    ensures var e := FromAction("e", m); e.linearX == 0.3 * m && e.linearY == -0.3 * m && e.angularZ == 0.0
    ensures var z := FromAction("z", m); z.linearX == -0.3 * m && z.linearY == 0.3 * m && z.angularZ == 0.0
    ensures var c := FromAction("c", m); c.linearX == -0.3 * m && c.linearY == -0.3 * m && c.angularZ == 0.0
    ensures var l := FromAction("left", m); l.linearX == 0.0 && l.linearY == 0.0 && l.angularZ == 0.5 * m
    ensures var r := FromAction("right", m); r.linearX == 0.0 && r.linearY == 0.0 && r.angularZ == -0.5 * m
    ensures IsStop(FromAction("stop", m))
  {
    KeysRecognised();
  }

  /** Rotation comes only from `left`/`right`, which do not translate. */
  lemma RotationOnlyFromTurnKeys(action: string, m: real)
    ensures var cmd := FromAction(action, m);
      (cmd.angularZ != 0.0 ==> Classify(action) in {RotateLeft, RotateRight}) &&
      (Classify(action) in {RotateLeft, RotateRight} ==> cmd.linearX == 0.0 && cmd.linearY == 0.0)
  {
  }

  /** Opposite keys negate each other: s = -w, d = -a, c = -q, z = -e, right = -left. */
  lemma OppositesNegate(m: real)
    ensures Opposite(FromAction("w", m), FromAction("s", m))
    ensures Opposite(FromAction("a", m), FromAction("d", m))
    ensures Opposite(FromAction("q", m), FromAction("c", m))
    ensures Opposite(FromAction("e", m), FromAction("z", m))
    ensures Opposite(FromAction("left", m), FromAction("right", m))
  {
    KeysRecognised();
  }

  /**
   * `isStop` holds exactly for `stop` and unknown keys, or when the multiplier
   * is zero; every movement key at a non-zero multiplier moves the robot.
   */
  lemma IsStopIff(action: string, m: real)
    ensures IsStop(FromAction(action, m)) <==> !Moves(Classify(action)) || m == 0.0
  {
  }

  /** The key `w` at the default multiplier 1.0 drives forward at 0.3. */
  lemma ForwardAtDefaultSpeed()
    ensures var cmd := FromAction("w", 1.0);
      cmd.linearX == 0.3 && cmd.linearY == 0.0 && cmd.angularZ == 0.0 && !IsStop(cmd)
  {
    KeysRecognised();
  }
}
