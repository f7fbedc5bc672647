/**
 * A play session: update() called once per frame on a sequence of input
 * snapshots, and what holds across any number of frames.
 */
module Session {
  import opened Scene

  /** The state after update() has run on each of the frames in turn. */
  function Run(s: SceneState, frames: seq<Input>): SceneState
    decreases |frames|
  {
    if frames == [] then s else Run(Step(s, frames[0]), frames[1..])
  }

  /** A frame in which only the right arrow is held. */
  const RightOnly := Input(false, true, false, false, false, false, false, false, false)

  /** A frame in which nothing is pressed. */
  const NoKeys := Input(false, false, false, false, false, false, false, false, false)

  function Repeat(inp: Input, n: nat): (frames: seq<Input>)
    ensures |frames| == n
    ensures forall i | 0 <= i < n :: frames[i] == inp
  {
    seq(n, _ => inp)
  }

  /** In bounds, and when the dialog shows it holds the cat's line. */
  predicate Consistent(s: SceneState)
  {
    InBounds(s.x, s.y) && (s.showingDialog ==> s.dialogText == CatLine)
  }

  /** A consistent state stays consistent however many frames run. */
  lemma {:induction false} RunStaysConsistent(s: SceneState, frames: seq<Input>)
    requires Consistent(s)
    ensures Consistent(Run(s, frames))
    decreases |frames|
  {
    if frames != [] {
      RunStaysConsistent(Step(s, frames[0]), frames[1..]);
    }
  }

  /**
   * From the start of the game, the player is always inside the world, and
   * a dialog that shows always shows the cat's line.
   */
  lemma ReachableConsistent(frames: seq<Input>)
    ensures Consistent(Run(Initial, frames))
  {
    RunStaysConsistent(Initial, frames);
  }

  /** While the dialog shows and Space is not pressed, nothing changes at all. */
  lemma {:induction false} DialogFreezes(s: SceneState, frames: seq<Input>)
    requires s.showingDialog
    requires forall i | 0 <= i < |frames| :: !frames[i].spaceJustDown
    ensures Run(s, frames) == s
    decreases |frames|
  {
    if frames != [] {
      DialogFreezes(Step(s, frames[0]), frames[1..]);
    }
  }

  /** With no key held, an in-bounds player with the dialog hidden stays put. */
  lemma {:induction false} IdleStaysPut(s: SceneState, n: nat)
    requires !s.showingDialog && InBounds(s.x, s.y)
    ensures Run(s, Repeat(NoKeys, n)) == s
    decreases n
  {
    if n > 0 {
      assert Repeat(NoKeys, n)[1..] == Repeat(NoKeys, n - 1);
      assert Step(s, NoKeys) == s;
      IdleStaysPut(s, n - 1);
    }
  }

  /**
   * Holding right for n frames moves the player 6 pixels per frame until it
   * reaches the right bound, and changes nothing else.
   */
  lemma {:induction false} WalkRight(s: SceneState, n: nat)
    requires !s.showingDialog && InBounds(s.x, s.y)
    ensures var t := Run(s, Repeat(RightOnly, n));
      t == s.(x := if s.x + Speed * n <= MaxX then s.x + Speed * n else MaxX)
    decreases n
  {
    if n > 0 {
      assert Repeat(RightOnly, n)[1..] == Repeat(RightOnly, n - 1);
      var s' := Step(s, RightOnly);
      assert s' == s.(x := if s.x + Speed <= MaxX then s.x + Speed else MaxX);
      WalkRight(s', n - 1);
    }
  }

  /** From the spawn point, n frames of right reach x = min(512 + 6n, 1008). */
  lemma WalkRightFromSpawn(n: nat)
    ensures Run(Initial, Repeat(RightOnly, n)).x == if SpawnX + Speed * n <= MaxX then SpawnX + Speed * n else MaxX
    ensures Run(Initial, Repeat(RightOnly, n)).y == SpawnY
  {
    WalkRight(Initial, n);
  }
}
