/**
 * The per-frame logic of GameScene: the player's position, the dialog
 * flag and its text, one frame's keyboard snapshot, and the step that
 * update() performs on them.
 */
module Scene {
  import opened Geometry

  /** Pixels moved per axis per frame. */
  const Speed := 6

  /** The game world is 1024 by 768; the player is a 32 by 32 square. */
  const WorldWidth := 1024
  const WorldHeight := 768
  const PlayerSize := 32

  /** The clamp bounds: the world inset by half the player's size. */
  const MinX := 16
  const MaxX := 1008
  const MinY := 16
  const MaxY := 752

  /** Where create() places the player and the cat. */
  const SpawnX := 512
  const SpawnY := 384
  const CatX := 200
  const CatY := 300

  /** The player can talk to the cat when strictly closer than this. */
  const TalkRadius: nat := 60

  /** The one line the cat says. */
  const CatLine := "Hey kid... don't bother me."

  /**
   * One frame's keyboard snapshot: whether each arrow key and each WASD key
   * is held, and whether Space went down since it was last asked about and
   * has not been released since.
   */
  datatype Input = Input(
    cursorLeft: bool, cursorRight: bool, cursorUp: bool, cursorDown: bool,
    wasdLeft: bool, wasdRight: bool, wasdUp: bool, wasdDown: bool,
    spaceJustDown: bool)
  {
    /** A direction is held when either of its two keys is. */
    predicate Left() { cursorLeft || wasdLeft }
    predicate Right() { cursorRight || wasdRight }
    predicate Up() { cursorUp || wasdUp }
    predicate Down() { cursorDown || wasdDown }
  }

  /** What update() reads and writes: the player's position and the dialog. */
  datatype SceneState = SceneState(x: int, y: int, showingDialog: bool, dialogText: string)

  /** The state right after create(): player at the spawn point, dialog hidden and empty. */
  const Initial := SceneState(SpawnX, SpawnY, false, "")

  predicate InBounds(x: int, y: int)
  {
    MinX <= x <= MaxX && MinY <= y <= MaxY
  }

  /** Distance.Between(player, cat) < 60, the first half of the open test. */
  predicate NearCat(x: int, y: int)
    ensures NearCat(x, y) ==> CatX - TalkRadius < x < CatX + TalkRadius
    ensures NearCat(x, y) ==> CatY - TalkRadius < y < CatY + TalkRadius
    ensures x == CatX && y == CatY ==> NearCat(x, y)
  {
    Within(x, y, CatX, CatY, TalkRadius)
  }

  /**
   * The displacement of one axis for one frame. The negative direction is
   * tested first, so it wins when both are held.
   */
  function AxisDelta(negative: bool, positive: bool): (d: int)
    ensures d == -Speed || d == 0 || d == Speed
    ensures d < 0 <==> negative
    ensures d > 0 <==> !negative && positive
  {
    if negative then -Speed else if positive then Speed else 0
  }

  /** showDialog(text): the dialog is showing, with that text. */
  function Show(s: SceneState, text: string): (t: SceneState)
    ensures t.showingDialog && t.dialogText == text
    ensures t.x == s.x && t.y == s.y
  {
    s.(showingDialog := true, dialogText := text)
  }

  /** hideDialog(): the dialog is hidden; the stored text is left alone. */
  function Hide(s: SceneState): (t: SceneState)
    ensures !t.showingDialog
    ensures t.dialogText == s.dialogText && t.x == s.x && t.y == s.y
  {
    s.(showingDialog := false)
  }

  /** The movement and clamping half of a frame in which no dialog shows. */
  function Move(s: SceneState, inp: Input): (t: SceneState)
    ensures InBounds(t.x, t.y)
    ensures t.showingDialog == s.showingDialog && t.dialogText == s.dialogText
    // away from the edges, each axis moves by exactly its displacement
    ensures MinX <= s.x + AxisDelta(inp.Left(), inp.Right()) <= MaxX ==>
              t.x == s.x + AxisDelta(inp.Left(), inp.Right())
    ensures MinY <= s.y + AxisDelta(inp.Up(), inp.Down()) <= MaxY ==>
              t.y == s.y + AxisDelta(inp.Up(), inp.Down())
    // a step past an edge stops exactly on that edge
    ensures s.x + AxisDelta(inp.Left(), inp.Right()) < MinX ==> t.x == MinX
    ensures s.x + AxisDelta(inp.Left(), inp.Right()) > MaxX ==> t.x == MaxX
    ensures s.y + AxisDelta(inp.Up(), inp.Down()) < MinY ==> t.y == MinY
    ensures s.y + AxisDelta(inp.Up(), inp.Down()) > MaxY ==> t.y == MaxY
    // a position already in bounds moves at most one step per axis
    ensures InBounds(s.x, s.y) ==> -Speed <= t.x - s.x <= Speed && -Speed <= t.y - s.y <= Speed
    ensures InBounds(s.x, s.y) && inp.Left() ==> t.x <= s.x
    ensures InBounds(s.x, s.y) && inp.Up() ==> t.y <= s.y
  {
    var x := s.x + AxisDelta(inp.Left(), inp.Right());
    var y := s.y + AxisDelta(inp.Up(), inp.Down());
    s.(x := Clamp(x, MinX, MaxX), y := Clamp(y, MinY, MaxY))
  }

  /** One call of update(). */
  function Step(s: SceneState, inp: Input): (t: SceneState)
    // while the dialog shows, nothing moves and Space only closes it
    ensures s.showingDialog ==> t.x == s.x && t.y == s.y && t.dialogText == s.dialogText
    ensures s.showingDialog ==> (t.showingDialog <==> !inp.spaceJustDown)
    // otherwise the player moves and ends in bounds
    ensures !s.showingDialog ==> t.x == Move(s, inp).x && t.y == Move(s, inp).y
    ensures !s.showingDialog ==> InBounds(t.x, t.y)
    // and the dialog opens exactly when Space is pressed near the cat, with the cat's line
    ensures !s.showingDialog ==> (t.showingDialog <==> NearCat(t.x, t.y) && inp.spaceJustDown)
    ensures !s.showingDialog && t.showingDialog ==> t.dialogText == CatLine
    ensures !t.showingDialog ==> t.dialogText == s.dialogText
  {
    if s.showingDialog then
      if inp.spaceJustDown then Hide(s) else s
    else
      var m := Move(s, inp);
      if NearCat(m.x, m.y) && inp.spaceJustDown then Show(m, CatLine) else m
  }

  /**
   * Whether update() asks Phaser for Space's JustDown edge, which consumes it.
   * The close test always asks; the open test asks only near the cat,
   * because the distance test comes first in the condition.
   */
  function SpaceRead(s: SceneState, inp: Input): (r: bool)
    ensures s.showingDialog ==> r
    ensures !s.showingDialog ==> (r <==> NearCat(Move(s, inp).x, Move(s, inp).y))
    // an edge that is not read has no effect on the frame
    ensures !r ==> Step(s, inp) == Step(s, inp.(spaceJustDown := false))
  {
    s.showingDialog || var m := Move(s, inp); NearCat(m.x, m.y)
  }

  /** The two axes are independent: x depends only on Left/Right, y only on Up/Down. */
  lemma AxesIndependent(s: SceneState, a: Input, b: Input)
    ensures a.Left() == b.Left() && a.Right() == b.Right() ==> Step(s, a).x == Step(s, b).x
    ensures a.Up() == b.Up() && a.Down() == b.Down() ==> Step(s, a).y == Step(s, b).y
  {
  }

  /** A diagonal move is not normalised: both axes change by a full step. */
  lemma DiagonalMove(s: SceneState, inp: Input)
    requires !s.showingDialog
    requires MinX + Speed <= s.x <= MaxX - Speed && MinY + Speed <= s.y <= MaxY - Speed
    requires (inp.Left() || inp.Right()) && (inp.Up() || inp.Down())
    ensures Step(s, inp).x - s.x == Speed || s.x - Step(s, inp).x == Speed
    ensures Step(s, inp).y - s.y == Speed || s.y - Step(s, inp).y == Speed
  {
  }

  /** hideDialog after showDialog leaves the dialog hidden, holding the shown text. */
  lemma HideAfterShow(s: SceneState, text: string)
    requires !s.showingDialog
    ensures Hide(Show(s, text)) == s.(dialogText := text)
  {
  }

  /** The scene on the page: the player's and cat's positions and the dialog. */
  class GameScene {
    var x: int
    var y: int
    var showingDialog: bool
    var dialogText: string
    var catX: int
    var catY: int

    /** The cat sits where create() put it and the player is inside the world. */
    predicate Valid()
      reads this
    {
      catX == CatX && catY == CatY && InBounds(x, y)
    }

    function State(): SceneState
      reads this
    {
      SceneState(x, y, showingDialog, dialogText)
    }

    /** The constructor followed by create(). */
    constructor ()
      ensures Valid()
      ensures State() == Initial
    {
      x, y := SpawnX, SpawnY;
      catX, catY := CatX, CatY;
      dialogText := "";
      showingDialog := false;
    }

    method ShowDialog(text: string)
      modifies this`showingDialog, this`dialogText
      ensures State() == Show(old(State()), text)
      ensures old(Valid()) ==> Valid()
    {
      showingDialog := true;
      dialogText := text;
    }

    method HideDialog()
      modifies this`showingDialog
      ensures State() == Hide(old(State()))
      ensures old(Valid()) ==> Valid()
    {
      showingDialog := false;
    }

    /**
     * update(). Returns whether Space's edge was read (and so consumed).
     * The cat is never moved.
     */
    method Update(inp: Input) returns (spaceRead: bool)
      requires Valid()
      modifies this`x, this`y, this`showingDialog, this`dialogText
      ensures Valid()
      ensures State() == Step(old(State()), inp)
      ensures spaceRead == SpaceRead(old(State()), inp)
      ensures catX == old(catX) && catY == old(catY)
    {
      if showingDialog {
        spaceRead := true;
        if inp.spaceJustDown {
          HideDialog();
        }
        return;
      }

      if inp.Left() {
        x := x - Speed;
      } else if inp.Right() {
        x := x + Speed;
      }

      if inp.Up() {
        y := y - Speed;
      } else if inp.Down() {
        y := y + Speed;
      }

      x := Clamp(x, MinX, MaxX);
      y := Clamp(y, MinY, MaxY);

      var near := Within(x, y, catX, catY, TalkRadius);
      spaceRead := near;
      if near && inp.spaceJustDown {
        ShowDialog(CatLine);
      }
    }
  }
}
