/**
 * The scene manager: the position of the current scene in the scene list
 * and the latch that lets one door contact move it by one scene only.
 */
module SceneManagers {
  import opened Rooms

  /** The current scene's position and the changingScenes latch. */
  datatype Latch = Latch(index: int, changing: bool)

  datatype Event = Next | Last | Load

  /**
   * nextScene and lastScene move one scene on or back and set the latch,
   * but only while it is clear; loading a scene clears it.
   */
  function Step(l: Latch, e: Event): (r: Latch)
    ensures e == Load ==> r == Latch(l.index, false)
    ensures e != Load && l.changing ==> r == l
    ensures e == Next && !l.changing ==> r == Latch(l.index + 1, true)
    ensures e == Last && !l.changing ==> r == Latch(l.index - 1, true)
  {
    match e
    case Load => l.(changing := false)
    case Next => if !l.changing then Latch(l.index + 1, true) else l
    case Last => if !l.changing then Latch(l.index - 1, true) else l
  }

  /** The latch after a series of events. */
  function Run(l: Latch, es: seq<Event>): Latch
    decreases |es|
  {
    if es == [] then l else Run(Step(l, es[0]), es[1..])
  }

  predicate NoLoad(es: seq<Event>) {
    forall i :: 0 <= i < |es| ==> es[i] != Load
  }

  /**
   * Between two loads only the first door event counts: a set latch
   * ignores every further event, and a clear one takes the first and then
   * ignores the rest.
   */
  lemma {:induction false} OneMovePerLoad(l: Latch, es: seq<Event>)
    requires NoLoad(es)
    ensures l.changing ==> Run(l, es) == l
    ensures !l.changing && es != [] ==> Run(l, es) == Step(l, es[0])
    decreases |es|
  {
    if es != [] {
      assert NoLoad(es[1..]) by {
        forall i | 0 <= i < |es[1..]| ensures es[1..][i] != Load { assert es[1..][i] == es[i + 1]; }
      }
      OneMovePerLoad(Step(l, es[0]), es[1..]);
    }
  }

  /** However many door events arrive between loads, the index moves by at most one. */
  lemma IndexMovesAtMostOne(l: Latch, es: seq<Event>)
    requires NoLoad(es)
    ensures -1 <= Run(l, es).index - l.index <= 1
    ensures Run(l, es).index != l.index ==> !l.changing && Run(l, es).changing
  {
    OneMovePerLoad(l, es);
  }

  class SceneManager {
    const scenes: seq<Scene>
    /** The game's current scene, as its position in `scenes`. */
    var index: int
    /** The scene last loaded (the manager's own currentScene); null before the first load. */
    var current: Scene?
    var changingScenes: bool

    function State(): Latch
      reads this
    {
      Latch(index, changingScenes)
    }

    /** The game starts in the first scene, with nothing loaded yet. */
    constructor (scenes: seq<Scene>)
      ensures this.scenes == scenes && index == 0 && current == null && !changingScenes
    {
      this.scenes := scenes;
      index := 0;
      current := null;
      changingScenes := false;
    }

    method NextScene()
      modifies this`index, this`changingScenes
      ensures State() == Step(old(State()), Next)
    {
      if !changingScenes {
        index := index + 1;
        changingScenes := true;
      }
    }

    method LastScene()
      modifies this`index, this`changingScenes
      ensures State() == Step(old(State()), Last)
    {
      if !changingScenes {
        index := index - 1;
        changingScenes := true;
      }
    }

    /**
     * Loads the current scene: it becomes the manager's scene, the latch is
     * cleared, and its doors lock exactly while it has enemies left.
     */
    method LoadScene()
      requires 0 <= index < |scenes|
      modifies this`current, this`changingScenes, set d | d in scenes[index].doors
      ensures current == scenes[index] && State() == Step(old(State()), Load)
      ensures forall d :: d in current.doors ==> (d.isLocked <==> |current.enemies| > 0)
    {
      var scene := scenes[index];
      current := scene;
      changingScenes := false;
      scene.RenderDoors(scene);
    }
  }
}
