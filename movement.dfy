/** Stage 1, the dungeon: a player walks a fixed grid with h/j/k/l towards the
    exit. */
module Movement {
  import opened Page

  datatype Pos = Pos(x: int, y: int)

  const Width := 7
  const Height := 5
  const Start := Pos(0, 4)
  const Exit := Pos(6, 0)

  predicate InBounds(p: Pos) {
    0 <= p.x < Width && 0 <= p.y < Height
  }

  /** The level's mutable state as a value. */
  datatype State = State(player: Pos, completed: bool)

  /** What the level can be in: on the grid, and standing on the exit once
      completed. */
  predicate Reachable(s: State) {
    InBounds(s.player) && (s.completed ==> s.player == Exit)
  }

  function Max(a: int, b: int): int { if a < b then b else a }
  function Min(a: int, b: int): int { if a < b then a else b }

  /** `Math.max(lo, Math.min(hi, v))`: `v` pulled into `[lo, hi]`. */
  function Clamp(v: int, lo: int, hi: int): (r: int)
    requires lo <= hi
    ensures lo <= r <= hi
    ensures lo <= v <= hi ==> r == v
    ensures v < lo ==> r == lo
    ensures hi < v ==> r == hi
  {
    Max(lo, Min(hi, v))
  }

  predicate IsMoveKey(key: string) {
    key == "h" || key == "j" || key == "k" || key == "l"
  }

  /** The unit step a key asks for: h left, l right, k up, j down, any other
      key none. */
  function Delta(key: string): (d: (int, int))
    ensures d != (0, 0) <==> IsMoveKey(key)
    ensures key == "h" ==> d == (-1, 0)
    ensures key == "l" ==> d == (1, 0)
    ensures key == "k" ==> d == (0, -1)
    ensures key == "j" ==> d == (0, 1)
  {
    var dx := if key == "h" then -1 else if key == "l" then 1 else 0;
    var dy := if key == "k" then -1 else if key == "j" then 1 else 0;
    (dx, dy)
  }

  /** The state the level is created in. */
  const Initial := State(Start, false)

  /** `setup()`: the player back on the start cell, not completed, a hint in
      the log. */
  function SetupStep(p: PageState): (r: (State, PageState))
    ensures r.0 == Initial && Reachable(r.0)
    ensures r.1 == Logged(p, MoveHint)
  {
    (State(Start, false), Logged(p, MoveHint))
  }

  /** `finish()`: logs the success and marks the level completed. */
  function FinishStep(s: State, p: PageState): (State, PageState)
  {
    (s.(completed := true), Logged(p, ExitReached))
  }

  /** `handleKey`: once completed every key is ignored; otherwise a move key
      moves the player one cell, each axis clamped to the grid, logs the new
      cell, and completes the level exactly when that cell is the exit. The
      command line is never touched. */
  function KeyStep(s: State, p: PageState, e: KeyEvent): (r: (State, PageState))
    ensures s.completed || !IsMoveKey(e.key) ==> r == (s, p)
    ensures !s.completed && IsMoveKey(e.key) ==>
              InBounds(r.0.player)
              && (r.0.completed <==> r.0.player == Exit)
              && r.1.log == (if r.0.completed then [ExitReached] else [])
                            + [Moved(r.0.player.x, r.0.player.y)] + p.log
    ensures r.1.commandLineOpen == p.commandLineOpen
    ensures Reachable(s) ==> Reachable(r.0)
  {
    if s.completed then (s, p)
    else
      var d := Delta(e.key);
      if d.0 != 0 || d.1 != 0 then
        var player := Pos(Clamp(s.player.x + d.0, 0, Width - 1), Clamp(s.player.y + d.1, 0, Height - 1));
        var p1 := Logged(p, Moved(player.x, player.y));
        if player == Exit then FinishStep(State(player, s.completed), p1)
        else (State(player, s.completed), p1)
      else (s, p)
  }

  /** A move key takes the player exactly one cell in its direction, unless
      that cell is off the grid, in which case the player stays put. */
  lemma MoveIsOneCellOrBlocked(s: State, p: PageState, e: KeyEvent)
    requires InBounds(s.player) && !s.completed && IsMoveKey(e.key)
    ensures var q := KeyStep(s, p, e).0.player;
            var d := Delta(e.key);
            var target := Pos(s.player.x + d.0, s.player.y + d.1);
            if InBounds(target) then q == target else q == s.player
  {
  }

  /** The level after a run of key presses. */
  function Keys(s: State, p: PageState, keys: seq<KeyEvent>): (State, PageState)
  {
    RunKeys(KeyStep, s, p, keys)
  }

  /** Whatever keys are pressed, the player stays on the grid and a completed
      level stays completed with the player on the exit. */
  lemma {:induction false} KeysStayReachable(s: State, p: PageState, keys: seq<KeyEvent>)
    requires Reachable(s)
    ensures Reachable(Keys(s, p, keys).0)
    ensures s.completed ==> Keys(s, p, keys) == (s, p)
    decreases |keys|
  {
    if keys != [] {
      var r1 := KeyStep(s, p, keys[0]);
      KeysStayReachable(r1.0, r1.1, keys[1..]);
    }
  }

  function Press(key: string): KeyEvent {
    KeyEvent(key, false, false, false)
  }

  function Repeat(key: string, n: nat): (r: seq<KeyEvent>)
    ensures |r| == n
    ensures forall i :: 0 <= i < n ==> r[i] == Press(key)
  {
    if n == 0 then [] else [Press(key)] + Repeat(key, n - 1)
  }

  /** Pressing `l` n times on a row other than the exit's walks right, n
      cells or up to the right edge, without completing. */
  lemma {:induction false} WalkRight(x: int, y: int, p: PageState, n: nat)
    requires 0 <= x < Width && 0 < y < Height
    ensures Keys(State(Pos(x, y), false), p, Repeat("l", n)).0 == State(Pos(Min(x + n, Width - 1), y), false)
    decreases n
  {
    if n > 0 {
      var r1 := KeyStep(State(Pos(x, y), false), p, Press("l"));
      assert r1.0 == State(Pos(Min(x + 1, Width - 1), y), false);
      WalkRight(Min(x + 1, Width - 1), y, r1.1, n - 1);
    }
  }

  /** Pressing `k` n times in the exit's column walks up; the level completes
      exactly when the top row is reached. */
  lemma {:induction false} WalkUp(y: int, p: PageState, n: nat)
    requires 0 <= y < Height
    ensures var s := Keys(State(Pos(Width - 1, y), y == 0), p, Repeat("k", n)).0;
            s.player == Pos(Width - 1, Max(y - n, 0)) && (s.completed <==> y - n <= 0)
    decreases n
  {
    if n > 0 && y > 0 {
      var r1 := KeyStep(State(Pos(Width - 1, y), false), p, Press("k"));
      assert r1.0 == State(Pos(Width - 1, y - 1), y - 1 == 0);
      WalkUp(y - 1, r1.1, n - 1);
    } else if n > 0 {
      KeysStayReachable(State(Pos(Width - 1, 0), true), p, Repeat("k", n));
    }
  }

  /** From the start, six presses of `l` and four of `k` reach the exit, and
      the level completes on the last of them and not before. */
  lemma StartToExit(p: PageState)
    ensures var right := Keys(Initial, p, Repeat("l", 6));
            Keys(right.0, right.1, Repeat("k", 3)).0 == State(Pos(6, 1), false)
            && Keys(Initial, p, Repeat("l", 6) + Repeat("k", 4)).0 == State(Exit, true)
  {
    WalkRight(0, 4, p, 6);
    var right := Keys(Initial, p, Repeat("l", 6));
    WalkUp(4, right.1, 3);
    WalkUp(4, right.1, 4);
    RunKeysAppend(KeyStep, Initial, p, Repeat("l", 6), Repeat("k", 4));
  }

  /** From the start, at least six presses of `l` and then at least four of
      `k` complete the level on the exit. */
  lemma WalkToExit(p: PageState, m: nat, n: nat)
    requires m >= 6 && n >= 4
    ensures Keys(Initial, p, Repeat("l", m) + Repeat("k", n)).0 == State(Exit, true)
  {
    WalkRight(0, 4, p, m);
    var right := Keys(Initial, p, Repeat("l", m));
    WalkUp(4, right.1, n);
    KeysStayReachable(Keys(right.0, right.1, Repeat("k", n)).0, right.1, []);
    RunKeysAppend(KeyStep, Initial, p, Repeat("l", m), Repeat("k", n));
  }

  /** The level object: the closure state of `createMovementLevel`. */
  class MovementLevel {
    var player: Pos
    var completed: bool
    const dom: Dom

    function Snapshot(): State
      reads this
    {
      State(player, completed)
    }

    constructor (dom: Dom)
      ensures this.dom == dom && Snapshot() == Initial
    {
      player := Start;
      completed := false;
      this.dom := dom;
    }

    method Setup()
      modifies this, dom
      ensures (Snapshot(), dom.Snapshot()) == SetupStep(old(dom.Snapshot()))
    {
      player := Start;
      completed := false;
      dom.AddLog(MoveHint);
    }

    method Finish()
      modifies this, dom
      ensures (Snapshot(), dom.Snapshot()) == FinishStep(old(Snapshot()), old(dom.Snapshot()))
    {
      dom.AddLog(ExitReached);
      completed := true;
    }

    method HandleKey(e: KeyEvent)
      modifies this, dom
      ensures (Snapshot(), dom.Snapshot()) == KeyStep(old(Snapshot()), old(dom.Snapshot()), e)
    {
      var key := e.key;
      if completed {
        return;
      }
      var dx, dy := 0, 0;
      if key == "h" { dx := -1; }
      if key == "l" { dx := 1; }
      if key == "k" { dy := -1; }
      if key == "j" { dy := 1; }
      if dx != 0 || dy != 0 {
        player := player.(x := Max(0, Min(Width - 1, player.x + dx)));
        player := player.(y := Max(0, Min(Height - 1, player.y + dy)));
        dom.AddLog(Moved(player.x, player.y));
        if player.x == Exit.x && player.y == Exit.y {
          Finish();
        }
      }
    }
  }
}
