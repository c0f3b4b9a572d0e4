/** The controller: the fixed sequence of the three levels, the current level
    index, and the routing of keys, Escape, command submissions and the
    navigation buttons to the current level. */
module Controller {
  import opened Page
  import Movement
  import InsertMode
  import CommandLine
  import Progress
  import Text

  /** The levels, in their fixed order: movement, insert mode, command line. */
  const LevelCount := 3

  const GridIndex := 0
  const InsertIndex := 1
  const CommandIndex := 2

  function Title(i: int): string
    requires 0 <= i < LevelCount
  {
    if i == GridIndex then "ステージ 1: ダンジョン移動"
    else if i == InsertIndex then "ステージ 2: 挿入モード"
    else "ステージ 3: コマンドライン"
  }

  /** The hint each level's `setup()` logs. */
  function SetupHint(i: int): Msg {
    if i == GridIndex then MoveHint
    else if i == InsertIndex then InsertHint
    else CommandHint
  }

  /** Everything the controller and the levels hold, as a value. */
  datatype World = World(
    index: int,
    grid: Movement.State,
    insert: InsertMode.State,
    command: CommandLine.State,
    page: PageState)

  /** The levels' completion flags, in level order. */
  function Completions(w: World): (r: seq<bool>)
    ensures |r| == LevelCount
  {
    [w.grid.completed, w.insert.completed, w.command.completed]
  }

  /** What every reachable world satisfies: the index names a level, every
      level is in one of its reachable states, and the command line is shown
      only while the command level is current and not yet completed. */
  predicate Inv(w: World) {
    0 <= w.index < LevelCount
    && Movement.Reachable(w.grid)
    && InsertMode.Reachable(w.insert)
    && CommandLine.Reachable(w.command)
    && (w.page.commandLineOpen ==> w.index == CommandIndex && !w.command.completed)
  }

  /** The level at `w.index` is in the state its `setup()` leaves. */
  predicate CurrentAtStart(w: World)
    requires 0 <= w.index < LevelCount
  {
    if w.index == GridIndex then w.grid == Movement.Initial
    else if w.index == InsertIndex then w.insert == InsertMode.Initial
    else w.command == CommandLine.Initial
  }

  /** The levels other than `w.index` are the same in `w` and `r`. */
  predicate OthersUnchanged(w: World, r: World) {
    (w.index != GridIndex ==> r.grid == w.grid)
    && (w.index != InsertIndex ==> r.insert == w.insert)
    && (w.index != CommandIndex ==> r.command == w.command)
  }

  /** No level that was completed in `w` is uncompleted in `r`. */
  predicate CompletionKept(w: World, r: World) {
    (w.grid.completed ==> r.grid.completed)
    && (w.insert.completed ==> r.insert.completed)
    && (w.command.completed ==> r.command.completed)
  }

  /** `updateProgress()`: completed levels out of all levels. */
  function ProgressOf(w: World): (r: Progress.Fraction)
    ensures r.total == LevelCount && r.completed <= LevelCount
    ensures r.completed == multiset(Completions(w))[true]
  {
    Progress.ProgressOf(Completions(w))
  }

  /** The next button: one level on, wrapping from the last to the first. */
  function NextIndex(i: int): (r: int)
    requires 0 <= i < LevelCount
    ensures 0 <= r < LevelCount
    ensures r == if i == LevelCount - 1 then 0 else i + 1
  {
    (i + 1) % LevelCount
  }

  /** The previous button: one level back, wrapping from the first to the
      last. */
  function PrevIndex(i: int): (r: int)
    requires 0 <= i < LevelCount
    ensures 0 <= r < LevelCount
    ensures r == if i == 0 then LevelCount - 1 else i - 1
  {
    (i - 1 + LevelCount) % LevelCount
  }

  /** The complete button: one level on, staying at the last level. */
  function CompleteIndex(i: int): (r: int)
    requires 0 <= i < LevelCount
    ensures 0 <= r < LevelCount
    ensures r == if i == LevelCount - 1 then i else i + 1
  {
    if i + 1 < LevelCount - 1 then i + 1 else LevelCount - 1
  }

  /** Next and previous undo each other. */
  lemma NextPrevInverse(i: int)
    requires 0 <= i < LevelCount
    ensures PrevIndex(NextIndex(i)) == i && NextIndex(PrevIndex(i)) == i
  {
  }

  /** `renderLevel()`: hides the command line, logs the level's start, runs
      its `setup()` and recomputes progress. The current level is back at its
      start and no longer completed; the other levels keep their state, so
      progress drops by one exactly when the current level had been
      completed. */
  function Render(w: World): (r: World)
    requires 0 <= w.index < LevelCount
    ensures r.index == w.index && CurrentAtStart(r) && OthersUnchanged(w, r)
    ensures !r.page.commandLineOpen
    ensures r.page.log == [SetupHint(w.index), LevelStarted(Title(w.index))] + w.page.log
    ensures Progress.CountCompleted(Completions(r))
            == Progress.CountCompleted(Completions(w)) - (if Completions(w)[w.index] then 1 else 0)
    ensures Inv(w) ==> Inv(r)
  {
    var p := Logged(w.page.(commandLineOpen := false), LevelStarted(Title(w.index)));
    Progress.CountAfterSet(Completions(w), w.index, false);
    if w.index == GridIndex then
      var s := Movement.SetupStep(p);
      assert Completions(w)[w.index := false] == Completions(w.(grid := s.0, page := s.1));
      w.(grid := s.0, page := s.1)
    else if w.index == InsertIndex then
      var s := InsertMode.SetupStep(p);
      assert Completions(w)[w.index := false] == Completions(w.(insert := s.0, page := s.1));
      w.(insert := s.0, page := s.1)
    else
      var s := CommandLine.SetupStep(p);
      assert Completions(w)[w.index := false] == Completions(w.(command := s.0, page := s.1));
      w.(command := s.0, page := s.1)
  }

  /** `handleKeyDown(event)`: a key typed into an input box is left alone;
      any other key goes to the current level's `handleKey`. Only the
      current level changes, and no completed level is uncompleted. */
  function KeyDown(w: World, e: KeyEvent): (r: World)
    requires 0 <= w.index < LevelCount
    ensures e.fromInput ==> r == w
    ensures !e.fromInput && w.index == GridIndex ==> (r.grid, r.page) == Movement.KeyStep(w.grid, w.page, e)
    ensures !e.fromInput && w.index == InsertIndex ==> (r.insert, r.page) == InsertMode.KeyStep(w.insert, w.page, e)
    ensures !e.fromInput && w.index == CommandIndex ==> (r.command, r.page) == CommandLine.KeyStep(w.command, w.page, e)
    ensures r.index == w.index && OthersUnchanged(w, r) && CompletionKept(w, r)
    ensures Inv(w) ==> Inv(r)
  {
    if e.fromInput then w
    else if w.index == GridIndex then
      var s := Movement.KeyStep(w.grid, w.page, e);
      w.(grid := s.0, page := s.1)
    else if w.index == InsertIndex then
      var s := InsertMode.KeyStep(w.insert, w.page, e);
      w.(insert := s.0, page := s.1)
    else
      var s := CommandLine.KeyStep(w.command, w.page, e);
      w.(command := s.0, page := s.1)
  }

  /** `handleEscapeAction()`: an open command line is closed, with a log
      message, and the level's own `onEscape` is not called; otherwise the
      insert and command levels get their `onEscape`, and the movement level,
      which has none, is left alone. Afterwards the command line is closed. */
  function Escape(w: World): (r: World)
    requires 0 <= w.index < LevelCount
    ensures w.page.commandLineOpen ==> r == w.(page := PageState(false, [CommandLineClosed] + w.page.log))
    ensures !w.page.commandLineOpen && w.index == GridIndex ==> r == w
    ensures !w.page.commandLineOpen && w.index == InsertIndex ==> (r.insert, r.page) == InsertMode.EscapeStep(w.insert, w.page)
    ensures !w.page.commandLineOpen && w.index == CommandIndex ==> (r.command, r.page) == CommandLine.EscapeStep(w.command, w.page)
    ensures !w.page.commandLineOpen ==> !r.page.commandLineOpen
    ensures r.index == w.index && OthersUnchanged(w, r) && CompletionKept(w, r)
    ensures Inv(w) ==> Inv(r) && !r.page.commandLineOpen
  {
    if w.page.commandLineOpen then
      w.(page := Logged(w.page.(commandLineOpen := false), CommandLineClosed))
    else if w.index == InsertIndex then
      var s := InsertMode.EscapeStep(w.insert, w.page);
      w.(insert := s.0, page := s.1)
    else if w.index == CommandIndex then
      var s := CommandLine.EscapeStep(w.command, w.page);
      w.(command := s.0, page := s.1)
    else w
  }

  /** Enter in the command-line box: the text goes to the current level's
      `onCommandSubmit`, which only the command level has. */
  function Submit(w: World, text: string): (r: World)
    requires 0 <= w.index < LevelCount
    ensures w.index != CommandIndex ==> r == w
    ensures w.index == CommandIndex ==>
              !r.page.commandLineOpen
              && (r.command.completed <==> w.command.completed || CommandLine.IsQuit(Text.Trim(text)))
    ensures w.index == CommandIndex ==> (r.command, r.page) == CommandLine.SubmitStep(w.command, w.page, text)
    ensures r.index == w.index && OthersUnchanged(w, r) && CompletionKept(w, r)
    ensures Inv(w) ==> Inv(r)
  {
    if w.index == CommandIndex then
      var s := CommandLine.SubmitStep(w.command, w.page, text);
      w.(command := s.0, page := s.1)
    else w
  }

  /** Everything that can happen on the page. */
  datatype Action =
    | Key(e: KeyEvent)
    | EscapeAction
    | SubmitCommand(text: string)
    | NextLevel
    | PrevLevel
    | ResetLevel
    | CompleteLevel

  /** One action. Each navigation button moves the index and renders the
      level it lands on, which is left at its start. */
  function Apply(w: World, a: Action): (r: World)
    requires 0 <= w.index < LevelCount
    ensures 0 <= r.index < LevelCount
    ensures a.NextLevel? ==> r.index == NextIndex(w.index) && CurrentAtStart(r)
    ensures a.PrevLevel? ==> r.index == PrevIndex(w.index) && CurrentAtStart(r)
    ensures a.ResetLevel? ==> r.index == w.index && CurrentAtStart(r)
    ensures a.CompleteLevel? ==> r.index == CompleteIndex(w.index) && CurrentAtStart(r)
    ensures a.Key? ==> r == KeyDown(w, a.e)
    ensures a.EscapeAction? ==> r == Escape(w)
    ensures a.SubmitCommand? ==> r == Submit(w, a.text)
    ensures a.NextLevel? ==> r == Render(w.(index := NextIndex(w.index)))
    ensures a.PrevLevel? ==> r == Render(w.(index := PrevIndex(w.index)))
    ensures a.ResetLevel? ==> r == Render(w)
    ensures a.CompleteLevel? ==> r == Render(w.(index := CompleteIndex(w.index)))
    ensures Inv(w) ==> Inv(r)
  {
    match a
    case Key(e) => KeyDown(w, e)
    case EscapeAction => Escape(w)
    case SubmitCommand(text) => Submit(w, text)
    case NextLevel => Render(w.(index := NextIndex(w.index)))
    case PrevLevel => Render(w.(index := PrevIndex(w.index)))
    case ResetLevel => Render(w)
    case CompleteLevel => Render(w.(index := CompleteIndex(w.index)))
  }

  /** The world after a run of actions. */
  function Run(w: World, actions: seq<Action>): (r: World)
    requires 0 <= w.index < LevelCount
    decreases |actions|
  {
    if actions == [] then w
    else
      var w1 := Apply(w, actions[0]);
      Run(w1, actions[1..])
  }

  /** `setupGame()`: the three levels as created, then the first rendered. */
  function Boot(): (r: World)
    ensures r.index == GridIndex && Inv(r)
    ensures r.grid == Movement.Initial && r.insert == InsertMode.Initial && r.command == CommandLine.Initial
    ensures r.page == PageState(false, [MoveHint, LevelStarted(Title(GridIndex))])
    ensures ProgressOf(r).completed == 0
  {
    var w := World(GridIndex, Movement.Initial, InsertMode.Initial, CommandLine.Initial, PageState(false, []));
    InsertMode.InitialReachable();
    assert Inv(w);
    assert Completions(w) == [false, false, false];
    Render(w)
  }

  /** Whatever happens on the page after start-up, the invariant holds. */
  lemma {:induction false} RunKeepsInv(w: World, actions: seq<Action>)
    requires Inv(w)
    ensures Inv(Run(w, actions))
    decreases |actions|
  {
    if actions != [] {
      RunKeepsInv(Apply(w, actions[0]), actions[1..]);
    }
  }

  /** Whatever happens on the page after start-up: the index names a level,
      the player is on the grid, a completed level is in its finished state,
      and an open command line belongs to the uncompleted command level. */
  lemma ReachableFromBoot(actions: seq<Action>)
    ensures Inv(Run(Boot(), actions))
  {
    RunKeepsInv(Boot(), actions);
  }

  /** From the first level, previous wraps round to the last level, and
      complete at the last level stays there. */
  lemma WrapAndStop(w: World)
    requires w.index == GridIndex
    ensures var back := Apply(w, PrevLevel);
            back.index == CommandIndex && Apply(back, CompleteLevel).index == CommandIndex
  {
  }

  /** Key presses as page actions, in order. */
  function KeyActions(keys: seq<KeyEvent>): (r: seq<Action>)
    ensures |r| == |keys|
    ensures forall i :: 0 <= i < |keys| ==> r[i] == Key(keys[i])
  {
    if keys == [] then [] else [Key(keys[0])] + KeyActions(keys[1..])
  }

  /** On the movement level, key presses outside any input box reach the
      level one by one: the world moves as the level's own run of keys, and
      the other levels are left alone. */
  lemma {:induction false} RunKeysOnGrid(w: World, keys: seq<KeyEvent>)
    requires w.index == GridIndex
    requires forall i :: 0 <= i < |keys| ==> !keys[i].fromInput
    ensures var m := Movement.Keys(w.grid, w.page, keys);
            Run(w, KeyActions(keys)) == w.(grid := m.0, page := m.1)
    decreases |keys|
  {
    if keys != [] {
      var w1 := Apply(w, Key(keys[0]));
      assert KeyActions(keys)[0] == Key(keys[0]) && KeyActions(keys)[1..] == KeyActions(keys[1..]);
      RunKeysOnGrid(w1, keys[1..]);
    }
  }

  /** From start-up, at least six presses of `l` and then at least four of
      `k` complete the first level (presses past an edge are blocked, and
      presses after completion ignored), and progress then reads one level
      out of three. */
  lemma FirstLevelByKeys(m: nat, n: nat)
    requires m >= 6 && n >= 4
    ensures var r := Run(Boot(), KeyActions(Movement.Repeat("l", m) + Movement.Repeat("k", n)));
            r.index == GridIndex && r.grid.completed && ProgressOf(r) == Progress.Fraction(1, LevelCount)
  {
    FirstLevelFrom(Boot(), m, n);
  }

  /** On the movement level at its start, with no level completed, at least
      six presses of `l` and then at least four of `k` complete it. */
  lemma FirstLevelFrom(b: World, m: nat, n: nat)
    requires m >= 6 && n >= 4
    requires b.index == GridIndex && b.grid == Movement.Initial && ProgressOf(b).completed == 0
    ensures var r := Run(b, KeyActions(Movement.Repeat("l", m) + Movement.Repeat("k", n)));
            r.index == GridIndex && r.grid.completed && ProgressOf(r) == Progress.Fraction(1, LevelCount)
  {
    Movement.WalkToExit(b.page, m, n);
    PressesNotFromInput(Movement.Repeat("l", m), Movement.Repeat("k", n));
    GridRunCompletes(b, Movement.Repeat("l", m) + Movement.Repeat("k", n));
  }

  /** A run of keys, none typed into an input box, that completes the
      movement level from its start completes it on the page too; the other
      levels are left as they were, so with none completed before, progress
      reads one level out of three. */
  lemma GridRunCompletes(b: World, keys: seq<KeyEvent>)
    requires b.index == GridIndex && b.grid == Movement.Initial && ProgressOf(b).completed == 0
    requires forall i :: 0 <= i < |keys| ==> !keys[i].fromInput
    requires Movement.Keys(Movement.Initial, b.page, keys).0.completed
    ensures var r := Run(b, KeyActions(keys));
            r.index == GridIndex && r.grid.completed && ProgressOf(r) == Progress.Fraction(1, LevelCount)
  {
    RunKeysOnGrid(b, keys);
    OneMoreCompleted(b, Run(b, KeyActions(keys)));
  }

  /** Plain key presses are not typed into an input box. */
  lemma PressesNotFromInput(a: seq<KeyEvent>, b: seq<KeyEvent>)
    requires forall i :: 0 <= i < |a| ==> a[i] == Movement.Press(a[i].key)
    requires forall i :: 0 <= i < |b| ==> b[i] == Movement.Press(b[i].key)
    ensures forall i :: 0 <= i < |a + b| ==> !(a + b)[i].fromInput
  {
  }

  /** Completing the first level, the others untouched, adds one to the
      progress count. */
  lemma OneMoreCompleted(w: World, r: World)
    requires !w.grid.completed && r.grid.completed
    requires r.insert == w.insert && r.command == w.command
    ensures ProgressOf(r).completed == ProgressOf(w).completed + 1
  {
    assert Completions(r) == Completions(w)[GridIndex := true];
    Progress.CountAfterSet(Completions(w), GridIndex, true);
    Progress.CountIsMultiplicity(Completions(w));
    Progress.CountIsMultiplicity(Completions(r));
  }

  /** The running page: the three level objects, the shared page elements and
      `currentLevelIndex`. */
  class Game {
    var currentLevelIndex: int
    const grid: Movement.MovementLevel
    const insert: InsertMode.InsertLevel
    const command: CommandLine.CommandLevel
    const dom: Dom

    /** The world the objects hold. */
    function Snapshot(): World
      reads this, grid, insert, command, dom
    {
      World(currentLevelIndex, grid.Snapshot(), insert.Snapshot(), command.Snapshot(), dom.Snapshot())
    }

    /** Every level writes to this game's page, and the world is reachable. */
    ghost predicate Valid()
      reads this, grid, insert, command, dom
    {
      grid.dom == dom && insert.dom == dom && command.dom == dom && Inv(Snapshot())
    }

    /** `setupGame()`. */
    constructor ()
      ensures Valid() && Snapshot() == Boot()
    {
      var d := new Dom();
      dom := d;
      grid := new Movement.MovementLevel(d);
      insert := new InsertMode.InsertLevel(d);
      command := new CommandLine.CommandLevel(d);
      currentLevelIndex := GridIndex;
      new;
      ghost var w0 := Snapshot();
      assert w0 == World(GridIndex, Movement.Initial, InsertMode.Initial, CommandLine.Initial, PageState(false, []));
      RenderLevel();
      assert Snapshot() == Render(w0) == Boot();
    }

    /** The progress indicator's fraction. */
    function CurrentProgress(): (r: Progress.Fraction)
      reads this, grid, insert, command, dom
      ensures r == ProgressOf(Snapshot())
    {
      Progress.ProgressOf([grid.completed, insert.completed, command.completed])
    }

    method RenderLevel()
      requires grid.dom == dom && insert.dom == dom && command.dom == dom
      requires 0 <= currentLevelIndex < LevelCount
      modifies grid, insert, command, dom
      ensures Snapshot() == Render(old(Snapshot()))
    {
      dom.SetCommandLineOpen(false);
      dom.AddLog(LevelStarted(Title(currentLevelIndex)));
      if currentLevelIndex == GridIndex {
        grid.Setup();
      } else if currentLevelIndex == InsertIndex {
        insert.Setup();
      } else {
        command.Setup();
      }
    }

    method HandleKeyDown(e: KeyEvent)
      requires Valid()
      modifies grid, insert, command, dom
      ensures Valid() && Snapshot() == KeyDown(old(Snapshot()), e)
    {
      if e.fromInput {
        return;
      }
      if currentLevelIndex == GridIndex {
        grid.HandleKey(e);
      } else if currentLevelIndex == InsertIndex {
        insert.HandleKey(e);
      } else {
        command.HandleKey(e);
      }
    }

    method HandleEscapeAction()
      requires Valid()
      modifies grid, insert, command, dom
      ensures Valid() && Snapshot() == Escape(old(Snapshot()))
    {
      if dom.commandLineOpen {
        dom.SetCommandLineOpen(false);
        dom.AddLog(CommandLineClosed);
        return;
      }
      if currentLevelIndex == InsertIndex {
        insert.OnEscape();
      } else if currentLevelIndex == CommandIndex {
        command.OnEscape();
      }
    }

    method SubmitCommand(text: string)
      requires Valid()
      modifies grid, insert, command, dom
      ensures Valid() && Snapshot() == Submit(old(Snapshot()), text)
    {
      if currentLevelIndex == CommandIndex {
        command.OnCommandSubmit(text);
      }
    }

    method Next()
      requires Valid()
      modifies this, grid, insert, command, dom
      ensures Valid() && Snapshot() == Apply(old(Snapshot()), NextLevel)
    {
      currentLevelIndex := (currentLevelIndex + 1) % LevelCount;
      RenderLevel();
    }

    method Prev()
      requires Valid()
      modifies this, grid, insert, command, dom
      ensures Valid() && Snapshot() == Apply(old(Snapshot()), PrevLevel)
    {
      currentLevelIndex := (currentLevelIndex - 1 + LevelCount) % LevelCount;
      RenderLevel();
    }

    method Reset()
      requires Valid()
      modifies grid, insert, command, dom
      ensures Valid() && Snapshot() == Apply(old(Snapshot()), ResetLevel)
    {
      RenderLevel();
    }

    method Complete()
      requires Valid()
      modifies this, grid, insert, command, dom
      ensures Valid() && Snapshot() == Apply(old(Snapshot()), CompleteLevel)
    {
      currentLevelIndex := if currentLevelIndex + 1 < LevelCount - 1 then currentLevelIndex + 1 else LevelCount - 1;
      RenderLevel();
    }
  }
}
