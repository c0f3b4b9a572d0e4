/** The part of the page that the levels and the controller share: the key
    events they receive, the log feed they prepend to, and the command-line
    overlay whose visibility any of them may change. */
module Page {

  /** A key press as the handlers see it. `fromInput` is true when the event's
      target is a text-input surface (the command-line box or another input).
      The command level ignores only keys aimed at its own box; the
      controller has already dropped keys from every input box, so the two
      guards cannot be told apart and both are this one flag. */
  datatype KeyEvent = KeyEvent(key: string, ctrl: bool, meta: bool, fromInput: bool)

  /** A character that is one UTF-16 code unit: one in the Basic
      Multilingual Plane. */
  predicate InBmp(c: char) {
    c as int < 0x1_0000
  }

  /** A text whose UTF-16 length is its length in characters. */
  predicate AllInBmp(s: string) {
    forall i :: 0 <= i < |s| ==> InBmp(s[i])
  }

  /** A key name one UTF-16 code unit long (`key.length === 1`). */
  predicate OneCodeUnit(key: string) {
    |key| == 1 && InBmp(key[0])
  }

  /** A key that an editor level types into its buffer: one code unit long,
      no Ctrl or Meta held. */
  predicate Printable(e: KeyEvent) {
    OneCodeUnit(e.key) && !e.ctrl && !e.meta
  }

  /** The editing mode of an editor level, shown on the mode badge. */
  datatype Mode = Normal | Insert

  /** Log messages, as tags rather than their wording. */
  datatype Msg =
    | LevelStarted(title: string)
    | MoveHint
    | Moved(x: int, y: int)
    | ExitReached
    | InsertHint
    | EnteredInsert
    | BackToNormal
    | InsertDone
    | CommandHint
    | CommandPrompt
    | Undone
    | SavedAndQuit
    | SavedNotQuit
    | InvalidCommand(text: string)
    | CommandLineClosed

  /** The shared page state as a value: whether the command line is shown,
      and the log feed, newest message first. */
  datatype PageState = PageState(commandLineOpen: bool, log: seq<Msg>)

  /** `p` with `m` prepended to its log feed. */
  function Logged(p: PageState, m: Msg): PageState {
    p.(log := [m] + p.log)
  }

  /** The state of a level after a run of key presses, each one handled by
      the level's `step`. */
  function RunKeys<S>(step: (S, PageState, KeyEvent) -> (S, PageState), s: S, p: PageState, keys: seq<KeyEvent>): (S, PageState)
    decreases |keys|
  {
    if keys == [] then (s, p)
    else
      var r1 := step(s, p, keys[0]);
      RunKeys(step, r1.0, r1.1, keys[1..])
  }

  /** Keys that run one after the other. */
  lemma {:induction false} RunKeysAppend<S>(step: (S, PageState, KeyEvent) -> (S, PageState), s: S, p: PageState,
                                           a: seq<KeyEvent>, b: seq<KeyEvent>)
    ensures RunKeys(step, s, p, a + b) == var r := RunKeys(step, s, p, a); RunKeys(step, r.0, r.1, b)
    decreases |a|
  {
    if a == [] {
      assert a + b == b;
    } else {
      assert (a + b)[0] == a[0] && (a + b)[1..] == a[1..] + b;
      var r1 := step(s, p, a[0]);
      RunKeysAppend(step, r1.0, r1.1, a[1..], b);
    }
  }

  /** The DOM elements the core writes to: the command-line overlay and the
      log feed. One instance is shared by every level and the controller. */
  class Dom {
    var commandLineOpen: bool
    var log: seq<Msg>

    function Snapshot(): PageState
      reads this
    {
      PageState(commandLineOpen, log)
    }

    constructor ()
      ensures Snapshot() == PageState(false, [])
    {
      commandLineOpen := false;
      log := [];
    }

    /** Prepends one message to the feed. */
    method AddLog(m: Msg)
      modifies this
      ensures Snapshot() == Logged(old(Snapshot()), m)
    {
      log := [m] + log;
    }

    /** Shows or hides the command line. */
    method SetCommandLineOpen(open: bool)
      modifies this
      ensures Snapshot() == old(Snapshot()).(commandLineOpen := open)
    {
      commandLineOpen := open;
    }
  }
}
