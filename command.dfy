/** Stage 3, save and quit: `:` opens the command line, and submitting `wq`
    or `x` there completes the level. */
module CommandLine {
  import opened Page
  import opened Text

  const StartText := "Write and quit with :wq"

  /** The level's mutable state as a value. The mode is Normal throughout:
      the command line is an overlay on the page, not a mode of the level. */
  datatype State = State(buffer: string, mode: Mode, completed: bool)

  /** What the level can be in: the buffer only ever holds the start text,
      and the mode is Normal. */
  predicate Reachable(s: State) {
    s.buffer == StartText && s.mode == Normal
  }

  /** The state the level is created in. */
  const Initial := State(StartText, Normal, false)

  /** The commands that save and quit. */
  predicate IsQuit(t: string) {
    t == "wq" || t == "x"
  }

  /** `setup()`: the start text in Normal mode, not completed, the command
      line hidden and a hint in the log. */
  function SetupStep(p: PageState): (r: (State, PageState))
    ensures r.0 == Initial && Reachable(r.0)
    ensures r.1 == PageState(false, [CommandHint] + p.log)
  {
    (State(StartText, Normal, false), Logged(p.(commandLineOpen := false), CommandHint))
  }

  /** `openCommandLine()`: shows the command line with a prompt in the log. */
  function OpenStep(p: PageState): PageState
  {
    Logged(p.(commandLineOpen := true), CommandPrompt)
  }

  /** `finish()`: marks the level completed and logs the success. */
  function FinishStep(s: State, p: PageState): (State, PageState)
  {
    (s.(completed := true), Logged(p, SavedAndQuit))
  }

  /** `handleKey`: once completed, or for a key typed into an input box,
      nothing. Otherwise, in Normal mode, `:` opens the command line and `u`
      puts the start text back in the buffer; other keys do nothing. No key
      completes the level or closes the command line. */
  function KeyStep(s: State, p: PageState, e: KeyEvent): (r: (State, PageState))
    ensures s.completed || e.fromInput || (e.key != ":" && e.key != "u") ==> r == (s, p)
    ensures !s.completed && !e.fromInput && s.mode == Normal && e.key == ":" ==>
              r == (s, PageState(true, [CommandPrompt] + p.log))
    ensures !s.completed && !e.fromInput && s.mode == Normal && e.key == "u" ==>
              r == (s.(buffer := StartText), Logged(p, Undone))
    ensures r.0.completed == s.completed && r.0.mode == s.mode
    ensures p.commandLineOpen ==> r.1.commandLineOpen
    ensures Reachable(s) ==> Reachable(r.0)
  {
    if s.completed then (s, p)
    else if e.fromInput then (s, p)
    else if s.mode == Normal then
      if e.key == ":" then (s, OpenStep(p))
      else if e.key == "u" then (s.(buffer := StartText), Logged(p, Undone))
      else (s, p)
    else (s, p)
  }

  /** `onCommandSubmit(value)`: the value is trimmed; `wq` or `x` completes
      the level, `w` and anything else only log. Whatever the value, the
      command line is closed afterwards, and nothing but `completed` changes
      in the level. */
  function SubmitStep(s: State, p: PageState, value: string): (r: (State, PageState))
    ensures !r.1.commandLineOpen
    ensures r.0 == s.(completed := s.completed || IsQuit(Trim(value)))
    ensures r.1.log == [if IsQuit(Trim(value)) then SavedAndQuit
                        else if Trim(value) == "w" then SavedNotQuit
                        else InvalidCommand(Trim(value))] + p.log
    ensures Reachable(s) ==> Reachable(r.0)
  {
    var trimmed := Trim(value);
    var r1 :=
      if trimmed == "wq" || trimmed == "x" then FinishStep(s, p)
      else if trimmed == "w" then (s, Logged(p, SavedNotQuit))
      else (s, Logged(p, InvalidCommand(trimmed)));
    (r1.0, r1.1.(commandLineOpen := false))
  }

  /** Whitespace around a command does not matter: ` wq ` quits like `wq`. */
  lemma PaddedQuitCompletes(s: State, p: PageState, pre: string, cmd: string, post: string)
    requires AllSpace(pre) && AllSpace(post) && IsQuit(cmd)
    ensures SubmitStep(s, p, pre + cmd + post).0.completed
  {
    TrimPadded(pre, cmd, post);
  }

  /** `onEscape()`: closes the command line, with a log message, when it is
      open; otherwise nothing. The level itself is never changed. */
  function EscapeStep(s: State, p: PageState): (r: (State, PageState))
    ensures r.0 == s
    ensures !r.1.commandLineOpen
    ensures r.1.log == (if p.commandLineOpen then [CommandLineClosed] else []) + p.log
  {
    if p.commandLineOpen then (s, Logged(p.(commandLineOpen := false), CommandLineClosed))
    else (s, p)
  }

  /** From the start, `:` opens the command line. */
  lemma ColonOpens(p: PageState)
    ensures var s := SetupStep(p);
            KeyStep(s.0, s.1, KeyEvent(":", false, false, false)) == (s.0, PageState(true, [CommandPrompt] + s.1.log))
  {
  }

  /** A command with no whitespace at either end is read as it stands. */
  lemma SubmitWord(s: State, p: PageState, w: string)
    requires w != [] && !IsSpace(w[0]) && !IsSpace(w[|w| - 1])
    ensures SubmitStep(s, p, w) ==
              (s.(completed := s.completed || IsQuit(w)),
               PageState(false, [if IsQuit(w) then SavedAndQuit else if w == "w" then SavedNotQuit else InvalidCommand(w)] + p.log))
  {
    TrimKeeps(w);
  }

  /** With the command line open, `wq` completes the level and closes it. */
  lemma SubmitWq(s: State, p: PageState)
    ensures SubmitStep(s, p, "wq") == (s.(completed := true), PageState(false, [SavedAndQuit] + p.log))
  {
    SubmitWord(s, p, "wq");
  }

  /** The level object: the closure state of `createCommandLevel`. */
  class CommandLevel {
    var buffer: string
    var mode: Mode
    var completed: bool
    const dom: Dom

    function Snapshot(): State
      reads this
    {
      State(buffer, mode, completed)
    }

    constructor (dom: Dom)
      ensures this.dom == dom && Snapshot() == Initial
    {
      buffer := StartText;
      mode := Normal;
      completed := false;
      this.dom := dom;
    }

    method Setup()
      modifies this, dom
      ensures (Snapshot(), dom.Snapshot()) == SetupStep(old(dom.Snapshot()))
    {
      buffer := StartText;
      mode := Normal;
      completed := false;
      dom.SetCommandLineOpen(false);
      dom.AddLog(CommandHint);
    }

    method OpenCommandLine()
      modifies dom
      ensures dom.Snapshot() == OpenStep(old(dom.Snapshot()))
    {
      dom.SetCommandLineOpen(true);
      dom.AddLog(CommandPrompt);
    }

    method CloseCommandLine()
      modifies dom
      ensures dom.Snapshot() == old(dom.Snapshot()).(commandLineOpen := false)
    {
      dom.SetCommandLineOpen(false);
    }

    method Finish()
      modifies this, dom
      ensures (Snapshot(), dom.Snapshot()) == FinishStep(old(Snapshot()), old(dom.Snapshot()))
    {
      completed := true;
      dom.AddLog(SavedAndQuit);
    }

    method HandleKey(e: KeyEvent)
      modifies this, dom
      ensures (Snapshot(), dom.Snapshot()) == KeyStep(old(Snapshot()), old(dom.Snapshot()), e)
    {
      if completed {
        return;
      }
      if e.fromInput {
        return;
      }
      var key := e.key;
      if mode == Normal {
        if key == ":" {
          OpenCommandLine();
          return;
        }
        if key == "u" {
          buffer := StartText;
          dom.AddLog(Undone);
          return;
        }
      }
    }

    method OnCommandSubmit(value: string)
      modifies this, dom
      ensures (Snapshot(), dom.Snapshot()) == SubmitStep(old(Snapshot()), old(dom.Snapshot()), value)
    {
      var trimmed := Trim(value);
      if trimmed == "wq" || trimmed == "x" {
        Finish();
      } else if trimmed == "w" {
        dom.AddLog(SavedNotQuit);
      } else {
        dom.AddLog(InvalidCommand(trimmed));
      }
      CloseCommandLine();
    }

    method OnEscape()
      modifies this, dom
      ensures (Snapshot(), dom.Snapshot()) == EscapeStep(old(Snapshot()), old(dom.Snapshot()))
    {
      if dom.commandLineOpen {
        CloseCommandLine();
        dom.AddLog(CommandLineClosed);
      }
    }
  }
}
