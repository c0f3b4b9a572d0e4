/** Stage 2, insert mode: a Normal/Insert mode machine over a text buffer. The
    player enters Insert with `i`, types the missing sentence and leaves with
    Escape. */
module InsertMode {
  import opened Page

  const StartText := "The dungeon awaits…"
  const TargetText := "The dungeon awaits… Vim is powerful!"
  /** What the player is asked to type. */
  const Suffix := " Vim is powerful!"

  /** The level's mutable state as a value. */
  datatype State = State(buffer: string, mode: Mode, completed: bool)

  /** What the level can be in: the buffer holds one-code-unit characters
      only, and once completed the level is back in Normal mode with the
      target text in the buffer. */
  predicate Reachable(s: State) {
    AllInBmp(s.buffer)
    && (s.completed ==> s.mode == Normal && s.buffer == TargetText)
  }

  /** The target is the start text with the sentence appended. */
  lemma TargetExtendsStart()
    ensures StartText + Suffix == TargetText
  {
  }

  /** The sentence to type is typed one code unit per character. */
  lemma SuffixInBmp()
    ensures AllInBmp(Suffix)
  {
  }

  /** The state the level is created in. */
  const Initial := State(StartText, Normal, false)

  /** The level is created in a reachable state. */
  lemma InitialReachable()
    ensures Reachable(Initial)
  {
  }

  /** `buffer.slice(0, -1)`: the text without its last character; nothing
      to drop from the empty text. */
  function DropLast(s: string): (r: string)
    ensures s == [] ==> r == []
    ensures s != [] ==> r + [s[|s| - 1]] == s
  {
    if s == [] then [] else s[..|s| - 1]
  }

  /** Dropping the last character undoes appending one. */
  lemma DropLastUndoesAppend(s: string, c: char)
    ensures DropLast(s + [c]) == s
  {
    assert (s + [c])[..|s|] == s;
  }

  /** `setup()`: the start text in Normal mode, not completed, the command
      line hidden and a hint in the log. */
  function SetupStep(p: PageState): (r: (State, PageState))
    ensures r.0 == Initial && Reachable(r.0)
    ensures r.1 == PageState(false, [InsertHint] + p.log)
  {
    InitialReachable();
    (State(StartText, Normal, false), Logged(p.(commandLineOpen := false), InsertHint))
  }

  /** `finish()`: marks the level completed and logs the success. */
  function FinishStep(s: State, p: PageState): (State, PageState)
  {
    (s.(completed := true), Logged(p, InsertDone))
  }

  /** `exitInsertMode()`: from Insert mode, back to Normal, completing the
      level exactly when the buffer holds the target text; from Normal mode,
      nothing. The buffer is left as it is. */
  function ExitInsertStep(s: State, p: PageState): (r: (State, PageState))
    ensures s.mode == Normal ==> r == (s, p)
    ensures s.mode == Insert ==>
              r.0 == State(s.buffer, Normal, s.completed || s.buffer == TargetText)
              && r.1.log == (if s.buffer == TargetText then [InsertDone] else []) + [BackToNormal] + p.log
    ensures r.1.commandLineOpen == p.commandLineOpen
  {
    if s.mode == Insert then
      var s1 := s.(mode := Normal);
      var p1 := Logged(p, BackToNormal);
      if s1.buffer == TargetText then FinishStep(s1, p1) else (s1, p1)
    else (s, p)
  }

  /** The buffer after an Insert-mode key other than Escape: a printable key
      is appended, then Backspace drops the last character. */
  function Edit(buffer: string, e: KeyEvent): (r: string)
    ensures Printable(e) ==> r == buffer + e.key
    ensures e.key == "Backspace" ==> r == DropLast(buffer)
    ensures !Printable(e) && e.key != "Backspace" ==> r == buffer
  {
    var b := if OneCodeUnit(e.key) && !e.meta && !e.ctrl then buffer + e.key else buffer;
    if e.key == "Backspace" then DropLast(b) else b
  }

  /** `handleKey`: once completed every key is ignored. In Normal mode only
      `i` does anything, entering Insert mode; the buffer is never touched.
      In Insert mode Escape leaves through `exitInsertMode` and every other
      key edits the buffer. The level completes only on that Escape, with the
      target text in the buffer. */
  function KeyStep(s: State, p: PageState, e: KeyEvent): (r: (State, PageState))
    ensures s.completed ==> r == (s, p)
    ensures !s.completed && s.mode == Normal ==>
              r == (if e.key == "i" then (s.(mode := Insert), Logged(p, EnteredInsert)) else (s, p))
    ensures !s.completed && s.mode == Insert && e.key != "Escape" ==>
              r == (s.(buffer := Edit(s.buffer, e)), p)
    ensures !s.completed && s.mode == Insert && e.key == "Escape" ==>
              r.0 == State(s.buffer, Normal, s.buffer == TargetText)
              && r.1.log == (if s.buffer == TargetText then [InsertDone] else []) + [BackToNormal] + p.log
    ensures AllInBmp(s.buffer) ==> AllInBmp(r.0.buffer)
    ensures r.0.buffer != s.buffer ==> s.mode.Insert? && r.0.mode.Insert?
    ensures r.0.completed <==> s.completed || (s.mode == Insert && e.key == "Escape" && s.buffer == TargetText)
    ensures r.1.commandLineOpen == p.commandLineOpen
    ensures Reachable(s) ==> Reachable(r.0)
  {
    if s.completed then (s, p)
    else if s.mode == Normal then
      if e.key == "i" then (s.(mode := Insert), Logged(p, EnteredInsert)) else (s, p)
    else if e.key == "Escape" then ExitInsertStep(s, p)
    else (s.(buffer := Edit(s.buffer, e)), p)
  }

  /** `onEscape()`, the Escape button: `exitInsertMode`, even once completed
      (where it does nothing, the level being in Normal mode). */
  function EscapeStep(s: State, p: PageState): (r: (State, PageState))
    ensures Reachable(s) && s.completed ==> r == (s, p)
    ensures s.mode == Normal ==> r == (s, p)
    ensures s.mode == Insert ==>
              r.0 == State(s.buffer, Normal, s.completed || s.buffer == TargetText)
              && r.1.log == (if s.buffer == TargetText then [InsertDone] else []) + [BackToNormal] + p.log
    ensures r.1.commandLineOpen == p.commandLineOpen
    ensures Reachable(s) ==> Reachable(r.0)
  {
    ExitInsertStep(s, p)
  }

  /** The level after a run of key presses. */
  function Keys(s: State, p: PageState, keys: seq<KeyEvent>): (State, PageState)
  {
    RunKeys(KeyStep, s, p, keys)
  }

  /** One key press per character of `text`, no modifiers held. */
  function Typing(text: string): (r: seq<KeyEvent>)
    ensures |r| == |text|
  {
    if text == [] then [] else [KeyEvent([text[0]], false, false, false)] + Typing(text[1..])
  }

  /** The i-th key press of `Typing(text)` is the i-th character of `text`. */
  lemma {:induction false} TypingSpells(text: string)
    ensures forall i :: 0 <= i < |text| ==> Typing(text)[i] == KeyEvent([text[i]], false, false, false)
    decreases |text|
  {
    if text != [] {
      TypingSpells(text[1..]);
      assert Typing(text) == [KeyEvent([text[0]], false, false, false)] + Typing(text[1..]);
    }
  }

  /** In Insert mode, typing a text key by key appends it to the buffer and
      stays in Insert mode; the level does not complete, whatever the buffer
      comes to hold. (A character outside the Basic Multilingual Plane is a
      key two code units long, which the level does not type.) */
  lemma {:induction false} TypingAppends(s: State, p: PageState, text: string)
    requires s.mode == Insert && !s.completed && AllInBmp(text)
    ensures Keys(s, p, Typing(text)) == (s.(buffer := s.buffer + text), p)
    decreases |text|
  {
    if text == [] {
      assert s.buffer + text == s.buffer;
    } else {
      var k := KeyEvent([text[0]], false, false, false);
      assert Typing(text) == [k] + Typing(text[1..]);
      assert Typing(text)[0] == k && Typing(text)[1..] == Typing(text[1..]);
      assert InBmp(text[0]) && AllInBmp(text[1..]);
      var r1 := KeyStep(s, p, k);
      assert r1 == (s.(buffer := s.buffer + [text[0]]), p);
      TypingAppends(r1.0, r1.1, text[1..]);
      assert s.buffer + [text[0]] + text[1..] == s.buffer + text;
    }
  }

  /** Backspace in Insert mode takes back the character just typed. */
  lemma BackspaceUndoesTyping(s: State, p: PageState, e: KeyEvent)
    requires s.mode == Insert && !s.completed && Printable(e)
    ensures var r1 := KeyStep(s, p, e);
            KeyStep(r1.0, r1.1, KeyEvent("Backspace", e.ctrl, e.meta, e.fromInput)) == (s, p)
  {
    DropLastUndoesAppend(s.buffer, e.key[0]);
    assert s.buffer + e.key == s.buffer + [e.key[0]];
  }

  /** From Normal mode: `i`, a text typed key by key, then Escape leave the
      text appended and complete the level exactly when the buffer then holds
      the target text; before the Escape the level is never completed. */
  lemma {:induction false} EnterTypeEscape(s: State, p: PageState, text: string)
    requires s.mode == Normal && !s.completed && AllInBmp(text)
    ensures var typed := Keys(s, p, [KeyEvent("i", false, false, false)] + Typing(text));
            typed.0 == State(s.buffer + text, Insert, false)
            && Keys(typed.0, typed.1, [KeyEvent("Escape", false, false, false)]).0
               == State(s.buffer + text, Normal, s.buffer + text == TargetText)
  {
    var i := KeyEvent("i", false, false, false);
    var r1 := KeyStep(s, p, i);
    RunKeysAppend(KeyStep, s, p, [i], Typing(text));
    TypingAppends(r1.0, r1.1, text);
  }

  /** From the start: `i`, the missing sentence key by key, then Escape
      complete the level with the target text. */
  lemma TypeTheSentence(p: PageState)
    ensures var s := SetupStep(p);
            var typed := Keys(s.0, s.1, [KeyEvent("i", false, false, false)] + Typing(Suffix));
            typed.0 == State(TargetText, Insert, false)
            && Keys(typed.0, typed.1, [KeyEvent("Escape", false, false, false)]).0 == State(TargetText, Normal, true)
  {
    var s := SetupStep(p);
    SuffixInBmp();
    EnterTypeEscape(s.0, s.1, Suffix);
    TargetExtendsStart();
  }

  /** The level object: the closure state of `createInsertLevel`. */
  class InsertLevel {
    var buffer: string
    var mode: Mode
    var completed: bool
    const dom: Dom

    function Snapshot(): State
      reads this
    {
      State(buffer, mode, completed)
    }

    constructor (dom: Dom)
      ensures this.dom == dom && Snapshot() == Initial
    {
      buffer := StartText;
      mode := Normal;
      completed := false;
      this.dom := dom;
    }

    method Setup()
      modifies this, dom
      ensures (Snapshot(), dom.Snapshot()) == SetupStep(old(dom.Snapshot()))
    {
      buffer := StartText;
      mode := Normal;
      completed := false;
      dom.SetCommandLineOpen(false);
      dom.AddLog(InsertHint);
    }

    method Finish()
      modifies this, dom
      ensures (Snapshot(), dom.Snapshot()) == FinishStep(old(Snapshot()), old(dom.Snapshot()))
    {
      completed := true;
      dom.AddLog(InsertDone);
    }

    method ExitInsertMode()
      modifies this, dom
      ensures (Snapshot(), dom.Snapshot()) == ExitInsertStep(old(Snapshot()), old(dom.Snapshot()))
    {
      if mode == Insert {
        mode := Normal;
        dom.AddLog(BackToNormal);
        if buffer == TargetText {
          Finish();
        }
      }
    }

    method HandleKey(e: KeyEvent)
      modifies this, dom
      ensures (Snapshot(), dom.Snapshot()) == KeyStep(old(Snapshot()), old(dom.Snapshot()), e)
    {
      if completed {
        return;
      }
      var key := e.key;
      if mode == Normal {
        if key == "i" {
          mode := Insert;
          dom.AddLog(EnteredInsert);
        }
        return;
      }
      if mode == Insert {
        if key == "Escape" {
          ExitInsertMode();
          return;
        }
        if OneCodeUnit(key) && !e.meta && !e.ctrl {
          buffer := buffer + key;
        }
        if key == "Backspace" {
          buffer := DropLast(buffer);
        }
      }
    }

    method OnEscape()
      modifies this, dom
      ensures (Snapshot(), dom.Snapshot()) == EscapeStep(old(Snapshot()), old(dom.Snapshot()))
    {
      ExitInsertMode();
    }
  }
}
