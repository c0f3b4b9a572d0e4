# vim-quest level machine, in Dafny

vim-quest is a browser tutorial that teaches modal editing through three
levels played one after the other:

1. **Dungeon movement** (`Movement`): a player on a 7 × 5 grid, from (0,4)
   to the exit at (6,0), moved with `h`/`j`/`k`/`l`. Each axis is clamped
   to the grid, and the level completes on the move that lands on the exit.
2. **Insert mode** (`InsertMode`): a Normal/Insert mode machine over a text
   buffer. `i` enters Insert mode. Printable keys append and Backspace drops
   the last character. Escape returns to Normal mode and completes the level
   if the buffer then holds the target sentence.
3. **Save and quit** (`CommandLine`): `:` opens a command-line overlay and
   `u` restores the start text. A submitted command is trimmed: `wq` or `x`
   completes the level, while `w` and anything else only log. Every
   submission closes the command line.

The controller (`Controller`) keeps the current level index over the fixed
array of three levels. Next and previous wrap around; complete stops at the
last level. Every navigation re-runs the target level's `setup()`. Keys go
to the current level unless they were typed into an input box. Escape
closes an open command line before any level-specific handling. Progress
is the number of completed levels.

Each level is modelled twice, and the two are proved to agree:

- **As values.** A `State` datatype and step functions (`SetupStep`,
  `KeyStep`, `SubmitStep`, `EscapeStep`) from a state and the shared page
  state to the new pair. The properties are proved on these functions: as
  their `ensures`, and as lemmas over runs of keys.
- **As an object.** A class (`MovementLevel`, `InsertLevel`,
  `CommandLevel`) with the mutable fields of the source's closure
  (`player`, `buffer`, `mode`, `completed`). Each method's `ensures` says
  that the new fields and page equal the step function applied to the old
  ones.

The page elements that every level writes to are the command-line
overlay's visibility and the log feed. They are one shared `Page.Dom`
object, and the log is prepended to, newest first. The controller's `World`
value has an invariant, `Controller.Inv`, and every action keeps it:

- the index is in range;
- the player is on the grid;
- the insert buffer holds only characters of the Basic Multilingual Plane;
- a completed level is in its finished state;
- an open command line belongs to the command level while it is not yet
  completed.

The class `Controller.Game` keeps `Inv` as part of its `Valid()`.

Two behaviours of the code worth knowing:

- Once the command level is completed, `:` no longer opens the command line
  and `u` no longer resets the buffer. Its `handleKey` returns at once when
  `completed` is set (script.js:256).
- The command level's Escape handler does nothing in practice. The
  controller closes an open command line before it would be called.

## Model

| member | source | states |
|---|---|---|
| `Page.Dom.AddLog` | script.js:23-27 | a message is prepended to the log feed; the command line's visibility is unchanged |
| `Page.RunKeysAppend` | script.js:49-56 | for any level's key handler, running two key sequences one after the other is running their concatenation |
| `Text.TrimSplits` | script.js:278 | the trimmed command is a slice of the input with only whitespace cut from either end, and it neither starts nor ends with whitespace |
| `Text.TrimIdempotent` | script.js:278 | trimming an already trimmed command changes nothing |
| `Text.TrimKeeps` | script.js:278 | a text with no whitespace at either end trims to itself |
| `Text.TrimPadded` | script.js:278 | a word surrounded by whitespace trims to the word |
| `Movement.Clamp` | script.js:121-122 | the clamped coordinate lies in the grid's range and equals the unclamped one when that is already in range |
| `Movement.Delta` | script.js:114-119 | h, l, k, j ask for a unit step left, right, up, down; every other key asks for none |
| `Movement.KeyStep` | script.js:111-127 | once completed, every key is ignored; any key other than h/j/k/l changes nothing; a move key leaves the player on the grid, logs the new cell, and completes the level exactly when that cell is the exit; the command line is untouched; reachable states stay reachable |
| `Movement.MoveIsOneCellOrBlocked` | script.js:114-122 | a move key moves the player exactly one cell in its direction, or not at all if that cell is off the grid |
| `Movement.KeysStayReachable` | script.js:104-127 | after any sequence of keys the player is on the grid, and a completed level ignores every further key |
| `Movement.WalkRight` | script.js:115-122 | n presses of `l` off the exit row move the player n cells right, stopping at the edge, without completing |
| `Movement.WalkUp` | script.js:117-125 | n presses of `k` in the exit column move the player up, and the level completes exactly when the top row is reached |
| `Movement.WalkToExit` | script.js:111-127 | from the start cell, six or more `l` and then four or more `k` end on the exit with the level completed |
| `Movement.StartToExit` | script.js:64-67 | from the start cell, six `l` and three `k` leave the player at (6,1) and not completed; the fourth `k` lands on the exit and completes the level |
| `Movement.MovementLevel.constructor` | script.js:63-69 | the level starts with the player on (0,4) and not completed |
| `Movement.MovementLevel.Setup` | script.js:104-110 | the player returns to the start, completion is cleared, and a hint is logged |
| `Movement.MovementLevel.Finish` | script.js:92-97 | the success is logged and the level is marked completed |
| `Movement.MovementLevel.HandleKey` | script.js:111-127 | the new player, completion flag and page equal `Movement.KeyStep` of the old ones |
| `InsertMode.DropLast` | script.js:200 | the empty buffer stays empty; otherwise the result is the buffer without its last character |
| `InsertMode.DropLastUndoesAppend` | script.js:196-200 | dropping the last character undoes appending one |
| `InsertMode.ExitInsertStep` | script.js:146-153 | from Insert mode: back to Normal with the buffer unchanged, and completed exactly when the buffer holds the target text; from Normal mode: nothing changes |
| `InsertMode.Edit` | script.js:195-203 | in Insert mode a printable key (a key name one UTF-16 code unit long, without Ctrl or Meta) is appended, Backspace drops the last character, and any other key leaves the buffer as it is |
| `InsertMode.KeyStep` | script.js:177-205 | once completed, every key is ignored; in Normal mode only `i` changes anything (entering Insert) and the buffer is never touched; in Insert mode every key but Escape edits the buffer, and Escape returns to Normal mode with the buffer kept, logging the return (and the success when the target is there); the buffer changes only in Insert mode and keeps to the Basic Multilingual Plane; the level completes if and only if Escape arrives in Insert mode with the target text in the buffer |
| `InsertMode.EscapeStep` | script.js:209-211 | from Insert mode, the Escape action returns to Normal mode with the buffer kept, logs the return, and completes the level exactly when the buffer holds the target text; in Normal mode it changes nothing; the command line is untouched |
| `InsertMode.InitialReachable` | script.js:135-139 | the level is created in a reachable state, its start text in the Basic Multilingual Plane |
| `InsertMode.TypingSpells` | script.js:195-198 | the key presses that type a text are its characters, one by one, in order |
| `InsertMode.TypingAppends` | script.js:195-198 | in Insert mode, typing a text of one-code-unit characters key by key appends it to the buffer and does not complete the level, whatever the buffer comes to hold |
| `InsertMode.BackspaceUndoesTyping` | script.js:195-203 | in Insert mode, Backspace right after a printable key restores the previous state |
| `InsertMode.EnterTypeEscape` | script.js:146-152 | from Normal mode, `i`, a text and Escape append the text and complete the level exactly when the buffer then holds the target |
| `InsertMode.TypeTheSentence` | script.js:135-136 | from setup, `i`, " Vim is powerful!" typed key by key, and Escape complete the level; before the Escape, the buffer holds the target but the level is not completed |
| `InsertMode.InsertLevel.constructor` | script.js:134-139 | the level starts with the start text, in Normal mode, not completed |
| `InsertMode.InsertLevel.Setup` | script.js:167-176 | start text, Normal mode, not completed, command line hidden, hint logged |
| `InsertMode.InsertLevel.Finish` | script.js:155-160 | the level is marked completed and the success logged |
| `InsertMode.InsertLevel.ExitInsertMode` | script.js:146-153 | the new fields and page equal `InsertMode.ExitInsertStep` of the old ones |
| `InsertMode.InsertLevel.HandleKey` | script.js:177-205 | the new fields and page equal `InsertMode.KeyStep` of the old ones |
| `InsertMode.InsertLevel.OnEscape` | script.js:209-211 | the new fields and page equal `InsertMode.EscapeStep` of the old ones |
| `CommandLine.KeyStep` | script.js:255-273 | once completed, or for a key from an input box, nothing (the source tests only its own box, but the controller has already dropped keys from every input box); `:` opens the command line with a prompt; `u` restores the start text; other keys do nothing; no key completes the level or closes the command line |
| `CommandLine.SubmitStep` | script.js:277-287 | the command line is always closed afterwards; the level completes if and only if the trimmed text is `wq` or `x`; `w` logs saved-not-quit, anything else logs it as invalid; nothing else in the level changes |
| `CommandLine.PaddedQuitCompletes` | script.js:278-280 | `wq` or `x` surrounded by whitespace still completes the level |
| `CommandLine.EscapeStep` | script.js:288-293 | an open command line is closed with a log message; a closed one changes nothing; the level itself never changes |
| `CommandLine.ColonOpens` | script.js:260-265 | right after setup, `:` shows the command line and logs a prompt, leaving the level unchanged |
| `CommandLine.SubmitWord` | script.js:277-287 | a command with no whitespace at either end is read as it stands: it completes the level exactly when it is `wq` or `x`, the line is closed and the matching message logged |
| `CommandLine.SubmitWq` | script.js:278-280 | submitting `wq` completes the level, closes the command line and logs the success |
| `CommandLine.CommandLevel.constructor` | script.js:215-219 | the level starts with its start text, in Normal mode, not completed |
| `CommandLine.CommandLevel.Setup` | script.js:245-254 | start text, Normal mode, not completed, command line hidden, hint logged |
| `CommandLine.CommandLevel.OpenCommandLine` | script.js:221-226 | the command line is shown and a prompt logged |
| `CommandLine.CommandLevel.CloseCommandLine` | script.js:228-231 | the command line is hidden, nothing else changes |
| `CommandLine.CommandLevel.Finish` | script.js:233-238 | the level is marked completed and the success logged |
| `CommandLine.CommandLevel.HandleKey` | script.js:255-273 | the new fields and page equal `CommandLine.KeyStep` of the old ones |
| `CommandLine.CommandLevel.OnCommandSubmit` | script.js:277-287 | the new fields and page equal `CommandLine.SubmitStep` of the old ones |
| `CommandLine.CommandLevel.OnEscape` | script.js:288-293 | the new fields and page equal `CommandLine.EscapeStep` of the old ones |
| `Progress.CountCompleted` | script.js:30 | the count of completed levels is at most the number of levels, zero exactly when none is completed, and all of them exactly when every level is completed |
| `Progress.CountIsMultiplicity` | script.js:30 | the count equals the number of occurrences of `true` among the completion flags |
| `Progress.CountAfterSet` | script.js:30 | changing one level's flag moves the count by exactly the change in that flag |
| `Progress.ProgressOf` | script.js:29-33 | the progress label is the number of completed levels over the number of levels |
| `Controller.ProgressOf` | script.js:29-33 | progress is the number of completed levels out of 3 |
| `Controller.NextIndex` | script.js:320-323 | next moves one level on and wraps from the last level to the first |
| `Controller.PrevIndex` | script.js:325-328 | previous moves one level back and wraps from the first level to the last |
| `Controller.CompleteIndex` | script.js:334-337 | complete moves one level on and stays at the last level |
| `Controller.NextPrevInverse` | script.js:320-328 | next and previous undo each other |
| `Controller.Render` | script.js:35-47 | the index is kept; the command line is hidden; the level-started message and the level's hint are logged; the current level is back at its start state; the other levels are untouched; progress drops by one exactly when the current level had been completed; the invariant is kept |
| `Controller.KeyDown` | script.js:49-56 | a key from an input box changes nothing; any other key goes to the current level's `KeyStep` with the page, changes only the current level and the page, never uncompletes a level, and keeps the invariant |
| `Controller.Escape` | script.js:297-309 | an open command line is closed and logged without calling the level's onEscape; otherwise the insert and command levels get their own `EscapeStep` with the page, and the movement level, which has no onEscape, is left alone; afterwards the command line is closed; no level is uncompleted |
| `Controller.Submit` | script.js:339-346 | only the command level receives a submission, through its own `SubmitStep` with the page: the command line closes, the level completes if and only if it was completed or the trimmed text is `wq`/`x`, and the matching message is logged |
| `Controller.Apply` | script.js:320-337 | a key, Escape or submission is exactly `KeyDown`, `Escape` or `Submit`; each navigation moves the index as next/prev/complete/reset prescribe and is exactly `Render` at the new index, so only the level landed on is reset, the command line closes and the start is logged; the index stays in range; every action keeps the invariant |
| `Controller.Boot` | script.js:311-314 | start-up creates the three levels fresh and renders the first: index 0, every level in its created state, the command line hidden, the first level's start and hint logged, progress 0 / 3, and the invariant |
| `Controller.RunKeepsInv` | script.js:297-337 | every sequence of actions keeps the invariant |
| `Controller.ReachableFromBoot` | script.js:311-314 | after start-up and any sequence of actions: the index is in range, the player is on the grid, each completed level is in its finished state, and an open command line belongs to the uncompleted command level |
| `Controller.RunKeysOnGrid` | script.js:49-56 | on the movement level, a run of key presses outside input boxes moves the world exactly as the level's own run of keys, leaving the other levels alone |
| `Controller.FirstLevelByKeys` | script.js:49-56 | from start-up, six or more presses of `l` and then four or more of `k` complete the first level and progress reads 1 / 3 |
| `Controller.FirstLevelFrom` | script.js:49-56 | on the movement level at its start with no level completed, the same presses complete it with progress 1 / 3 |
| `Controller.GridRunCompletes` | script.js:49-56 | a run of keys outside input boxes that completes the movement level from its start completes it on the page, with progress 1 / 3 when none was completed before |
| `Controller.OneMoreCompleted` | script.js:29-33 | completing the first level, the others untouched, raises the progress count by exactly one |
| `Controller.WrapAndStop` | script.js:325-337 | previous from the first level wraps to the last, and complete at the last level stays there |
| `Controller.Game.constructor` | script.js:311-314 | the game starts in the world `Controller.Boot` describes |
| `Controller.Game.CurrentProgress` | script.js:29-33 | the progress the objects show is `Controller.ProgressOf` of their world |
| `Controller.Game.RenderLevel` | script.js:35-47 | the new world is `Controller.Render` of the old one |
| `Controller.Game.HandleKeyDown` | script.js:49-56 | the new world is `Controller.KeyDown` of the old one, and the invariant is kept |
| `Controller.Game.HandleEscapeAction` | script.js:297-309 | the new world is `Controller.Escape` of the old one, and the invariant is kept |
| `Controller.Game.SubmitCommand` | script.js:339-346 | the new world is `Controller.Submit` of the old one, and the invariant is kept |
| `Controller.Game.Next` | script.js:320-323 | the new world is the next-button step of the old one |
| `Controller.Game.Prev` | script.js:325-328 | the new world is the previous-button step of the old one |
| `Controller.Game.Reset` | script.js:330-332 | the new world is the reset-button step of the old one |
| `Controller.Game.Complete` | script.js:334-337 | the new world is the complete-button step of the old one |

## Left out

- All rendering is left out: the grid tiles and path decoration, the buffer
  text with its cursor glyph, the mode badge, the title, genre and
  objective. None of it changes the model's state.
- The complete button's visibility is left out. Every `setup()` hides it and
  only `finish()` shows it, so on the page it can be clicked only while the
  current level is completed. `Controller.Apply` over-approximates: it
  allows `CompleteLevel` in every world.
- The command-line box sits inside the overlay, so a command can only be
  submitted while the command line is shown. `Controller.Apply`
  over-approximates: it allows `SubmitCommand` while the line is hidden too.
- Focus and blur of the command-line box, `preventDefault` and
  `scrollIntoView` are left out: they are browser behaviour.
- `commandInput.value` is not modelled: its clearing on open and the typing
  into it. The text typed there is the parameter of a submission.
- The bar's percentage width is left out. It is a floating-point division;
  only the completed count and the total are kept.
- Log messages are tags (`Page.Msg`), not their Japanese wording.
- Event-listener wiring is reduced to the actions of `Controller.Action`. A
  key's origin in an input box is the flag `KeyEvent.fromInput`.
- Strings are sequences of Unicode characters, not UTF-16 code units. A
  printable key is a key name of one character in the Basic Multilingual
  Plane, which is one code unit long (`Page.OneCodeUnit`). The insert
  buffer therefore holds only such characters (`InsertMode.KeyStep`), and
  there dropping the last character is dropping the last code unit.
  Submitted texts may hold any character; trimming and comparing them do
  not depend on code units.
- The page's markup before start-up is not part of this model. The log
  feed starts empty and the command line hidden. Start-up hides it anyway.
