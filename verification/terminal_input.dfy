/** The terminal's input line (src/components/terminal/TerminalInput.tsx): what one key
    press does. Enter submits a non-blank line when nothing is running; on the terminal
    tab ArrowUp and ArrowDown walk the command history, where `historyIndex` counts
    back from the most recent command (0) and -1 stands for "not browsing".

    The functions here say which setters a key press calls; the `Terminal` class applies
    them to its state. */
module TerminalInput {
  import opened Strings
  import TerminalCommands

  datatype Key = Enter | ArrowUp | ArrowDown | OtherKey

  /** The setters one `handleKeyDown` call makes. `MoveThenThrow` is a history read
      outside the array: `setHistoryIndex` has run, then reading `.text` of
      `undefined` throws and `setInput` never runs. */
  datatype KeyEffect =
    | NoEffect
    | Submit(text: string)
    | Move(index: int, input: string)
    | MoveThenThrow(index: int)

  /** Sets `historyIndex` to `index` and the input to `history[len - 1 - index].text`. */
  function MoveTo(index: int, history: seq<string>): KeyEffect {
    var position := |history| - 1 - index;
    if 0 <= position < |history| then Move(index, history[position])
    else MoveThenThrow(index)
  }

  /** `handleKeyDown` for a key press, given the props it reads. */
  function KeyDown(key: Key, input: string, isExecuting: bool, isTyping: bool,
                   activeTab: TerminalCommands.Tab, index: int, history: seq<string>): (e: KeyEffect)
    ensures e.Submit? <==> key == Enter && !isExecuting && !isTyping && Trim(input) != ""
    ensures e.Submit? ==> e.text == input
    ensures activeTab == TerminalCommands.ChatTab ==> e.NoEffect? || e.Submit?
  {
    if key == Enter && !isExecuting && !isTyping && Trim(input) != "" then Submit(input)
    else if activeTab == TerminalCommands.TerminalTab then
      match key
      case ArrowUp =>
        if index < |history| - 1 then MoveTo(index + 1, history) else NoEffect
      case ArrowDown =>
        if index > 0 then MoveTo(index - 1, history)
        else if index == 0 then Move(-1, "")
        else NoEffect
      case _ => NoEffect
    else NoEffect
  }

  /** From an index in `[-1, len-1]` every history read is inside the array, and the
      index stays in that range. */
  lemma KeyDownStaysInRange(key: Key, input: string, isExecuting: bool, isTyping: bool,
                            tab: TerminalCommands.Tab, index: int, history: seq<string>)
    requires -1 <= index < |history|
    ensures var e := KeyDown(key, input, isExecuting, isTyping, tab, index, history);
            !e.MoveThenThrow? && (e.Move? ==> -1 <= e.index < |history|)
  {
    if key == Enter && !isExecuting && !isTyping && Trim(input) != "" {
    } else if tab == TerminalCommands.TerminalTab && key == ArrowUp && index < |history| - 1 {
      assert KeyDown(key, input, isExecuting, isTyping, tab, index, history) == MoveTo(index + 1, history);
    } else if tab == TerminalCommands.TerminalTab && key == ArrowDown && index > 0 {
      assert KeyDown(key, input, isExecuting, isTyping, tab, index, history) == MoveTo(index - 1, history);
    }
  }

  /** A move to index k >= 0 shows the k-th most recent command; a move to -1 empties
      the input line. */
  lemma MoveShowsRecentCommand(key: Key, input: string, isExecuting: bool, isTyping: bool,
                               tab: TerminalCommands.Tab, index: int, history: seq<string>)
    requires -1 <= index < |history|
    ensures var e := KeyDown(key, input, isExecuting, isTyping, tab, index, history);
            e.Move? ==> (e.index == -1 && e.input == "") ||
                        (0 <= e.index && e.input == history[|history| - 1 - e.index])
  {
    if key == Enter && !isExecuting && !isTyping && Trim(input) != "" {
    } else if tab == TerminalCommands.TerminalTab && key == ArrowUp && index < |history| - 1 {
      assert KeyDown(key, input, isExecuting, isTyping, tab, index, history) == MoveTo(index + 1, history);
    } else if tab == TerminalCommands.TerminalTab && key == ArrowDown && index > 0 {
      assert KeyDown(key, input, isExecuting, isTyping, tab, index, history) == MoveTo(index - 1, history);
    }
  }

  /** ArrowUp from "not browsing" recalls the most recent command. */
  lemma ArrowUpRecallsLatest(input: string, history: seq<string>)
    requires history != []
    ensures KeyDown(ArrowUp, input, false, false, TerminalCommands.TerminalTab, -1, history) ==
            Move(0, history[|history| - 1])
  {
  }

  /** ArrowUp at the oldest command, and ArrowDown when not browsing, change nothing. */
  lemma ArrowKeysAtTheEnds(input: string, history: seq<string>, busy: bool, typing: bool)
    ensures KeyDown(ArrowUp, input, busy, typing, TerminalCommands.TerminalTab,
                    |history| - 1, history) == NoEffect
    ensures KeyDown(ArrowDown, input, busy, typing, TerminalCommands.TerminalTab,
                    -1, history) == NoEffect
  {
  }

  /** ArrowDown undoes ArrowUp: after moving up to index k + 1, moving down returns to
      index k and its text (to -1 and an empty line when k is -1: the line typed before
      browsing is not restored). */
  lemma DownUndoesUp(input: string, input2: string, history: seq<string>, index: int)
    requires -1 <= index < |history| - 1
    ensures var up := KeyDown(ArrowUp, input, false, false, TerminalCommands.TerminalTab, index, history);
            up.Move? && up.index == index + 1 &&
            KeyDown(ArrowDown, input2, false, false, TerminalCommands.TerminalTab, up.index, history) ==
              (if index == -1 then Move(-1, "") else Move(index, history[|history| - 1 - index]))
  {
  }

  /** The model of the code as written lets a stale index survive a close (the history
      is emptied but `historyIndex` kept); from index 1 with no history, ArrowDown reads
      `history[-1]` and throws after setting the index to 0. */
  lemma StaleIndexThrows()
    ensures KeyDown(ArrowDown, "", false, false, TerminalCommands.TerminalTab, 1, []) == MoveThenThrow(0)
  {
  }
}
