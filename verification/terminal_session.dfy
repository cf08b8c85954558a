/** The floating terminal window (src/components/Terminal.tsx), with the key handling of
    its input line (src/components/terminal/TerminalInput.tsx) and the header buttons
    that set its flags (src/components/terminal/TerminalHeader.tsx).

    The React state hooks are the fields of one `Terminal` object; each handler is a
    method that performs its setter calls in order. The page navigations `open`
    requests are recorded in `navigations`; bot replies scheduled with `setTimeout`
    wait in `pendingReplies` until `CompleteChatReply` delivers one of them.

    The command handlers receive the interpreter as a function `run`, the call
    `executeCommand(line, context)` with the window's context; `Interpreter(clock)` is
    that call on `Execute`, and the lemmas `CommandRunsExecute` and
    `OnlyOpenNavigates` state what the window does with it. */
module TerminalSession {
  import opened Common
  import opened Strings
  import opened TerminalCommands
  import opened ChatResponses
  import TerminalInput

  datatype Point = Point(x: int, y: int)

  /** One line of the terminal history: the command as typed and what it printed. */
  datatype HistoryEntry = HistoryEntry(text: string, output: Option<string>, isError: bool, isSystem: bool)

  /** Every field of a `Terminal`, as one value. */
  datatype TerminalState = TerminalState(
    isOpen: bool, isMaximized: bool, isPoppedOut: bool, activeTab: Tab,
    input: string, history: seq<HistoryEntry>, messages: seq<Message>, historyIndex: int,
    isExecuting: bool, isTyping: bool, position: Point, isDragging: bool, dragOffset: Point,
    navigations: seq<string>, pendingReplies: seq<string>)

  /** The width and height of the popped-out window. */
  const WindowWidth: int := 600
  const WindowHeight: int := 400

  /** `Math.min(Math.max(0, v), hi)`. */
  function Clamp(v: int, hi: int): (r: int)
    ensures hi >= 0 ==> 0 <= r <= hi
    ensures hi >= 0 && 0 <= v <= hi ==> r == v
    ensures hi >= 0 && v < 0 ==> r == 0
    ensures v > hi ==> r == hi
  {
    var lower := if 0 > v then 0 else v;
    if lower < hi then lower else hi
  }

  /** Clamping twice is clamping once. */
  lemma ClampIdempotent(v: int, hi: int)
    requires hi >= 0
    ensures Clamp(Clamp(v, hi), hi) == Clamp(v, hi)
  {
  }

  /** The history line `handleCommand` appends for a command and its result: the error
      when there is a (non-empty) one, otherwise the output. */
  function EntryFor(cmd: string, r: CommandResult): (e: HistoryEntry)
    ensures e.text == cmd && e.isSystem == r.isSystem
    ensures e.isError <==> Truthy(r.error)
    ensures e.isError ==> e.output == r.error
    ensures !e.isError ==> e.output == r.output
  {
    if Truthy(r.error) then HistoryEntry(cmd, r.error, true, r.isSystem)
    else HistoryEntry(cmd, r.output, false, r.isSystem)
  }

  /** The paths of the `navigate` calls among context operations. */
  function NavigatedPaths(calls: seq<ContextCall>): (paths: seq<string>)
    ensures |paths| <= |calls|
    ensures forall p :: p in paths <==> Navigate(p) in calls
    ensures (forall c :: c in calls ==> c.Navigate?) ==>
              |paths| == |calls| && forall i :: 0 <= i < |calls| ==> paths[i] == calls[i].path
  {
    if calls == [] then []
    else (match calls[0] case Navigate(p) => [p] case _ => []) + NavigatedPaths(calls[1..])
  }

  /** The texts of the history entries, as the input line reads them. */
  function Texts(history: seq<HistoryEntry>): (ts: seq<string>)
    ensures |ts| == |history|
    ensures forall i :: 0 <= i < |history| ==> ts[i] == history[i].text
  {
    seq(|history|, i requires 0 <= i < |history| => history[i].text)
  }

  /** `line => executeCommand(line, context)` with the window's context, whose `navigate`
      does not throw, at the clock reading `date` prints. */
  function Interpreter(clock: string): string -> Execution {
    line => Execute(line, Context(None), clock)
  }

  /** The history index is -1 or the position of a history entry counted from the end. */
  predicate IndexInRange(s: TerminalState) {
    -1 <= s.historyIndex < |s.history|
  }

  /** `handleCommand`: a blank line changes nothing; any other line is run by the
      interpreter and appended to the history, as typed, with what it printed, and the
      navigations it performed are recorded after the earlier ones. Nothing else changes. */
  function CommandStep(s: TerminalState, cmd: string, run: string -> Execution): (t: TerminalState)
    ensures Trim(cmd) == "" ==> t == s
    ensures Trim(cmd) != "" ==>
              |t.history| == |s.history| + 1 && t.history[..|s.history|] == s.history &&
              t.history[|s.history|] == EntryFor(cmd, run(cmd).result)
    ensures |s.navigations| <= |t.navigations| <= |s.navigations| + |run(cmd).calls|
    ensures t.navigations[..|s.navigations|] == s.navigations
    ensures t.(history := s.history, navigations := s.navigations) == s
    ensures IndexInRange(s) ==> IndexInRange(t)
  {
    if Trim(cmd) == "" then s
    else
      var e := run(cmd);
      s.(history := s.history + [EntryFor(cmd, e.result)], navigations := s.navigations + NavigatedPaths(e.calls))
  }

  /** An `open` line that names a path performs exactly that navigation; no other line
      navigates. */
  lemma OnlyOpenNavigates(cmd: string, clock: string)
    ensures var calls := Execute(cmd, Context(None), clock).calls;
            NavigatedPaths(calls) != [] ==>
              Parse(cmd).name == "open" && |Parse(cmd).args| >= 1 &&
              NavigatedPaths(calls) == [Parse(cmd).args[0]]
  {
    var calls := Execute(cmd, Context(None), clock).calls;
    if calls != [] {
      assert NavigatedPaths(calls) == [calls[0].path] + NavigatedPaths(calls[1..]);
    }
  }

  /** What a command step appends, for any interpreter. */
  lemma CommandStepAppends(s: TerminalState, cmd: string, run: string -> Execution)
    requires Trim(cmd) != ""
    ensures CommandStep(s, cmd, run).history == s.history + [EntryFor(cmd, run(cmd).result)]
    ensures CommandStep(s, cmd, run).navigations == s.navigations + NavigatedPaths(run(cmd).calls)
  {
  }

  /** With the window's interpreter, a non-blank line is appended with what
      `executeCommand` returns for it, and only an `open` line that names a path
      navigates, exactly to that path. */
  lemma CommandRunsExecute(s: TerminalState, cmd: string, clock: string)
    ensures var t := CommandStep(s, cmd, Interpreter(clock));
            Trim(cmd) != "" ==>
              t.history == s.history + [EntryFor(cmd, Execute(cmd, Context(None), clock).result)]
    ensures var t := CommandStep(s, cmd, Interpreter(clock));
            t.navigations != s.navigations ==>
              Parse(cmd).name == "open" && |Parse(cmd).args| >= 1 &&
              t.navigations == s.navigations + [Parse(cmd).args[0]]
  {
    if Trim(cmd) != "" {
      var e := Execute(cmd, Context(None), clock);
      assert Interpreter(clock)(cmd) == e;
      CommandStepAppends(s, cmd, Interpreter(clock));
      OnlyOpenNavigates(cmd, clock);
    }
  }

  /** `handleChat`: a blank text changes nothing; otherwise the user's message is
      appended, the typing indicator turns on and a bot reply to the text is scheduled.
      Nothing else changes. */
  function ChatStep(s: TerminalState, text: string): (t: TerminalState)
    ensures Trim(text) == "" ==> t == s
    ensures Trim(text) != "" ==>
              |t.messages| == |s.messages| + 1 && t.messages[..|s.messages|] == s.messages &&
              t.messages[|s.messages|] == Message(text, UserSender) && t.isTyping &&
              t.pendingReplies == s.pendingReplies + [text]
    ensures t.(messages := s.messages, isTyping := s.isTyping, pendingReplies := s.pendingReplies) == s
  {
    if Trim(text) == "" then s
    else s.(messages := s.messages + [Message(text, UserSender)], isTyping := true,
            pendingReplies := s.pendingReplies + [text])
  }

  /** `handleSubmit`: a blank text changes nothing; otherwise the terminal tab runs it as
      a command and the chat tab sends it as a message, and then the input line is
      emptied and history browsing ends. */
  function SubmitStep(s: TerminalState, text: string, run: string -> Execution): (t: TerminalState)
    ensures Trim(text) == "" ==> t == s
    ensures Trim(text) != "" ==> t.input == "" && t.historyIndex == -1 && IndexInRange(t)
    ensures Trim(text) != "" && s.activeTab == TerminalTab ==>
              |t.history| == |s.history| + 1 && t.messages == s.messages && t.pendingReplies == s.pendingReplies
    ensures Trim(text) != "" && s.activeTab == ChatTab ==>
              t.history == s.history && t.navigations == s.navigations && |t.messages| == |s.messages| + 1
    ensures IndexInRange(s) ==> IndexInRange(t)
  {
    if Trim(text) == "" then s
    else
      var after := if s.activeTab == TerminalTab then CommandStep(s, text, run) else ChatStep(s, text);
      after.(input := "", historyIndex := -1)
  }

  /** `handleKeyDown` applied to the window's state: a submitted line goes through
      `handleSubmit`, a history move sets the index and the input line, and a read
      outside the history sets the index and then throws. */
  function KeyDownStep(s: TerminalState, key: TerminalInput.Key, run: string -> Execution): (t: TerminalState)
    ensures IndexInRange(s) ==> IndexInRange(t)
    ensures s.activeTab == ChatTab && key != TerminalInput.Enter ==> t == s
    ensures t.history != s.history ==> key == TerminalInput.Enter && s.activeTab == TerminalTab
  {
    var effect := TerminalInput.KeyDown(key, s.input, s.isExecuting, s.isTyping, s.activeTab,
                                        s.historyIndex, Texts(s.history));
    assert IndexInRange(s) ==> !effect.MoveThenThrow? && (effect.Move? ==> -1 <= effect.index < |s.history|) by {
      if IndexInRange(s) {
        TerminalInput.KeyDownStaysInRange(key, s.input, s.isExecuting, s.isTyping, s.activeTab,
                                           s.historyIndex, Texts(s.history));
      }
    }
    match effect
    case NoEffect => s
    case Move(i, line) => s.(historyIndex := i, input := line)
    case MoveThenThrow(i) => s.(historyIndex := i)
    case Submit(line) => SubmitStep(s, line, run)
  }

  /** `handleClose` as written: the window closes and the input, the history and the
      messages are emptied, but `historyIndex` keeps its value. */
  function CloseAsWrittenStep(s: TerminalState): (t: TerminalState)
    ensures !t.isOpen && !t.isPoppedOut && !t.isMaximized
    ensures t.input == "" && t.history == [] && t.messages == []
    ensures t.historyIndex == s.historyIndex
  {
    s.(isOpen := false, isPoppedOut := false, isMaximized := false, input := "", history := [], messages := [])
  }

  /** Closing as written while browsing the history leaves an index into the emptied
      history: from index 1, the next ArrowDown reads `history[-1]` and throws. */
  lemma {:induction false} CloseAsWrittenBreaksIndex(s: TerminalState)
    requires IndexInRange(s) && s.historyIndex == 1
    ensures !IndexInRange(CloseAsWrittenStep(s))
    ensures var t := CloseAsWrittenStep(s).(isOpen := true);
            t.activeTab == TerminalTab ==>
              TerminalInput.KeyDown(TerminalInput.ArrowDown, t.input, t.isExecuting, t.isTyping,
                                    t.activeTab, t.historyIndex, Texts(t.history)) ==
              TerminalInput.MoveThenThrow(0)
  {
    var t := CloseAsWrittenStep(s).(isOpen := true);
    assert Texts(t.history) == [];
    TerminalInput.StaleIndexThrows();
  }

  /** `handleClose` with the history index reset together with the history it indexes;
      the rest as written. */
  function CloseStep(s: TerminalState): (t: TerminalState)
    ensures !t.isOpen && !t.isPoppedOut && !t.isMaximized
    ensures t.input == "" && t.history == [] && t.messages == []
    ensures IndexInRange(t)
    ensures t == CloseAsWrittenStep(s).(historyIndex := -1)
  {
    s.(isOpen := false, isPoppedOut := false, isMaximized := false, input := "", history := [],
       messages := [], historyIndex := -1)
  }

  class Terminal {
    var isOpen: bool
    var isMaximized: bool
    var isPoppedOut: bool
    var activeTab: Tab
    var input: string
    var history: seq<HistoryEntry>
    var messages: seq<Message>
    var historyIndex: int
    var isExecuting: bool
    var isTyping: bool
    var position: Point
    var isDragging: bool
    var dragOffset: Point
    var navigations: seq<string>
    var pendingReplies: seq<string>

    /** The history index stays in `[-1, len-1]`, so the input line never reads outside
        the history. */
    ghost predicate Valid()
      reads this
    {
      IndexInRange(State())
    }

    function State(): TerminalState
      reads this
    {
      TerminalState(isOpen, isMaximized, isPoppedOut, activeTab, input, history, messages,
                    historyIndex, isExecuting, isTyping, position, isDragging, dragOffset,
                    navigations, pendingReplies)
    }

    /** The initial state: closed, terminal tab, empty, not browsing, placed 600 pixels
        left of the window's right edge and 100 below its top. */
    constructor (innerWidth: int)
      ensures Valid()
      ensures State() == TerminalState(false, false, false, TerminalTab, "", [], [], -1, false, false,
                                       Point(innerWidth - WindowWidth, 100), false, Point(0, 0), [], [])
    {
      isOpen, isMaximized, isPoppedOut, activeTab := false, false, false, TerminalTab;
      input, history, messages, historyIndex := "", [], [], -1;
      isExecuting, isTyping := false, false;
      position, isDragging, dragOffset := Point(innerWidth - WindowWidth, 100), false, Point(0, 0);
      navigations, pendingReplies := [], [];
    }

    // The state setters the handlers call; each changes its own hook and nothing else.

    method SetIsOpen(value: bool)
      modifies this
      ensures State() == old(State()).(isOpen := value)
    {
      isOpen := value;
    }

    /** Also the header's maximize (true) and restore (false) buttons. */
    method SetIsMaximized(value: bool)
      modifies this
      ensures State() == old(State()).(isMaximized := value)
    {
      isMaximized := value;
    }

    method SetIsPoppedOut(value: bool)
      modifies this
      ensures State() == old(State()).(isPoppedOut := value)
    {
      isPoppedOut := value;
    }

    /** Also the header's Terminal and Chat tab buttons. */
    method SetActiveTab(tab: Tab)
      modifies this
      ensures State() == old(State()).(activeTab := tab)
    {
      activeTab := tab;
    }

    /** Also the input line's `onChange`: the typed text replaces the line. */
    method SetInput(value: string)
      modifies this
      ensures State() == old(State()).(input := value)
    {
      input := value;
    }

    method SetHistory(value: seq<HistoryEntry>)
      modifies this
      ensures State() == old(State()).(history := value)
    {
      history := value;
    }

    method SetMessages(value: seq<Message>)
      modifies this
      ensures State() == old(State()).(messages := value)
    {
      messages := value;
    }

    method SetHistoryIndex(value: int)
      modifies this
      ensures State() == old(State()).(historyIndex := value)
    {
      historyIndex := value;
    }

    method SetIsTyping(value: bool)
      modifies this
      ensures State() == old(State()).(isTyping := value)
    {
      isTyping := value;
    }

    /** The round button that opens the window. */
    method Open()
      modifies this
      ensures State() == old(State()).(isOpen := true)
    {
      SetIsOpen(true);
    }

    /** The header's pop-out button toggles the floating mode. */
    method TogglePoppedOut()
      modifies this
      ensures State() == old(State()).(isPoppedOut := !old(isPoppedOut))
    {
      SetIsPoppedOut(!isPoppedOut);
    }

    /** `handleDragStart`: only the main mouse button starts a drag, and only when the
        window is popped out; the offset is the grab point relative to the window. */
    method HandleDragStart(button: int, clientX: int, clientY: int)
      modifies this
      ensures button != 0 || !old(isPoppedOut) ==> State() == old(State())
      ensures button == 0 && old(isPoppedOut) ==>
                State() == old(State()).(isDragging := true,
                                         dragOffset := Point(clientX - old(position).x, clientY - old(position).y))
    {
      if button != 0 || !isPoppedOut {
        return;
      }
      isDragging := true;
      dragOffset := Point(clientX - position.x, clientY - position.y);
    }

    /** `handleDrag`: while dragging a popped-out window, the window follows the pointer
        minus the grab offset, kept inside the viewport. */
    method HandleDrag(clientX: int, clientY: int, innerWidth: int, innerHeight: int)
      modifies this
      ensures !old(isDragging) || !old(isPoppedOut) ==> State() == old(State())
      ensures old(isDragging) && old(isPoppedOut) ==>
                State() == old(State()).(position := Point(
                  Clamp(clientX - old(dragOffset).x, innerWidth - WindowWidth),
                  Clamp(clientY - old(dragOffset).y, innerHeight - WindowHeight)))
      ensures old(isDragging) && old(isPoppedOut) && innerWidth >= WindowWidth && innerHeight >= WindowHeight ==>
                0 <= position.x <= innerWidth - WindowWidth && 0 <= position.y <= innerHeight - WindowHeight
    {
      if !isDragging || !isPoppedOut {
        return;
      }
      var newX := clientX - dragOffset.x;
      var newY := clientY - dragOffset.y;
      position := Point(Clamp(newX, innerWidth - WindowWidth), Clamp(newY, innerHeight - WindowHeight));
    }

    /** `handleDragEnd`. */
    method HandleDragEnd()
      modifies this
      ensures State() == old(State()).(isDragging := false)
    {
      isDragging := false;
    }

    /** A mouse press outside the window closes it unless it is popped out; nothing else
        is reset. */
    method ClickOutside()
      modifies this
      ensures State() == old(State()).(isOpen := old(isOpen) && old(isPoppedOut))
    {
      if !isPoppedOut {
        SetIsOpen(false);
      }
    }

    /** `handleClose` as written. */
    method HandleCloseAsWritten()
      modifies this
      ensures State() == CloseAsWrittenStep(old(State()))
    {
      SetIsOpen(false);
      SetIsPoppedOut(false);
      SetIsMaximized(false);
      SetInput("");
      SetHistory([]);
      SetMessages([]);
    }

    /** `handleClose`, corrected to end history browsing. */
    method HandleClose()
      modifies this
      ensures State() == CloseStep(old(State()))
      ensures Valid()
    {
      HandleCloseAsWritten();
      SetHistoryIndex(-1);
    }

    /** `handleCommand`. */
    method HandleCommand(cmd: string, run: string -> Execution)
      modifies this
      ensures State() == CommandStep(old(State()), cmd, run)
      ensures old(Valid()) ==> Valid()
    {
      if Trim(cmd) == "" {
        return;
      }
      var e := run(cmd);
      navigations := navigations + NavigatedPaths(e.calls);
      SetHistory(history + [EntryFor(cmd, e.result)]);
    }

    /** `handleChat`. */
    method HandleChat(text: string)
      modifies this
      ensures State() == ChatStep(old(State()), text)
      ensures old(Valid()) ==> Valid()
    {
      if Trim(text) == "" {
        return;
      }
      SetMessages(messages + [Message(text, UserSender)]);
      SetIsTyping(true);
      pendingReplies := pendingReplies + [text];
    }

    /** The timer of one scheduled reply fires: the bot's answer to that text is appended
        and the typing indicator turns off. The delays are random, so any pending reply may
        be the next; a close in the meantime does not cancel it. */
    method CompleteChatReply(k: nat)
      modifies this
      requires k < |pendingReplies|
      ensures State() == old(State()).(
                messages := old(messages) + [Message(ReplyText(BestMatch(old(pendingReplies)[k])), BotSender)],
                isTyping := false,
                pendingReplies := old(pendingReplies)[..k] + old(pendingReplies)[k + 1..])
      ensures old(Valid()) ==> Valid()
    {
      var text := pendingReplies[k];
      pendingReplies := pendingReplies[..k] + pendingReplies[k + 1..];
      var reply := GenerateResponse(text);
      SetMessages(messages + [reply]);
      SetIsTyping(false);
    }

    /** `handleSubmit`. */
    method HandleSubmit(text: string, run: string -> Execution)
      modifies this
      ensures State() == SubmitStep(old(State()), text, run)
      ensures old(Valid()) ==> Valid()
    {
      if Trim(text) == "" {
        return;
      }
      if activeTab == TerminalTab {
        HandleCommand(text, run);
      } else {
        HandleChat(text);
      }
      SetInput("");
      SetHistoryIndex(-1);
    }

    /** `handleKeyDown` of the input line. */
    method HandleKeyDown(key: TerminalInput.Key, run: string -> Execution)
      modifies this
      ensures State() == KeyDownStep(old(State()), key, run)
      ensures old(Valid()) ==> Valid()
    {
      ghost var next := KeyDownStep(State(), key, run);
      assert Valid() ==> IndexInRange(next);
      var effect := TerminalInput.KeyDown(key, input, isExecuting, isTyping, activeTab, historyIndex, Texts(history));
      match effect
      case NoEffect =>
      case Move(i, line) =>
        SetHistoryIndex(i);
        SetInput(line);
      case MoveThenThrow(i) =>
        SetHistoryIndex(i);
      case Submit(line) =>
        HandleSubmit(line, run);
    }
  }
}
