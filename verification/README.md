# A verified model of the learning platform's terminal, chat bot and form rules

This project models the parts of the machine-learning learning platform that contain
decisions rather than wiring, and proves what they promise.

- **The in-browser terminal.**
  - `executeCommand` is the command interpreter. It trims a line, splits it on runs of whitespace, lower-cases the command name and looks it up in a fixed table of ten handlers. It runs the handler and turns a thrown error into an error result.
  - The floating window keeps the command history, the chat messages and the input line with its history browsing. It also keeps the flags set by the header buttons and the drag position of the popped-out window.
  - The chat bot picks the first response whose key occurs in the lower-cased input and appends its follow-up suggestions.
- **The server's command endpoint.** It checks that a command is present and that its first space-separated field is on an allowlist, and replies according to how the shell run ended.
- **The learning-path survey and the assessment page.** The survey's recommendation, the assessment's clock display, and its question navigation.
- **The form rules.**
  - The signup schema and `handleSignupError`.
  - The login and register schemas.
  - The reset-password form's check order.
- **The course and project listings.** Filtering by level or difficulty.

## How the model is built

**Modules.** There is one Dafny module per source file, plus two shared modules:

- `Common` holds an optional value for a JavaScript property that may be `undefined`, the value a `throw` carries, a zod issue, and JavaScript truthiness of a string.
- `Strings` holds the JavaScript string operations the code uses:
  - `trim` and `split(/\s+/)`, over ECMAScript's whitespace set;
  - `join`;
  - ASCII `toLowerCase` and `toUpperCase`;
  - `includes`;
  - decimal `toString` and `padStart`.

**Stateful code.** A component that updates state step by step is a class whose fields are its state hooks (`TerminalSession.Terminal`, `MLSurvey.Survey`, `Assessment.AssessmentSession`, `ResetPassword.ResetPasswordForm`). Each handler is a method.

- Where a handler does several things, its new state is specified by a pure step function on a state datatype (for example `CommandStep` or `SubmitStep`). The properties are proved about that function.
- Calls the code makes to things outside the model are recorded in the state, as the list of paths passed to `navigate` or of passwords passed to `updatePassword`. This covers page navigation and the auth service.
- The state setters of a component (`setIsOpen`, `setHistory`, ...) are methods of its class, and a handler calls them in the order the code does.
- The terminal window's handlers take the command interpreter as a function `run`, standing for the call `executeCommand(line, context)` with the window's context. `TerminalSession.Interpreter` is that call on the modelled `executeCommand`, and `CommandRunsExecute` states what the window does with it.

**Parameters.** Whatever the model cannot see is a parameter of the operation that uses it:

- the text of the current date;
- whether `navigate` or `updatePassword` throws;
- whether zod's email pattern accepts an address;
- how the shell run ends.

**Behaviour of the code as written.**

- `clear`, `chat` and `exit` do not work. The `CommandContext` interface (src/utils/terminalCommands.ts:9-14) and `chat`'s "Switching to chat mode..." output (line 80) show that each handler was meant to receive the context. Each is declared with the context as its first parameter, but `executeCommand` calls it with the argument array first (line 106). Destructuring `clearHistory` (or `setActiveTab`, `closeTerminal`) from an array gives `undefined`, and calling it throws a `TypeError`. The interpreter catches that and answers "Error executing command: " followed by the error's message, and no context operation runs. The model fixes that message at V8's wording for the unminified code, "clearHistory is not a function" (`ClearThrows`, `ChatThrows`, `ExitThrows`).
- The "Command not found" message carries the lower-cased token, not the token as typed (`UnknownCommand`, with `ParseWords`).

## Model

| member | source | states |
|---|---|---|
| Strings.TrimIdempotent | src/utils/terminalCommands.ts:93 | Trimming twice is trimming once. |
| Strings.Trim | src/utils/terminalCommands.ts:93 | `trim()` gives a slice of the text with only whitespace cut off on either side, starting and ending with a non-whitespace character; it is empty exactly for a whitespace-only text. |
| Strings.SplitTrimmedGivesWords | src/utils/terminalCommands.ts:93 | Splitting a trimmed, non-blank line on whitespace runs gives non-empty tokens without whitespace. |
| Strings.SplitInterleaveRoundTrip | src/utils/terminalCommands.ts:93 | Words joined by arbitrary whitespace runs split back into exactly those words. |
| Strings.SplitOnSpaceRuns | src/utils/terminalCommands.ts:93 | `split(/\s+/)` gives at least one piece; its promises are proved in `SplitTrimmedGivesWords`, `SplitInterleaveRoundTrip` and `SplitKeepsEveryOtherCharacter`. |
| Strings.SplitKeepsEveryOtherCharacter | src/utils/terminalCommands.ts:93 | Splitting loses only whitespace: the pieces put back together are the non-whitespace characters of the text, in order and case. |
| Strings.SplitJoinRoundTrip | src/utils/terminalCommands.ts:66 | Splitting words joined by single spaces gives the words back. |
| Strings.LowerOfUpper | src/utils/chatResponses.ts:70 | Lower-casing an upper-cased text equals lower-casing the text. |
| Strings.ToLower | src/utils/chatResponses.ts:70 | `toLowerCase()` keeps the length and maps each character by the ASCII case mapping. |
| Strings.LowerOfNoUpper | src/utils/chatResponses.ts:70 | A text without upper-case letters is its own lower-case form. |
| Strings.ContainsAt | src/utils/chatResponses.ts:74 | `includes` holds exactly when the key occurs at some position. |
| Strings.Contains | src/utils/chatResponses.ts:74 | `includes`; what it means is proved in `ContainsAt`. |
| Strings.ContainsInside | src/lib/validation/auth.ts:22 | A text contains any string placed inside it. |
| Strings.Decimal | src/pages/AssessmentPage.tsx:61 | A natural number's text is non-empty and all digits, has one digit exactly below 10, and has no leading zero. |
| Strings.DecimalRoundTrip | src/pages/AssessmentPage.tsx:61 | The decimal text of a natural number reads back as the number. |
| Strings.PadStart | src/pages/AssessmentPage.tsx:61 | `padStart` keeps a text already at the width, and otherwise prefixes fill characters up to the width. |
| TerminalCommands.Lookup | src/utils/terminalCommands.ts:97-103 | A found handler has exactly the looked-up name; not found means no handler has that name. |
| TerminalCommands.LookupName | src/utils/terminalCommands.ts:16-87 | Every one of the ten handlers is found under its own name. |
| TerminalCommands.Parse | src/utils/terminalCommands.ts:93-95 | The arguments are whitespace-free words; a non-blank line gives a non-empty command name without whitespace. |
| TerminalCommands.ParseBlank | src/utils/terminalCommands.ts:93-95 | A blank line parses to the empty command name with no arguments. |
| TerminalCommands.ParseWords | src/utils/terminalCommands.ts:93-95 | Words separated by any whitespace runs, with any padding, parse to the lower-cased first word and the other words unchanged. |
| TerminalCommands.RunHandler | src/utils/terminalCommands.ts:16-87 | At most one context operation runs, and only `open` with a path calls `navigate`, with that path. A returned result never has both an output and an error. |
| TerminalCommands.Dispatch | src/utils/terminalCommands.ts:97-111 | A result never has both output and error. At most one context call is made, and only an `open` line with a path navigates, to its first argument. |
| TerminalCommands.Execute | src/utils/terminalCommands.ts:89-112 | Same guarantees for a raw input line: every context call is a navigation, and only for an `open` line with a path. |
| TerminalCommands.UnknownCommand | src/utils/terminalCommands.ts:99-103 | A name matching no handler gives exactly the "Command not found: <name>. Type 'help' for available commands." error and no context call. |
| TerminalCommands.BlankLineNotFound | src/utils/terminalCommands.ts:93-103 | A blank line reports "Command not found: ." with no context call. |
| TerminalCommands.ClearThrows | src/utils/terminalCommands.ts:32-35 | `clear` answers "Error executing command: clearHistory is not a function" and clears nothing. |
| TerminalCommands.ChatThrows | src/utils/terminalCommands.ts:78-81 | `chat` answers "Error executing command: setActiveTab is not a function" and switches no tab. |
| TerminalCommands.ExitThrows | src/utils/terminalCommands.ts:83-86 | `exit` answers "Error executing command: closeTerminal is not a function" and closes nothing. |
| TerminalCommands.CdCommand | src/utils/terminalCommands.ts:53-58 | `cd` without arguments is the missing-directory error; with one it reports the change to its first argument and changes nothing. |
| TerminalCommands.OpenCommand | src/utils/terminalCommands.ts:70-76 | `open` without arguments is the missing-path error and navigates nowhere. With a path it navigates there and reports it. If `navigate` throws, the result is the caught error's message (or "Unknown error"). |
| TerminalCommands.EchoCommand | src/utils/terminalCommands.ts:65-68 | `echo` outputs its arguments joined by single spaces, as a system line, with no context call. |
| TerminalCommands.EchoCollapsesWhitespace | src/utils/terminalCommands.ts:65-68 | For a whole input line, `echo` prints its words separated by single spaces, whatever whitespace separated them. |
| TerminalCommands.EchoExample | src/utils/terminalCommands.ts:93-95 | "echo a  b   c" prints "a b c". |
| TerminalCommands.FixedOutputCommands | src/utils/terminalCommands.ts:17-51 | `help`, `pwd` and `ls` ignore their arguments, the context and the clock, and print a fixed system output; `pwd` prints "/home/project". |
| ChatResponses.FirstKeyIn | src/utils/chatResponses.ts:73-77 | The index found is the first entry whose key the input contains, or the table's length when none does. |
| ChatResponses.FindBestMatch | src/utils/chatResponses.ts:69-81 | The loop returns the response of the first key (in table order) that the lower-cased input contains, else the default response; the result is always a table response. |
| ChatResponses.BestMatchIsFirstKey | src/utils/chatResponses.ts:73-77 | When key k is contained and no earlier key is, the answer is key k's response. |
| ChatResponses.NoKeyGivesDefault | src/utils/chatResponses.ts:79-80 | When no key is contained, the answer is the default response. |
| ChatResponses.BestMatchIgnoresCase | src/utils/chatResponses.ts:70 | Upper-casing the input does not change the answer. |
| ChatResponses.BestMatchInTable | src/utils/chatResponses.ts:8-67 | Every answer is one of the six table responses. |
| ChatResponses.HelloBeforeHelp | src/utils/chatResponses.ts:19-26 | "hello, help" gets the greeting, because "hello" comes before "help" in the table. |
| ChatResponses.HelpfulMatchesHelp | src/utils/chatResponses.ts:57-66 | "helpful" gets the help response: keys match as substrings, not whole words. |
| ChatResponses.ReplyText | src/utils/chatResponses.ts:85-87 | Without follow-ups the reply is the text. With them it is the text, a blank line, then the follow-ups joined by line breaks. |
| ChatResponses.EveryResponseHasFollowUp | src/utils/chatResponses.ts:8-67 | Every table response has at least three follow-ups, so every reply starts with its text and a blank line. |
| ChatResponses.GenerateResponse | src/utils/chatResponses.ts:83-95 | The reply message is from the bot and carries the formatted reply of the best match, which is the reply of some table response. |
| TerminalInput.KeyDown | src/components/terminal/TerminalInput.tsx:26-52 | Enter submits exactly when nothing runs, the bot is not typing and the line is not blank, and it submits the line as typed. On the chat tab nothing but Enter has an effect. |
| TerminalInput.MoveTo | src/components/terminal/TerminalInput.tsx:38-39 | `setHistoryIndex(i)` then `setInput(history[len - 1 - i].text)`, or a throw after the index is set when that read is outside the history; its promises are proved in `KeyDownStaysInRange` and `MoveShowsRecentCommand`. |
| TerminalInput.KeyDownStaysInRange | src/components/terminal/TerminalInput.tsx:33-51 | From an index in [-1, len-1] the arrows never read outside the history and keep the index in that range. |
| TerminalInput.MoveShowsRecentCommand | src/components/terminal/TerminalInput.tsx:36-50 | A move to index k shows the k-th most recent command; a move to -1 empties the line. |
| TerminalInput.ArrowUpRecallsLatest | src/components/terminal/TerminalInput.tsx:34-40 | ArrowUp when not browsing recalls the most recent command. |
| TerminalInput.ArrowKeysAtTheEnds | src/components/terminal/TerminalInput.tsx:36-50 | ArrowUp at the oldest command and ArrowDown when not browsing do nothing. |
| TerminalInput.DownUndoesUp | src/components/terminal/TerminalInput.tsx:34-50 | ArrowDown after ArrowUp returns to the previous index and its text; the line typed before browsing is not restored. |
| TerminalInput.StaleIndexThrows | src/components/terminal/TerminalInput.tsx:43-46 | With index 1 and an empty history, ArrowDown sets the index to 0 and then reads outside the history. |
| TerminalSession.Clamp | src/components/Terminal.tsx:93-94 | `Math.min(Math.max(0, v), hi)` lies in [0, hi] when hi >= 0, keeps values already inside, and gives hi for values above it. |
| TerminalSession.ClampIdempotent | src/components/Terminal.tsx:93-94 | Clamping twice is clamping once. |
| TerminalSession.EntryFor | src/components/Terminal.tsx:127-132 | The history entry is an error exactly when the result's error is truthy. It then shows the error, otherwise the output, with the typed text and the system flag. |
| TerminalSession.NavigatedPaths | src/components/Terminal.tsx:119 | A path is recorded exactly when a `navigate` to it was called; when every call is a navigation, the paths are the calls' paths in call order. |
| TerminalSession.OnlyOpenNavigates | src/components/Terminal.tsx:118-123 | A command navigates only when it is `open` with a path, and then exactly to that path. |
| TerminalSession.CommandStepAppends | src/components/Terminal.tsx:115-134 | For any interpreter, a non-blank command appends exactly its own entry to the history and its navigations to the recorded ones. |
| TerminalSession.CommandRunsExecute | src/components/Terminal.tsx:115-134 | With the window's interpreter, the appended entry is built from what `executeCommand` returns for the line. Only an `open` line with a path adds a navigation, exactly to that path. |
| TerminalSession.CommandStep | src/components/Terminal.tsx:115-134 | A blank command changes nothing. Otherwise exactly one entry is appended to the history, built from what the interpreter returned for the line. Navigations are only appended to, at most as many as the interpreter performed. Nothing else changes, and the history index stays valid. |
| TerminalSession.ChatStep | src/components/Terminal.tsx:136-154 | A blank text changes nothing. Otherwise the user's message is appended, the typing indicator turns on and one reply is scheduled; nothing else changes. |
| TerminalSession.SubmitStep | src/components/Terminal.tsx:156-166 | A blank text changes nothing. Otherwise the terminal tab adds one history entry and the chat tab one message, and the input is emptied and browsing ends. |
| TerminalSession.KeyDownStep | src/components/terminal/TerminalInput.tsx:26-52 | A key press keeps the history index valid. On the chat tab only Enter has an effect, and only Enter on the terminal tab changes the history. |
| TerminalSession.CloseAsWrittenStep | src/components/Terminal.tsx:104-113 | Closing as written closes the window and empties the input, history and messages, but keeps the history index. |
| TerminalSession.CloseAsWrittenBreaksIndex | src/components/Terminal.tsx:104-113 | Closing as written at index 1 leaves an index into the emptied history; after reopening, ArrowDown reads outside it. |
| TerminalSession.CloseStep | src/components/Terminal.tsx:104-113 | The corrected close is the written close with the index reset to -1, and it leaves the index valid. |
| TerminalSession.Terminal.constructor | src/components/Terminal.tsx:22-34 | The initial state: closed, terminal tab, empty, not browsing, at (innerWidth - 600, 100). |
| TerminalSession.Terminal.SetIsOpen | src/components/Terminal.tsx:22 | The `setIsOpen` setter changes the open flag and nothing else. |
| TerminalSession.Terminal.SetIsMaximized | src/components/terminal/TerminalHeader.tsx:49-53 | The `setIsMaximized` setter, also behind the maximize and restore buttons, changes the maximized flag only. |
| TerminalSession.Terminal.SetIsPoppedOut | src/components/Terminal.tsx:24 | The `setIsPoppedOut` setter changes the popped-out flag only. |
| TerminalSession.Terminal.SetActiveTab | src/components/terminal/TerminalHeader.tsx:59-67 | The `setActiveTab` setter, also behind the tab buttons, changes the active tab only. |
| TerminalSession.Terminal.SetHistory | src/components/Terminal.tsx:27 | The `setHistory` setter replaces the history only. |
| TerminalSession.Terminal.SetMessages | src/components/Terminal.tsx:28 | The `setMessages` setter replaces the messages only. |
| TerminalSession.Terminal.SetHistoryIndex | src/components/Terminal.tsx:29 | The `setHistoryIndex` setter changes the history index only. |
| TerminalSession.Terminal.SetIsTyping | src/components/Terminal.tsx:31 | The `setIsTyping` setter changes the typing indicator only. |
| TerminalSession.Terminal.Open | src/components/Terminal.tsx:243-247 | The round button opens the window and changes nothing else. |
| TerminalSession.Terminal.TogglePoppedOut | src/components/terminal/TerminalHeader.tsx:105 | The pop-out button flips the popped-out flag only. |
| TerminalSession.Terminal.HandleDragStart | src/components/Terminal.tsx:73-82 | Only the main button on a popped-out window starts a drag, recording the grab offset. |
| TerminalSession.Terminal.HandleDrag | src/components/Terminal.tsx:84-96 | While dragging a popped-out window it follows the pointer minus the offset, clamped to the viewport; otherwise nothing changes. |
| TerminalSession.Terminal.HandleDragEnd | src/components/Terminal.tsx:98-102 | Ending a drag clears the dragging flag only. |
| TerminalSession.Terminal.ClickOutside | src/components/Terminal.tsx:60-71 | A press outside closes the window unless it is popped out, and changes nothing else. |
| TerminalSession.Terminal.SetInput | src/components/terminal/TerminalInput.tsx:65 | The `setInput` setter, also the input line's `onChange`, replaces the input line only. |
| TerminalSession.Terminal.HandleCloseAsWritten | src/components/Terminal.tsx:104-113 | The close handler as written, as `CloseAsWrittenStep`. |
| TerminalSession.Terminal.HandleClose | src/components/Terminal.tsx:104-113 | The corrected close, as `CloseStep`: the written close followed by `setHistoryIndex(-1)`. It re-establishes the valid index. |
| TerminalSession.Terminal.HandleCommand | src/components/Terminal.tsx:115-134 | Performs `CommandStep` with the interpreter it is given. |
| TerminalSession.Terminal.HandleChat | src/components/Terminal.tsx:136-148 | Performs `ChatStep`. |
| TerminalSession.Terminal.CompleteChatReply | src/components/Terminal.tsx:149-153 | A scheduled reply appends the bot's answer to that text, turns the typing indicator off and leaves the other pending replies. |
| TerminalSession.Terminal.HandleSubmit | src/components/Terminal.tsx:156-166 | Performs `SubmitStep`. |
| TerminalSession.Terminal.HandleKeyDown | src/components/terminal/TerminalInput.tsx:26-52 | Performs `KeyDownStep`, which keeps the index valid. |
| ServerTerminal.FirstField | server/routes/terminal.js:23 | `split(' ')[0]` is the longest space-free prefix, followed by a space or the end. |
| ServerTerminal.AllowedIff | server/routes/terminal.js:22-25 | A command is allowed exactly when it is an allowlist name alone, or such a name followed by a space and anything. |
| ServerTerminal.IsCommandAllowed | server/routes/terminal.js:22-25 | The allowlist test on the first space-separated field; what it accepts is proved in `AllowedIff`. |
| ServerTerminal.FirstFieldOfPrefix | server/routes/terminal.js:23 | A space-free word the command starts with, followed by a space or the end, is its first field. |
| ServerTerminal.OnlyFirstFieldChecked | server/routes/terminal.js:22-25 | Anything after an allowed name and a space passes the check. |
| ServerTerminal.ChainedCommandPasses | server/routes/terminal.js:22-25 | "echo hi && whoami" is allowed. |
| ServerTerminal.SpaceAndTabRefused | server/routes/terminal.js:22-25 | " ls" and "ls\t-a" are refused: a leading space empties the first field and a tab is not a separator. |
| ServerTerminal.Decide | server/routes/terminal.js:28-36 | 400 exactly for a missing or empty command, and 403 exactly for a non-empty command that is not allowed. The command runs exactly when it is allowed. No reply when the value is a truthy non-string. |
| ServerTerminal.Respond | server/routes/terminal.js:38-43 | 200 with stdout, or with stderr when stdout is empty; 500 with the error message on failure. |
| ServerTerminal.Route | server/routes/terminal.js:27-44 | A reply is sent exactly unless the command is a truthy non-string. |
| ServerTerminal.AllowedAnsweredByRun | server/routes/terminal.js:27-44 | An allowed command is answered by the shell run: 200 with an output body exactly when the run completed, the text being stdout or stderr and empty only when both are; 500 otherwise. |
| ServerTerminal.ShellOnlyForAllowed | server/routes/terminal.js:30-36 | For a request that is not an allowed command, the reply does not depend on the shell; a non-empty refused command gets 403. |
| MLSurvey.QuestionIds | src/components/MLSurvey.tsx:12-51 | Question k (from 0) has id k + 1. |
| MLSurvey.RecommendedPath | src/components/MLSurvey.tsx:69-95 | Foundations exactly for ML answers "none" or "basics". Advanced exactly for "some_projects" with maths "advanced". Intermediate exactly otherwise, including missing answers. |
| MLSurvey.OnlyQuestionsTwoAndThree | src/components/MLSurvey.tsx:69-72 | Answers that agree on questions 2 and 3 get the same recommendation. |
| MLSurvey.Target | src/components/MLSurvey.tsx:177 | The button target is "/courses/" followed by the path name. |
| MLSurvey.TargetsDistinct | src/components/MLSurvey.tsx:177 | Different recommendations lead to different pages. |
| MLSurvey.Survey.constructor | src/components/MLSurvey.tsx:55-57 | Starts at the first question with no answers and no recommendation. |
| MLSurvey.Survey.HandleAnswer | src/components/MLSurvey.tsx:59-67 | Records the answer under the question id (replacing an earlier one), then advances or, on the last question, shows the recommendation. |
| MLSurvey.Survey.ChooseOption | src/components/MLSurvey.tsx:136-139 | Clicking an option records it under the question's id, moves to the next question (stays on the last one), keeps every earlier question answered, and shows the recommendation exactly after the last question, with all four answered. |
| Assessment.IntToStringRoundTrip | src/pages/AssessmentPage.tsx:61 | `toString` of an integer starts with a minus sign exactly when the number is negative, and reads back as the number. |
| Assessment.JsRemainder60 | src/pages/AssessmentPage.tsx:60 | JavaScript's `% 60`: the Euclidean remainder for a non-negative dividend, and a non-positive remainder above -60 for a negative one. |
| Assessment.FormatTime | src/pages/AssessmentPage.tsx:58-62 | For a non-negative time: the minutes, a colon, and the seconds below 60 padded to two digits. |
| Assessment.SecondsFieldTwoDigits | src/pages/AssessmentPage.tsx:61 | The seconds field is always exactly two digits and reads back as the seconds. |
| Assessment.ParseClock | src/pages/AssessmentPage.tsx:58-62 | Reading a "m:ss" display back never gives a negative time. |
| Assessment.FormatTimeRoundTrip | src/pages/AssessmentPage.tsx:58-62 | Every non-negative time's display reads back as the same number of seconds. |
| Assessment.InitialTimeShown | src/pages/AssessmentPage.tsx:17 | The initial hour shows as "60:00": minutes are not capped. |
| Assessment.NegativeTimeShown | src/pages/AssessmentPage.tsx:58-62 | -65 seconds shows as "-2:-5". |
| Assessment.AssessmentSession.constructor | src/pages/AssessmentPage.tsx:15-24 | Question 0, nothing selected, one hour left, the loading title and no questions. |
| Assessment.AssessmentSession.Load | src/pages/AssessmentPage.tsx:26-56 | Loads the title and the two questions and changes nothing else. |
| Assessment.AssessmentSession.SelectAnswer | src/pages/AssessmentPage.tsx:126 | Selects the clicked option and changes nothing else. |
| Assessment.AssessmentSession.Previous | src/pages/AssessmentPage.tsx:137-141 | Disabled on the first question; otherwise back one question with the selection cleared. |
| Assessment.AssessmentSession.Next | src/pages/AssessmentPage.tsx:148-152 | Forward one question with the selection cleared; nothing on the last question. |
| SignupValidation.HasCharIn | src/lib/validation/auth.ts:9-11 | The character-class test holds exactly when some character lies in the range. |
| SignupValidation.AllNameChars | src/lib/validation/auth.ts:15 | The anchored name pattern holds exactly when every character is an ASCII letter or whitespace. |
| SignupValidation.AtField | src/lib/validation/auth.ts:3-16 | Each message becomes one issue at the field's path, in order. |
| SignupValidation.PasswordAcceptedIff | src/lib/validation/auth.ts:7-11 | A password passes exactly with length >= 8 and an upper-case letter, a lower-case letter and a digit. |
| SignupValidation.NameAcceptedIff | src/lib/validation/auth.ts:12-15 | A name passes exactly with 2 to 50 characters, all ASCII letters or whitespace. |
| SignupValidation.FiftyIsNotLessThanFifty | src/lib/validation/auth.ts:14 | A 50-letter name passes, although the message says "less than 50"; 51 letters get that message. |
| SignupValidation.EmptyEmailRefused | src/lib/validation/auth.ts:4-6 | An empty email always gets "Email is required", after the format issue. |
| SignupValidation.SignupAcceptedIff | src/lib/validation/auth.ts:3-16 | The form passes exactly when the email has the format and is non-empty and both the password and the name pass. |
| SignupValidation.SignupIssues | src/lib/validation/auth.ts:3-16 | The signup schema's issue list; which forms it accepts is proved in `SignupAcceptedIff`, and its order in `ShowsFirstFailingRule`. |
| SignupValidation.SignupErrorMessage | src/lib/validation/auth.ts:18-30 | Exactly one message: the first zod issue's; the fixed advice for an `Error` mentioning "already registered"; another `Error`'s own message; otherwise the fallback. |
| SignupValidation.ShowsFirstFailingRule | src/lib/validation/auth.ts:19-20 | A refused form shows its first failing rule, in the order email, password, name. |
| SignupValidation.EmailRequiredNeverShown | src/lib/validation/auth.ts:4-6 | "Email is required" is never the message shown, since the format issue precedes it. |
| SignupValidation.AlreadyRegisteredAnywhere | src/lib/validation/auth.ts:22-23 | Any `Error` message containing "already registered" gets the fixed advice. |
| AuthSchemas.LoginAcceptedIff | src/lib/auth/validation.ts:3-6 | A login passes exactly with a well-formed email and a password of at least 8; a short password gets its message. |
| AuthSchemas.LoginIssues | src/lib/auth/validation.ts:3-6 | The login schema's issue list; which inputs it accepts is proved in `LoginAcceptedIff`. |
| AuthSchemas.LowercasePasswordPassesLogin | src/lib/auth/validation.ts:5 | Eight lower-case letters pass the login schema but not the signup rules. |
| AuthSchemas.SignupPasswordPassesLogin | src/lib/auth/validation.ts:5 | Every password the signup rules accept passes the login schema. |
| AuthSchemas.RegisterExtendsLogin | src/lib/auth/validation.ts:8-10 | The login issues of the same email and password come first among the register issues. |
| AuthSchemas.RegisterAcceptedIff | src/lib/auth/validation.ts:8-14 | A registration passes exactly when the login part passes, the name has at least 2 characters and the confirmation matches. |
| AuthSchemas.RegisterIssues | src/lib/auth/validation.ts:8-14 | The register schema's issue list; which inputs it accepts is proved in `RegisterAcceptedIff`, and that it extends the login list in `RegisterExtendsLogin`. |
| AuthSchemas.MismatchReportedIff | src/lib/auth/validation.ts:11-14 | "Passwords don't match" at path passwordConfirm is reported exactly on a mismatch, as the last issue, whatever else failed. |
| ResetPassword.ChecksPassIff | src/pages/ResetPasswordPage.tsx:43-53 | Both local checks pass exactly when the entries are equal and at least 8 long. |
| ResetPassword.FirstFailedCheck | src/pages/ResetPasswordPage.tsx:43-53 | The message of the first local check that fails; its promises are proved in `ChecksPassIff` and `MismatchCheckedFirst`. |
| ResetPassword.MismatchCheckedFirst | src/pages/ResetPasswordPage.tsx:43-53 | A mismatch always reports the mismatch message; the length message appears exactly for equal entries shorter than 8. |
| ResetPassword.SubmitStep | src/pages/ResetPasswordPage.tsx:38-64 | A failed check sets its message, stops loading and calls nothing. Otherwise the password is sent once; success navigates to /login and stays loading with no error; failure shows the message and stops loading. |
| ResetPassword.UpdateOnlyAfterChecks | src/pages/ResetPasswordPage.tsx:43-56 | The password is sent exactly once when both checks pass, and never otherwise. |
| ResetPassword.LoadingOnlyWhileLeaving | src/pages/ResetPasswordPage.tsx:40-62 | After a submit the form is loading exactly when it navigated away. |
| ResetPassword.ServiceFailureShown | src/pages/ResetPasswordPage.tsx:55-62 | A service failure after passing checks shows its message (or "Failed to update password"), having sent the password once. |
| ResetPassword.ResetPasswordForm.constructor | src/pages/ResetPasswordPage.tsx:14-17 | Empty entries, no error, not loading. |
| ResetPassword.ResetPasswordForm.SetPassword | src/pages/ResetPasswordPage.tsx:96 | The password field's `onChange`: replaces the password and nothing else. |
| ResetPassword.ResetPasswordForm.SetConfirmPassword | src/pages/ResetPasswordPage.tsx:106 | The confirmation field's `onChange`: replaces the confirmation and nothing else. |
| ResetPassword.ResetPasswordForm.HandleSubmit | src/pages/ResetPasswordPage.tsx:38-64 | Performs `SubmitStep`. |
| Catalog.Keep | src/pages/CoursesPage.tsx:60 | The filter result is no longer than the list and every kept entry has the selected key. |
| Catalog.KeepIsSubsequence | src/pages/CoursesPage.tsx:60 | The filter result is a subsequence of the list: order preserved. |
| Catalog.KeepExact | src/pages/CoursesPage.tsx:60 | Every entry with the selected key is kept as often as it occurs, and no other entry. |
| Catalog.KeepIdempotent | src/pages/CoursesPage.tsx:60 | Filtering again with the same key changes nothing. |
| Catalog.VisibleSpec | src/pages/ProjectsPage.tsx:45-47 | A falsy selection shows the whole list; a truthy one exactly the matching entries, in order; reapplying changes nothing. |
| Catalog.Visible | src/pages/ProjectsPage.tsx:45-47 | The selection-dependent list; its promises are proved in `VisibleSpec`. |
| Catalog.FilteredCourses | src/pages/CoursesPage.tsx:59-61 | `filteredCourses`; `VisibleSpec` applies, and `BeginnerCourses` and `AdvancedCourses` give the shipped results. |
| Catalog.FilteredProjects | src/pages/ProjectsPage.tsx:45-47 | `filteredProjects`; `VisibleSpec` applies, and `BeginnerProjects` and `IntermediateProjects` give the shipped results. |
| Catalog.BeginnerCourses | src/pages/CoursesPage.tsx:5-61 | "Beginner" shows only the foundations course. |
| Catalog.AdvancedCourses | src/pages/CoursesPage.tsx:5-61 | "Advanced" shows deep-learning then nlp. |
| Catalog.BeginnerProjects | src/pages/ProjectsPage.tsx:6-47 | The offered "Beginner" filter shows no project. |
| Catalog.IntermediateProjects | src/pages/ProjectsPage.tsx:6-47 | "Intermediate" shows sentiment-analysis then chatbot. |

## Left out

- The date and the clock: `date` prints the current date's text. That text is a parameter, not modelled.
- Message ids and timestamps (`Date.now()`, `new Date()`) are not modelled.
- The random 1000–1500 ms delay before a bot reply is not modelled. Replies wait in a list until one is delivered, in any order.
- The command table lookup is by exact name over the ten handlers. Names inherited from `Object.prototype` (such as `constructor` or `toString`) would also be found by the source's property lookup. They are not modelled.
- Case mapping covers ASCII letters only; JavaScript's full Unicode `toLowerCase`/`toUpperCase` is not modelled.
- Lengths count characters, not UTF-16 code units. They differ only for characters outside the Basic Multilingual Plane.
- zod's email pattern is a boolean parameter. Issue order within the zod error is assumed to follow the declaration order of the checks and the keys.
- The shell run (`exec`) in the server route is not modelled; its outcome is a parameter.
- Express's handling of a request whose `command` is a truthy non-string is not modelled. The handler throws outside its `try`, and the model records that no reply is sent.
- Rendering, styling, animation, focus handling and the portal element are not modelled.
- Pointer coordinates and the window size are integers; fractional pixel values are not modelled.
- React's batching of state updates is not modelled: each handler's setter calls are applied in order.
- `isExecuting` is never set to true by the code. It is a field that stays false.
- The assessment timer: `timeLeft` is never decremented by the code, so no countdown is modelled.
- `ResetPasswordPage`'s token verification effect (redirect to /forgot-password) is an auth-service call and is not modelled.
- The `isSystem` property of a command result is a boolean. An absent `isSystem` is modelled as false, which is how the history entry treats it.
- Assessment.ParseClock: states only that a read time is non-negative. The display format it reads back is proved through `FormatTimeRoundTrip` instead.
- ClearThrows, ChatThrows, ExitThrows: the exact TypeError text ("clearHistory is not a function" and its two siblings) is V8's wording for the unminified bundle. A minifier that renames the destructured binding, or another JavaScript engine, changes the text after "Error executing command: "; that variation is not modelled.
- The recommendation card's title and description texts are display strings and are not modelled; the recommended path and its link target are.
- Catalog.Keep: states only that kept entries match the selection and the length bound. Exactness and order are in `KeepExact` and `KeepIsSubsequence`.

## Findings

| source | as written | input that shows it | evidently intended | confidence | as-written member | corrected member |
|---|---|---|---|---|---|---|
| src/components/Terminal.tsx:104-113 | `handleClose` empties the history but keeps `historyIndex` | Run two commands, press ArrowUp twice (index 1), close, reopen, press ArrowDown: the handler sets the index to 0, then reads `.text` of `history[-1]` and throws | Closing ends history browsing: the index goes back to -1 with the history it indexes | not executed | TerminalSession.CloseAsWrittenBreaksIndex | TerminalSession.CloseStep |
