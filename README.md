# Custom-Shell: the command-line core, modelled in Dafny

Custom-Shell is a small interactive shell written in C (`shell.c`). Its loop works like this:

- it prints `shell> ` and reads a line;
- `parse_line` splits the line into a NULL-terminated argument vector. It uses `strtok` on space, tab and newline, and stores the tokens in a heap array that grows in steps of `MAX_NUM_ARGS` (64);
- a chain of exact `strcmp` comparisons on `args[0]` picks one of 31 branches, which call 30 built-in `custom_*` handlers (`datetime` calls two of them), or prints `Error not a command`.

The handlers are thin wrappers around system calls. The decisions they make on their own are:

- usage messages when an argument is missing;
- one call per argument for `mmkdir`, `mrmdir`, `mrm`, `mtouch`, `mlocate` and `mfile`;
- echo's output format;
- the file-type label;
- the `"shell"` line filter of `mjobs`.

The project has these modules:

- `Wrappers`: `Option`, which stands for C's `NULL`.
- `Tokenizer`: `parse_line`.
  - The pure specification `Tokens` splits a string into maximal runs of non-delimiters. It is characterised in both directions: a line is a layout of words separated by delimiter runs exactly when its tokens are those words.
  - `StrTok` models one `strtok` call.
  - `ParseLine` is the imperative `parse_line`. It grows its `array` through `PushToken` and `Realloc`, and is proved to return the tokens in order, followed by a `NULL` sentinel that always has a slot.
- `Commands`: the dispatch chain, as the pure function `Resolve` from a name to a `Command`: the branches' names are tried in the chain's order and the first match wins. The literal names are kept exactly: `ndate`, not `mdate`, is the date command, and `datetime` runs the date handler and then the time handler.
- `Handlers`: the handlers' own logic.
  - Every operating-system call is an `OsCall` value. A `World` value answers each call given every call the session made before it, so the file system and the working directory are whatever the earlier calls left behind: `mmkdir a a` can fail on its second operand only, and `medit x` can fail before an `mcd` and succeed after it.
  - Output is a sequence of `Out` values: `Stdout`, `Stderr`, `Perror`, and `Untraced(h)` for the output of a handler `h` whose body is not modelled.
  - Handlers that loop over `args[i]` are methods over the argument array; the others are functions of the line's tokens.
- `Shell`: the loop of `main`, as the function `Run` over a finite sequence of input lines and the method `MainLoop`.
  - `Run` is `Loop` with main's loop body `Trip`: each line's step is taken after every call the earlier steps made, and its handlers' calls and output are part of the step.
  - `MainLoop` calls `ParseLine`, `Resolve` and the handlers on each line and is proved equal to `Run`.
  - The modelled run stops at the first `mexit`, whose handler calls `exit(0)`. Handlers whose bodies are not modelled never end the modelled run, although some of them can end the real shell (see `Shell.RunLines` under "## Left out").
  - It also stops after an `medit` that opened its file, because that handler reads standard input to its end.

Strings are `seq<char>`, and one `char` of the model stands for one byte of the C string, so every length and bound in the model (the 256-byte buffers of `snprintf` and `fgets`, the 234- and 245-character limits below) is a byte count. A token is the substring of the line it covers; the `NUL` bytes `strtok` writes into the line are not modelled. A line is the C string up to its first `NUL` (`CStr`).

## Model

| member | source | states |
|---|---|---|
| Tokenizer.CStr | shell.c:43 | the string strtok scans is the longest NUL-free prefix of the buffer |
| Tokenizer.WordLen | shell.c:43-60 | the length of a token is that of the maximal delimiter-free prefix: no delimiter before it, a delimiter (or the end) at it |
| Tokenizer.Tokens | shell.c:43-61 | the tokens strtok returns one call after another on space, tab and newline; it has no contract of its own, and its meaning is proved by TokensAreWords, TokensOfLayout and LayoutOfTokens |
| Tokenizer.TokensAreWords | shell.c:43-61 | every token is non-empty and contains no space, tab or newline |
| Tokenizer.WordLenUnique | shell.c:43-60 | a token ends at the first delimiter and nowhere else |
| Tokenizer.TokensWordThen | shell.c:43-61 | a word followed by a delimiter or the end of the line is emitted whole, as one token |
| Tokenizer.TokensSkipGap | shell.c:43-61 | a run of delimiters before the rest of a line adds no token: runs of delimiters collapse |
| Tokenizer.BlankIffNoTokens | shell.c:43-62 | a line gives no token (args[0] is NULL) exactly when it is empty or made of spaces, tabs and newlines only |
| Tokenizer.TokensConcatDelim | shell.c:43-61 | a leading delimiter keeps the split of the tokens at a later delimiter |
| Tokenizer.TokensConcatWord | shell.c:43-61 | a leading word ended inside the first part keeps the split of the tokens at a later delimiter |
| Tokenizer.TokensConcat | shell.c:43-61 | tokens of a line split after a delimiter are the tokens of the first part followed by those of the second: order is kept |
| Tokenizer.LayoutStart | shell.c:43 | a layout with a non-empty leading gap starts with a delimiter |
| Tokenizer.TokensOfLayout | shell.c:43-62 | a line made of N words separated by delimiter runs yields exactly those N words in order, for every N including N > 64 |
| Tokenizer.Gaps | shell.c:43-61 | there is one delimiter run before, between and after the tokens: one more than the tokens |
| Tokenizer.LayoutOfTokens | shell.c:43-61 | every line is the layout of its own tokens with its delimiter runs, so the tokenizer loses only delimiters |
| Tokenizer.Argc | shell.c:62 | the argument count is the index of the first NULL entry |
| Tokenizer.ArgcUnique | shell.c:62 | a NULL preceded only by tokens is the sentinel that fixes the count |
| Tokenizer.Argv | shell.c:62 | the argument vector's strings are exactly its entries before the sentinel |
| Tokenizer.ArgvOf | shell.c:46-62 | entries Some(ws[k]) for each k followed by NULL form the argument vector ws |
| Tokenizer.TokensAtDelim | shell.c:43-60 | tokens from a delimiter on are the tokens from the next character on |
| Tokenizer.TokensAtWord | shell.c:43-60 | tokens from the start of a word are that word, then the tokens after its end |
| Tokenizer.SkipDelims | shell.c:43-60 | strtok's scan over leading delimiters stops at the next non-delimiter or the end, and drops no token |
| Tokenizer.WordEnd | shell.c:43-60 | strtok's scan over a token stops at the next delimiter or the end; the characters scanned are the next token |
| Tokenizer.StrTok | shell.c:43-60 | one strtok call: NULL when only delimiters remain; otherwise the next token of the line, with the scan resuming past its terminating delimiter |
| Tokenizer.Realloc | shell.c:52 | realloc gives an array of the new size that keeps every previous entry |
| Tokenizer.Capacity | shell.c:32-51 | the capacity is a multiple of MAX_NUM_ARGS strictly above the number of stored tokens and at most MAX_NUM_ARGS above it |
| Tokenizer.PushToken | shell.c:46-58 | storing a token advances position by one; bufsize grows by exactly 64 when position reaches it and keeps being the capacity; earlier tokens are kept |
| Tokenizer.StoreNext | shell.c:46-60 | one pass of parse_line's loop stores the current token at position, grows the array when it fills, and fetches the next token |
| Tokenizer.StoreTokens | shell.c:43-61 | parse_line's loop stores exactly the line's tokens in order, in an array whose size is the capacity for that count |
| Tokenizer.ParseLine | shell.c:30-64 | parse_line returns a freshly allocated array holding exactly the line's tokens in order, position < bufsize holds to the end, bufsize is the multiple of 64 just above the count, and the NULL sentinel is written in bounds |
| Commands.NameOf | shell.c:584-708 | the literal name each branch compares args[0] with; it has no contract of its own, and NamesDistinct proves no two branches share a name and ResolveNameOf that each name selects its own branch |
| Commands.Branch | shell.c:584-708 | every command has its branch in the chain |
| Commands.Lookup | shell.c:584-711 | the else-if chain, as the table Chain in the source's order, scanned from one branch on: a command it selects has args[0] as its literal name |
| Commands.Resolve | shell.c:582-711 | the whole chain from its first branch; it has no contract of its own, and ResolveExact proves it selects a command exactly by its name |
| Commands.LookupSound | shell.c:584-711 | a branch the chain selects is one whose literal name equals args[0], at or after where the scan started |
| Commands.LookupFinds | shell.c:584-711 | the scan never reaches the final else while a branch ahead of it has args[0] as its name |
| Commands.NamesDistinct | shell.c:584-708 | no two branches test the same name, so the first match is the only one |
| Commands.ResolveSound | shell.c:584-711 | a name the chain matches is exactly the matched command's literal name |
| Commands.ResolveNameOf | shell.c:584-708 | every command's literal name selects that command's branch: no earlier branch shadows it |
| Commands.ResolveExact | shell.c:584-712 | the chain selects a command exactly when args[0] equals its name, and reports "not a command" exactly when args[0] is no command's name |
| Commands.DateSpelling | shell.c:648 | the date branch is selected by "ndate" and by no other name |
| Commands.MisspelledDate | shell.c:648 | "mdate" selects no branch at all |
| Commands.NoFolding | shell.c:584-711 | matching is exact and case-sensitive: an upper-case, shortened or extended "mecho" selects nothing |
| Commands.Invoked | shell.c:584-708 | every branch runs exactly its own handler, except datetime, which runs two, neither of them datetime |
| Commands.DateTimeIsDateThenTime | shell.c:668-672 | datetime runs the date handler and then the time handler |
| Handlers.Operands | shell.c:70-71 | the operands are args[1] up to the sentinel |
| Handlers.Snprintf | shell.c:228-229 | snprintf into a 256-byte buffer keeps a prefix of at most 255 characters: all of the text when it fits, exactly 255 characters when it does not |
| Handlers.FindCommand | shell.c:228-229 | mlocate's command is "find . -name NAME -type f", cut to 255 characters; it is whole exactly when NAME has at most 234 characters |
| Handlers.PingCommand | shell.c:399-400 | mping's command is "ping -c 4 HOST", cut to 255 characters; it is whole exactly when HOST has at most 245 characters |
| Handlers.Spaced | shell.c:70-75 | the text of the echo loop: every operand followed by one space; it has no contract of its own, and SpacedRoundTrip proves it loses nothing |
| Handlers.EchoText | shell.c:68-77 | the whole output of mecho, the loop's text and then a newline; EchoRoundTrip proves it reads back as the operands |
| Handlers.CustomEcho | shell.c:68-77 | mecho prints every operand in order, each followed by one space, then a newline, and makes no call |
| Handlers.SpacedEnd | shell.c:73 | echo's text so far is empty or ends in the space printed after an operand |
| Handlers.TokensWordSpace | shell.c:73 | a word and a space printed after a space read back as one more token |
| Handlers.SpacedSnoc | shell.c:70-75 | one more operand appends that operand and a space to echo's text |
| Handlers.SpacedStep | shell.c:70-75 | printing one more operand keeps the round trip from the text back to the operands |
| Handlers.SpacedRoundTrip | shell.c:70-75 | the operands each followed by a space, tokenized again, give back exactly the operands |
| Handlers.EchoRoundTrip | shell.c:68-77 | echo's output, tokenized again, gives back exactly the operands |
| Handlers.FileLabel | shell.c:253-265 | the label mfile prints for an st_mode, with the types checked in the source's order; it has no contract of its own, and FileLabelMeaning proves which label each file type gets |
| Handlers.FileLabelMeaning | shell.c:253-265 | each label is printed exactly for its file type; the three types exclude each other, so the priority order never hides a type |
| Handlers.FileLabelIgnoresPermissions | shell.c:253-265 | the label depends on the file-type bits of st_mode only |
| Handlers.Usage | shell.c:138-142 | the usage message of mmkdir, mrmdir, mrm, mtouch, mlocate and mfile starts with "usage: " and ends with a newline |
| Handlers.CallFor | shell.c:147 | the per-operand call acts on the operand itself as a path, except for mlocate, whose call runs the find command for it through system() |
| Handlers.Report | shell.c:144-267 | what one operand prints: nothing for mlocate; perror("shell") whenever the call fails; nothing for a success of mkdir, rmdir, rm or touch; the operand and its label for a successful stat |
| Handlers.Calls | shell.c:144-152 | one call per operand, in operand order |
| Handlers.Reports | shell.c:144-152 | the output for the operands, each report made after the calls for the operands before it; it has no contract of its own, and ReportsSnoc, ReportsAreFailures and FileReportsPerOperand state what it holds |
| Handlers.ReportsSnoc | shell.c:144-152 | handling one more operand appends that operand's report, made after the calls for the earlier operands |
| Handlers.HandledNext | shell.c:144-152 | one pass of the per-argument loop extends the calls and the output by exactly that operand's |
| Handlers.RunPerArgument | shell.c:136-271 | mmkdir, mrmdir, mrm, mtouch, mlocate, mfile: without an operand, only the usage message on standard error and no call; otherwise each operand handled once, in order, in the world the earlier operands' calls left behind |
| Handlers.ReportsAreFailures | shell.c:136-214 | mkdir, rmdir, rm and touch print nothing on success and one perror("shell") per failed call |
| Handlers.RepeatedOperandFailsOnce | shell.c:136-153 | in a world that remembers what earlier calls did, `mmkdir a a` prints exactly one perror: the second mkdir meets the directory the first one made |
| Handlers.PerArgumentEffect | shell.c:136-271 | what a per-argument handler does on its operands; it has no contract of its own, and RunPerArgument proves the handlers' loop computes it |
| Handlers.JobsEffect | shell.c:421-447 | what mjobs does; it has no contract of its own, and CustomJobs proves the handler's read loop computes it |
| Handlers.FileLine | shell.c:254-267 | the line mfile prints for one operand: the operand, ": ", its label and a newline after a successful stat, perror("shell") otherwise; it has no contract of its own, and Report uses it for every mfile operand |
| Handlers.FileLinesSnoc | shell.c:243-270 | the line of one more mfile operand, made after the calls for the others, extends the account of one line per operand |
| Handlers.FileReportsStep | shell.c:243-270 | the last operand of mfile adds its own line after the lines of the others |
| Handlers.FileReportsPerOperand | shell.c:243-270 | mfile prints exactly one line per operand: "name: label" or the stat error, each as the world stands after the calls for the operands before it |
| Handlers.LocateIsSilent | shell.c:216-232 | mlocate prints nothing itself, and its calls are exactly one system() of the find command per operand, in order |
| Handlers.CustomCd | shell.c:79-92 | mcd without an argument prints the diagnostic on standard error and makes no call; otherwise one chdir on args[1], silent exactly when it succeeds and perror("shell") when it fails |
| Handlers.CustomRename | shell.c:508-525 | mrename needs both args[1] and args[2]; otherwise it prints the usage message and makes no call; otherwise one rename and one message telling success from failure |
| Handlers.Forward | shell.c:412-415 | every chunk read from the pipe is printed as it is, in order |
| Handlers.CustomPing | shell.c:389-419 | mping without a host prints the usage message and starts nothing; otherwise one popen of the ping command, and either perror("shell") or its output forwarded chunk by chunk |
| Handlers.CustomEdit | shell.c:527-556 | medit without a file name prints the usage message; if fopen fails, one fopen and perror("Error opening file"); otherwise the prompt, the rest of standard input written to the file, and "File edited successfully."; it reads the input exactly when the file was opened |
| Handlers.FgetsLen | shell.c:436 | one fgets takes at most size - 1 characters and stops after the first newline |
| Handlers.Chunks | shell.c:436 | successive fgets chunks are non-empty and fit the buffer |
| Handlers.ChunksConcat | shell.c:436 | reading a stream in fgets chunks loses and reorders nothing |
| Handlers.Contains | shell.c:439 | strstr(chunk, "shell") != NULL: "shell" occurs at some position of the chunk; it has no contract of its own, and KeepShellMembers proves the filter keeps exactly such chunks |
| Handlers.KeepShell | shell.c:439 | the filter keeps no more chunks than there were, and only chunks that contain "shell" |
| Handlers.KeepShellMembers | shell.c:439 | mjobs keeps exactly the chunks in which "shell" occurs |
| Handlers.ForwardSnoc | shell.c:441 | printing one more chunk appends one output |
| Handlers.KeepShellFirst | shell.c:436-443 | the filtered chunks of the pipe are the first chunk if it contains "shell", then the filtered rest |
| Handlers.PrintingKeep | shell.c:439-442 | printing a chunk that contains "shell" keeps the loop's account of what is left to print |
| Handlers.PrintingSkip | shell.c:439 | skipping a chunk without "shell" keeps the loop's account of what is left to print |
| Handlers.PrintShellChunks | shell.c:436-443 | the read loop prints exactly the chunks of the pipe that contain "shell", in order |
| Handlers.CustomJobs | shell.c:421-447 | the handler with its fgets/strstr read loop does exactly what JobsEffect specifies: one popen of "ps -ef", the heading, then either the popen error or the chunks that contain "shell", in order |
| Shell.DispatchOf | shell.c:582-712 | an empty vector dispatches nothing; a vector whose first word is no command's name gets "not a command"; otherwise the branch of the command with that exact name |
| Shell.Message | shell.c:709-712 | the chain itself prints only for an unknown name, and then exactly "Error not a command" |
| Shell.HandlerEffect | shell.c:584-708 | what one handler does on the line's tokens after the session's earlier calls; it uses up the input exactly when it is medit and fopen succeeds |
| Shell.HandlersEffect | shell.c:584-708 | the handlers of one branch, one after the other, each in the world the calls before it left; it has no contract of its own, and SingleHandler and TwoHandlers state it for the branches of one and two handlers |
| Shell.DispatchEffect | shell.c:582-712 | what the branch the chain takes does; it has no contract of its own, and BlankLineIsSkipped, UnknownNameContinues and DateTimeRunsBoth state it for blank lines, unknown names and datetime |
| Shell.StepAt | shell.c:577-712 | one trip round the loop: tokens of the line, the branch for args[0], and what that branch does; it has no contract of its own, and StepDrains and RunLines state what it holds |
| Shell.DrainsInput | shell.c:697-700 | the step is an medit with a file name whose fopen succeeds in the world the earlier calls left; StepDrains proves it is exactly when a step uses up the input |
| Shell.Ends | shell.c:652-655 | the loop reads no further line after mexit or after a step that used up the input; RunLines proves no step but the last is one of these |
| Shell.Loop | shell.c:574-717 | main's do-while loop for a given loop body; it has no contract of its own, and LoopShape, LoopLines, LoopStopsAtExit and LoopReadsAll state what it does |
| Shell.Trip | shell.c:577-712 | the body of main's loop: the step a line gives after the session's earlier calls; it has no contract of its own, and TripEnds states that only mexit and medit lines end the run |
| Shell.Run | shell.c:574-717 | main's loop with main's own body from a fresh session; RunLines, RunStopsAtExit, RunReadsAll and MainLoop state what it does |
| Shell.ReadStep | shell.c:577-712 | one pass of the loop body builds the token vector of the line and takes the branch the chain specifies for it |
| Shell.RunPerArgumentHandler | shell.c:604-631 | the per-argument handlers run on the vector parse_line built do what HandlerEffect specifies |
| Shell.RunEchoHandler | shell.c:584-587 | custom_echo on the vector parse_line built does what HandlerEffect specifies |
| Shell.RunJobsHandler | shell.c:673-676 | custom_jobs does what HandlerEffect specifies |
| Shell.RunHandler | shell.c:584-708 | each handler, called on the vector parse_line built, does what HandlerEffect specifies |
| Shell.RunBranch | shell.c:584-708 | a branch runs its handlers in order, datetime's second after the first one's calls, as HandlersEffect specifies |
| Shell.LoopStep | shell.c:577-712 | one trip round main's loop produces exactly the step StepAt specifies |
| Shell.LoopNext | shell.c:574-717 | the loop from a line is that line's step, then, unless it ends the run, the loop from the next line after that step's calls |
| Shell.MainLoop | shell.c:574-717 | main's loop, with parse_line, the chain and the handlers, produces exactly the run Run specifies, threading every call into the world of the next step |
| Shell.ShapedCons | shell.c:574-717 | a step that does not end the run in front of a run over n lines gives a run over n + 1 lines |
| Shell.LoopShape | shell.c:574-717 | for any body, lines are processed in order, at most one step each; no step before the last exits or drains the input; the run ends by exit exactly when its last step is mexit; it stops short of the input only after a step that ends it |
| Shell.CallsBefore | shell.c:574-717 | the calls before a later step are the earlier steps' calls, in order |
| Shell.LoopLines | shell.c:574-717 | for any body, step k is the body on line k after every call the steps before it made, with the lines after it still unread |
| Shell.LoopStopsAtExit | shell.c:652-717 | for any body, when no line before line k ends the run and line k exits, the loop takes exactly k + 1 steps and ends by exit |
| Shell.LoopReadsAll | shell.c:579-717 | for any body, when no line ends the run, every line is read and the run ends with the input |
| Shell.SingleHandler | shell.c:584-708 | a branch with one handler does what that handler does |
| Shell.TwoHandlers | shell.c:668-672 | a branch with two handlers: the second meets the world the first one's calls left, and its calls and output follow the first one's |
| Shell.StepDrains | shell.c:582-712 | a step takes its line's branch whatever ran before, and uses up the input exactly when it is a medit whose file opened |
| Shell.RunLines | shell.c:574-717 | every step of main's loop is its line's step after every call of the earlier steps; no step but the last ends the run; the run stops short of the input only after mexit or a draining medit |
| Shell.TripEnds | shell.c:652-700 | only an mexit or an medit line can end the run, whatever ran before it |
| Shell.RunStopsAtExit | shell.c:652-717 | the loop stops right after the first mexit when no earlier line is mexit or medit |
| Shell.RunReadsAll | shell.c:579-717 | status is always 1: without an mexit or a medit line every line is read and the run never exits |
| Shell.BlankLineIsSkipped | shell.c:582 | a line dispatches nothing exactly when it is blank, and then it prints nothing, calls nothing and reads no input |
| Shell.UnknownNameContinues | shell.c:709-712 | an unknown name prints exactly "Error not a command", calls nothing, and the loop goes on with the next line in the same world |
| Shell.DispatchOfName | shell.c:584-708 | a vector whose first word is a command's name takes that command's branch |
| Shell.DateTimeRunsBoth | shell.c:668-672 | datetime prints what the date handler prints and then what the time handler prints, and nothing else |
| Shell.TwoWords | shell.c:43-61 | a line of two words and one blank gives exactly those two tokens |
| Shell.EditLine | shell.c:697-700 | the line "medit PATH" takes the medit branch, uses up the input exactly when fopen succeeds, and otherwise prints only the fopen error |
| Shell.CdLine | shell.c:588-591 | the line "mcd DIR" takes the mcd branch, makes exactly one chdir into DIR and does not use up the input |
| Shell.ThreeSteps | shell.c:574-717 | a loop over three lines whose first two steps go on and whose third drains the input takes exactly those three steps |
| Shell.WorkingDirectoryMatters | shell.c:79-92 | `medit x`, `mcd d`, `medit x` in a world where x opens only inside d: the first medit prints the fopen error and the loop goes on; the third line opens the file and uses up the input |

## Left out

- Reading input. `read_line`/`getline` is stdin I/O and is not modelled. The input is a finite sequence of lines, and the model stops when they run out. The C program does not check getline's -1 at end of file: `parse_line` then scans a buffer that getline did not fill and may not have NUL-terminated, which is undefined behaviour. `Shell.Run` instead ends with `EndOfInput`.
- The prompt `shell> ` and `free` of the line and the token array. These are output and memory management, with nothing to decide.
- Every operating-system and C-library call is left out. Each one's result is chosen by the `World` parameter, given the call and every call the session made before it:
  - calls with a failure result (`chdir`, `mkdir`, `rmdir`, `remove`, `open`, `stat`, `rename`, `fopen`, `popen`) get only success or failure;
  - for `stat`, the World also gives the st_mode, and for `popen` the text the command prints; `errno` texts are not modelled.
  - Nothing outside the shell changes the world between two calls except as the World's answers describe; other processes, signals and time are not modelled.
- `stat` follows symbolic links, so the "symbolic link" label is printed only if the file system reports a link's own type through `stat`. Which type `stat` reports is up to the `World`.
- The bodies of these handlers are left out: mls, mpwd, muname, mclear, mdf, mps, mhostname, mtime, ndate, mkill, mnetstat, mtop, mifconfig, mwho, mcal, mshutdown and mrestart. Their system calls, child processes and output are not modelled, and they appear in a step only as one `Untraced` mark with no recorded call. That leaves out their own decisions: the perror on a failed `opendir`, `uname`, `statvfs`, `gethostname` or `popen` in mls, muname, mhostname, mdf, mps, mnetstat, mtop and mwho (shell.c:100-104, 124-128, 276-280, 297-301, 316-320, 372-376, 453-457, 480-484), and mkill's choice between perror("mkill") and "Process with PID %d killed" (shell.c:359-365). The dispatcher still models which of them runs.
- Shell.RunLines, Shell.TripEnds, Shell.RunStopsAtExit, Shell.RunReadsAll: these state that only an `mexit` or a draining `medit` line ends the run. That holds for the model, not for every run of the real shell. `mkill 0`, `mkill` of a non-number (which `atoi` reads as 0) and `mkill` of the shell's own PID send SIGTERM to the shell itself, or to its process group, and end it at that line (shell.c:356-359); `mkill` without an argument is undefined behaviour and may end it as well; a successful `mshutdown` or `mrestart` (shell.c:558-566) ends it with the whole system. The model goes on after every handler it does not follow, so for such inputs the real shell reads fewer lines than these lemmas say.
- mkill: `atoi(args[1])` runs without an arity check, which is undefined behaviour when no argument is given. The model adds no guard for it.
- Handlers.CustomPing: the processes started by `popen` (ps for mjobs, ping for mping) are not modelled. Their output is the World's `output` for the command string.
- Handlers.LocateIsSilent: the output find writes straight to the terminal from `system()` is not in the model's trace, and `system()`'s return value is ignored, as the source ignores it.
- Multi-byte characters: one model `char` is one byte, so a UTF-8 character of several bytes is several `char`s; the model has no notion of characters wider than a byte.
- Handlers.RunPerArgument: the file descriptor that touch's `open` leaks is not modelled.
- Handlers.CustomEdit: the buffer-by-buffer `fputs` loop of medit is modelled as one `WriteFile` of the whole remaining input.
- Handlers.RunPerArgument, Handlers.CustomJobs: NUL bytes inside a chunk or an operand are not modelled. `printf("%s")` and `strstr` stop at the first NUL, while the model treats a chunk as one string.
- Allocation failure (`malloc`/`realloc` returning NULL and `exit(EXIT_FAILURE)`) is not modelled: allocation always succeeds.
- `size_t` is 64-bit, so `position` and `bufsize` cannot overflow for any line that fits in memory. They are unbounded `nat`s in the model.
- The dispatch chain's 31 `strcmp` tests are written as their ordered table `Chain`, scanned by `Lookup` from the first branch on. Each step compares `args[0]` with one branch's literal name, in the source's order, and the first match wins, as in the `else if` chain.
