/**
 * The decisions the handlers make on their own, with every operating-system call
 * left abstract: the usage guards on missing arguments, the per-argument loops of
 * mkdir/rmdir/rm/touch/locate/file, the output of echo, the file-type label, and
 * the "shell" line filter of jobs.
 */
module Handlers {
  import opened Wrappers
  import opened Tokenizer
  import opened Commands

  /** A call into the operating system or the C library that a handler makes. */
  datatype OsCall =
    | Chdir(path: string)                 // chdir(path)
    | MakeDir(path: string)               // mkdir(path, 0777)
    | RemoveDir(path: string)             // rmdir(path)
    | Remove(path: string)                // remove(path)
    | CreateExclusive(path: string)       // open(path, O_CREAT | O_WRONLY | O_EXCL, 0666)
    | Stat(path: string)                  // stat(path, &st)
    | System(command: string)             // system(command)
    | Popen(command: string)              // popen(command, "r")
    | RenameFile(from: string, to: string)  // rename(from, to)
    | OpenForWrite(path: string)          // fopen(path, "w")
    | WriteFile(path: string, text: string)  // the fputs calls of edit, together

  /** What the outside world answers, given the calls the shell has made before in the
      session (the file system and the working directory are whatever those calls left
      behind): whether the next call succeeds, the st_mode a successful stat reports for
      a path, and the text a command run through popen prints. */
  datatype World = World(
    succeeds: (seq<OsCall>, OsCall) -> bool,
    mode: (seq<OsCall>, string) -> bv32,
    output: (seq<OsCall>, string) -> string)

  /** One piece of console output. Perror(p) is perror(p): p, a colon and the text of
      errno on standard error; the errno text is not modelled. */
  datatype Out = Stdout(text: string) | Stderr(text: string) | Perror(prefix: string)
    /** whatever the named handler, which this model does not follow, prints */
    | Untraced(handler: Command)

  /** What one handler does: the calls it makes, in order, and what it prints, in order. */
  datatype Effect = Effect(calls: seq<OsCall>, out: seq<Out>)

  /** The strings of a token vector after the command name: args[1], args[2], ... */
  function Operands(args: seq<Option<string>>): (ops: seq<string>)
    requires IsArgVector(args) && args[0].Some?
    ensures |ops| == Argc(args) - 1
    ensures forall k :: 0 <= k < |ops| ==> args[k + 1] == Some(ops[k])
  {
    Argv(args)[1..]
  }

  // ---------------------------------------------------------------- snprintf

  /** snprintf into a buffer of `size` bytes: at most size - 1 characters are kept. */
  function Snprintf(s: string, size: nat): (r: string)
    requires size > 0
    ensures |r| <= |s| && |r| < size && r == s[..|r|]
    ensures |s| < size ==> r == s
    ensures |s| >= size ==> |r| == size - 1
  {
    if |s| < size then s else s[..size - 1]
  }

  /** The command custom_locate hands to system, formatted into a 256-byte buffer: the
      find command line, cut to 255 characters when it is longer. */
  function FindCommand(name: string): (cmd: string)
    ensures |cmd| <= 255 && cmd <= "find . -name " + name + " -type f"
    ensures |name| <= 234 <==> cmd == "find . -name " + name + " -type f"
  {
    Snprintf("find . -name " + name + " -type f", 256)
  }

  /** The command custom_ping hands to popen, formatted into a 256-byte buffer: the ping
      command line, cut to 255 characters when it is longer. */
  function PingCommand(host: string): (cmd: string)
    ensures |cmd| <= 255 && cmd <= "ping -c 4 " + host
    ensures |host| <= 245 <==> cmd == "ping -c 4 " + host
  {
    Snprintf("ping -c 4 " + host, 256)
  }

  // ---------------------------------------------------------------- echo

  /** Every word followed by one space. */
  function Spaced(ws: seq<string>): string {
    if ws == [] then [] else Spaced(ws[..|ws| - 1]) + ws[|ws| - 1] + " "
  }

  /** What mecho prints: each operand and a space, then a newline. */
  function EchoText(ws: seq<string>): string {
    Spaced(ws) + "\n"
  }

  /** custom_echo: prints args[1], args[2], ... each followed by a space, then "\n". */
  method CustomEcho(args: array<Option<string>>) returns (e: Effect)
    requires IsArgVector(args[..]) && args[0].Some?
    ensures e == Effect([], [Stdout(EchoText(Operands(args[..])))])
  {
    ghost var ops := Operands(args[..]);
    var text := "";
    var i := 1;
    while args[i] != None
      invariant 1 <= i <= Argc(args[..])
      invariant text == Spaced(ops[..i - 1])
      decreases Argc(args[..]) - i
    {
      assert ops[..i] == ops[..i - 1] + [args[i].value];
      text := text + args[i].value + " ";
      i := i + 1;
    }
    assert ops[..i - 1] == ops;
    e := Effect([], [Stdout(text + "\n")]);
  }

  lemma SpacedEnd(ws: seq<string>)
    ensures Spaced(ws) == [] || IsDelim(Spaced(ws)[|Spaced(ws)| - 1])
  {
  }

  /** A word and a space appended after a delimiter add that word as the last token. */
  lemma TokensWordSpace(a: string, word: string)
    requires a == [] || IsDelim(a[|a| - 1])
    requires IsWord(word)
    ensures Tokens(a + (word + " ")) == Tokens(a) + [word]
  {
    TokensConcat(a, word + " ");
    TokensWordThen(word, " ");
    assert Tokens(" ") == [] by {
      assert " "[1..] == "";
    }
  }

  lemma SpacedSnoc(ws: seq<string>, word: string)
    ensures Spaced(ws + [word]) == Spaced(ws) + (word + " ")
  {
    assert (ws + [word])[..|ws|] == ws;
  }

  /** One more word keeps the round trip. */
  lemma SpacedStep(init: seq<string>, last: string)
    requires Tokens(Spaced(init)) == init && IsWord(last)
    ensures Tokens(Spaced(init + [last])) == init + [last]
  {
    SpacedEnd(init);
    SpacedSnoc(init, last);
    TokensWordSpace(Spaced(init), last);
  }

  /** The operands, each followed by a space, read back as a command line give the
      operands again. */
  lemma {:induction false} SpacedRoundTrip(ws: seq<string>)
    requires forall k :: 0 <= k < |ws| ==> IsWord(ws[k])
    ensures Tokens(Spaced(ws)) == ws
    decreases |ws|
  {
    if ws != [] {
      var init := ws[..|ws| - 1];
      SpacedRoundTrip(init);
      SpacedStep(init, ws[|ws| - 1]);
      assert init + [ws[|ws| - 1]] == ws;
    }
  }

  /** Echo's output read back as a command line gives the operands again: the words
      are kept, in order, and one space separates them. */
  lemma EchoRoundTrip(ws: seq<string>)
    requires forall k :: 0 <= k < |ws| ==> IsWord(ws[k])
    ensures Tokens(EchoText(ws)) == ws
  {
    SpacedRoundTrip(ws);
    SpacedEnd(ws);
    TokensConcat(Spaced(ws), "\n");
    assert Tokens("\n") == [] by {
      assert "\n"[1..] == "";
    }
  }

  // ---------------------------------------------------------------- file types

  /** The file-type field of st_mode and its values, as in Linux's <sys/stat.h>. */
  const S_IFMT: bv32 := 0xF000
  const S_IFREG: bv32 := 0x8000
  const S_IFDIR: bv32 := 0x4000
  const S_IFLNK: bv32 := 0xA000

  predicate IsRegular(mode: bv32) { mode & S_IFMT == S_IFREG }
  predicate IsDirectory(mode: bv32) { mode & S_IFMT == S_IFDIR }
  predicate IsSymlink(mode: bv32) { mode & S_IFMT == S_IFLNK }

  /** The label custom_file prints: regular file, else directory, else symbolic link,
      else unknown, checked in that order. */
  function FileLabel(mode: bv32): string {
    if IsRegular(mode) then "regular file"
    else if IsDirectory(mode) then "directory"
    else if IsSymlink(mode) then "symbolic link"
    else "unknown file type"
  }

  /** Each label names exactly the file type it is printed for; since the three types
      exclude each other, the order of the tests never hides one behind another. */
  lemma FileLabelMeaning(mode: bv32)
    ensures FileLabel(mode) == "regular file" <==> IsRegular(mode)
    ensures FileLabel(mode) == "directory" <==> IsDirectory(mode)
    ensures FileLabel(mode) == "symbolic link" <==> IsSymlink(mode)
    ensures FileLabel(mode) == "unknown file type" <==>
      !IsRegular(mode) && !IsDirectory(mode) && !IsSymlink(mode)
    ensures !(IsRegular(mode) && IsDirectory(mode)) && !(IsRegular(mode) && IsSymlink(mode))
    ensures !(IsDirectory(mode) && IsSymlink(mode))
  {
    assert "regular file" != "directory" && "regular file" != "symbolic link";
    assert "regular file" != "unknown file type" && "directory" != "symbolic link";
    assert "directory" != "unknown file type" && "symbolic link" != "unknown file type";
  }

  /** The label depends on the file-type field only, not on permission bits. */
  lemma FileLabelIgnoresPermissions(mode: bv32, other: bv32)
    requires mode & S_IFMT == other & S_IFMT
    ensures FileLabel(mode) == FileLabel(other)
  {
  }

  // ---------------------------------------------------------------- per-argument handlers

  /** The handlers that print a usage message without arguments and otherwise make one
      call per argument: mmkdir, mrmdir, mrm, mtouch, mlocate and mfile. */
  predicate PerArgument(c: Command) {
    c in {Mkdir, Rmdir, Rm, Touch, Locate, File}
  }

  /** The usage message each of them prints on standard error: it starts with "usage: "
      and ends with a newline. */
  function Usage(c: Command): (u: string)
    requires PerArgument(c)
    ensures |u| > 7 && u[..7] == "usage: " && u[|u| - 1] == '\n'
  {
    var synopsis := match c
      case Mkdir => "mkdir [-pv] [-m mode] directory_name ..."
      case Rmdir => "rmdir directory_name ..."
      case Rm => "rm file_name ..."
      case Touch => "touch file_name ..."
      case Locate => "locate file_name ..."
      case File => "file file_name ...";
    "usage: " + synopsis + "\n"
  }

  /** The call made for one argument: on the operand as a path, except for locate,
      which runs find on it. */
  function CallFor(c: Command, arg: string): (call: OsCall)
    requires PerArgument(c)
    ensures call.System? || call.MakeDir? || call.RemoveDir? || call.Remove? ||
      call.CreateExclusive? || call.Stat?
    ensures call.System? <==> c == Locate
    ensures call.System? ==> call.command == FindCommand(arg)
    ensures !call.System? ==> call.path == arg
  {
    match c
    case Mkdir => MakeDir(arg)
    case Rmdir => RemoveDir(arg)
    case Rm => Remove(arg)
    case Touch => CreateExclusive(arg)
    case Locate => System(FindCommand(arg))
    case File => Stat(arg)
  }

  /** The line mfile prints for one operand: the operand with its label, or the stat
      error. */
  function FileLine(arg: string, past: seq<OsCall>, w: World): Out {
    if w.succeeds(past, Stat(arg)) then Stdout(arg + ": " + FileLabel(w.mode(past, arg)) + "\n") else Perror("shell")
  }

  /** What is printed for one argument: locate prints nothing itself (find writes to the
      terminal); file prints the label or the stat error; the others print an error
      only when their call fails. */
  function Report(c: Command, arg: string, past: seq<OsCall>, w: World): (out: seq<Out>)
    requires PerArgument(c)
    ensures c == Locate ==> out == []
    ensures c != Locate && !w.succeeds(past, CallFor(c, arg)) ==> out == [Perror("shell")]
    ensures c !in {Locate, File} && w.succeeds(past, CallFor(c, arg)) ==> out == []
    ensures c == File && w.succeeds(past, CallFor(c, arg)) ==>
      out == [Stdout(arg + ": " + FileLabel(w.mode(past, arg)) + "\n")]
  {
    if c == Locate then []
    else if c == File then [FileLine(arg, past, w)]
    else if !w.succeeds(past, CallFor(c, arg)) then [Perror("shell")]
    else []
  }

  /** The calls made for the operands: one per operand, in order. */
  function Calls(c: Command, ops: seq<string>): (calls: seq<OsCall>)
    requires PerArgument(c)
    ensures |calls| == |ops|
    ensures forall k :: 0 <= k < |ops| ==> calls[k] == CallFor(c, ops[k])
  {
    seq(|ops|, k requires 0 <= k < |ops| => CallFor(c, ops[k]))
  }

  /** What is printed for the operands, argument after argument; each call meets the
      world the calls before it (earlier in the session, then for earlier operands)
      left behind. */
  function Reports(c: Command, ops: seq<string>, past: seq<OsCall>, w: World): seq<Out>
    requires PerArgument(c)
  {
    if ops == [] then []
    else
      var init := ops[..|ops| - 1];
      Reports(c, init, past, w) + Report(c, ops[|ops| - 1], past + Calls(c, init), w)
  }

  /** One more operand appends its own report, made after the calls for the others. */
  lemma ReportsSnoc(c: Command, ops: seq<string>, arg: string, past: seq<OsCall>, w: World)
    requires PerArgument(c)
    ensures Reports(c, ops + [arg], past, w) == Reports(c, ops, past, w) + Report(c, arg, past + Calls(c, ops), w)
  {
    assert (ops + [arg])[..|ops|] == ops;
  }

  /** What the handler does without and with operands. */
  function PerArgumentEffect(c: Command, ops: seq<string>, past: seq<OsCall>, w: World): Effect
    requires PerArgument(c)
  {
    if ops == [] then Effect([], [Stderr(Usage(c))]) else Effect(Calls(c, ops), Reports(c, ops, past, w))
  }

  /** The calls made and the lines printed for the first n operands. */
  ghost predicate Handled(c: Command, ops: seq<string>, n: nat, past: seq<OsCall>,
                          calls: seq<OsCall>, out: seq<Out>, w: World)
    requires PerArgument(c)
  {
    n <= |ops| && calls == Calls(c, ops[..n]) && out == Reports(c, ops[..n], past, w)
  }

  /** Handling operand n after the first n extends both records by that operand's,
      its call made after all the earlier ones. */
  lemma HandledNext(c: Command, ops: seq<string>, n: nat, past: seq<OsCall>,
                    calls: seq<OsCall>, out: seq<Out>, w: World)
    requires PerArgument(c) && Handled(c, ops, n, past, calls, out, w) && n < |ops|
    ensures Handled(c, ops, n + 1, past, calls + [CallFor(c, ops[n])],
                    out + Report(c, ops[n], past + calls, w), w)
  {
    var init := ops[..n];
    assert ops[..n + 1] == init + [ops[n]];
    assert Calls(c, ops[..n + 1]) == calls + [CallFor(c, ops[n])];
    assert Reports(c, ops[..n + 1], past, w) == out + Report(c, ops[n], past + calls, w) by {
      ReportsSnoc(c, init, ops[n], past, w);
    }
  }

  /** custom_mkdir, custom_rmdir, custom_rm, custom_touch, custom_locate and custom_file:
      without an operand, the usage message and no call at all; otherwise each operand,
      from args[1] to the sentinel, handled once and in order. */
  method RunPerArgument(c: Command, args: array<Option<string>>, past: seq<OsCall>, w: World)
      returns (e: Effect)
    requires PerArgument(c)
    requires IsArgVector(args[..]) && args[0].Some?
    ensures Operands(args[..]) == [] ==> e == Effect([], [Stderr(Usage(c))])
    ensures Operands(args[..]) != [] ==>
      e == Effect(Calls(c, Operands(args[..])), Reports(c, Operands(args[..]), past, w))
  {
    ghost var ops := Operands(args[..]);
    if args[1] == None {
      return Effect([], [Stderr(Usage(c))]);
    }
    var calls: seq<OsCall> := [];
    var out: seq<Out> := [];
    var i := 1;
    while args[i] != None
      invariant 1 <= i <= Argc(args[..])
      invariant Handled(c, ops, i - 1, past, calls, out, w)
      decreases Argc(args[..]) - i
    {
      var arg := args[i].value;
      assert arg == ops[i - 1];
      HandledNext(c, ops, i - 1, past, calls, out, w);
      out := out + Report(c, arg, past + calls, w);
      calls := calls + [CallFor(c, arg)];
      i := i + 1;
    }
    assert ops[..i - 1] == ops;
    e := Effect(calls, out);
  }

  /** How many operands' calls fail, each call meeting the world the calls before it
      left behind. */
  function Failures(c: Command, ops: seq<string>, past: seq<OsCall>, w: World): nat
    requires PerArgument(c)
  {
    if ops == [] then 0
    else
      var init := ops[..|ops| - 1];
      Failures(c, init, past, w) + (if w.succeeds(past + Calls(c, init), CallFor(c, ops[|ops| - 1])) then 0 else 1)
  }

  /** mkdir, rmdir, rm and touch are silent on success and print one perror("shell")
      per failed call. */
  lemma {:induction false} ReportsAreFailures(c: Command, ops: seq<string>, past: seq<OsCall>, w: World)
    requires c in {Mkdir, Rmdir, Rm, Touch}
    ensures Reports(c, ops, past, w) == seq(Failures(c, ops, past, w), _ => Perror("shell"))
    decreases |ops|
  {
    if ops != [] {
      ReportsAreFailures(c, ops[..|ops| - 1], past, w);
    }
  }

  /** A world where creating or removing a path fails exactly when the same call was
      made before: the file system remembers what earlier calls did to it. */
  function Remembering(): (w: World)
    ensures forall past, call :: w.succeeds(past, call) <==> call !in past
  {
    World((past: seq<OsCall>, call: OsCall) => call !in past, (past, path) => 0, (past, cmd) => "")
  }

  /** `mmkdir a a`: the first mkdir creates the directory and the second, meeting it,
      fails, so exactly one perror is printed. */
  lemma RepeatedOperandFailsOnce()
    ensures Reports(Mkdir, ["a", "a"], [], Remembering()) == [Perror("shell")]
  {
    var w := Remembering();
    var ops: seq<string> := ["a", "a"];
    assert ops[..1] == ["a"] && ["a"][..0] == [];
    assert Calls(Mkdir, ["a"]) == [MakeDir("a")];
    assert Reports(Mkdir, [], [], w) == [];
    assert Reports(Mkdir, ["a"], [], w) == [];
    assert Reports(Mkdir, ops, [], w) == Reports(Mkdir, ["a"], [], w) + Report(Mkdir, "a", [MakeDir("a")], w);
  }


  /** `out` holds one mfile line per operand, each made after the calls for the
      operands before it. */
  ghost predicate FileLines(ops: seq<string>, past: seq<OsCall>, w: World, out: seq<Out>) {
    |out| == |ops| &&
    forall k :: 0 <= k < |ops| ==> out[k] == FileLine(ops[k], past + Calls(File, ops[..k]), w)
  }

  /** The report mfile gives for one operand is its line. */
  lemma FileReport(arg: string, past: seq<OsCall>, w: World)
    ensures Report(File, arg, past, w) == [FileLine(arg, past, w)]
  {
  }

  /** The line for the last operand, after the lines for the others. */
  lemma FileLinesSnoc(ops: seq<string>, past: seq<OsCall>, w: World, out: seq<Out>, line: Out)
    requires ops != [] && FileLines(ops[..|ops| - 1], past, w, out)
    requires line == FileLine(ops[|ops| - 1], past + Calls(File, ops[..|ops| - 1]), w)
    ensures FileLines(ops, past, w, out + [line])
  {
    var n := |ops| - 1;
    forall k | 0 <= k < |ops|
      ensures (out + [line])[k] == FileLine(ops[k], past + Calls(File, ops[..k]), w)
    {
      if k < n {
        assert ops[..n][..k] == ops[..k] && ops[..n][k] == ops[k];
      }
    }
  }

  /** The last operand adds its own line after the others'. */
  lemma FileReportsStep(ops: seq<string>, past: seq<OsCall>, w: World)
    requires ops != []
    requires FileLines(ops[..|ops| - 1], past, w, Reports(File, ops[..|ops| - 1], past, w))
    ensures FileLines(ops, past, w, Reports(File, ops, past, w))
  {
    var init := ops[..|ops| - 1];
    var line := FileLine(ops[|ops| - 1], past + Calls(File, init), w);
    FileReport(ops[|ops| - 1], past + Calls(File, init), w);
    assert Reports(File, ops, past, w) == Reports(File, init, past, w) + [line];
    FileLinesSnoc(ops, past, w, Reports(File, init, past, w), line);
  }

  /** mfile prints exactly one line per operand, in order: the operand with its label,
      or the stat error, as the world stands after the calls for the operands before it. */
  lemma {:induction false} FileReportsPerOperand(ops: seq<string>, past: seq<OsCall>, w: World)
    ensures |Reports(File, ops, past, w)| == |ops|
    ensures forall k :: 0 <= k < |ops| ==>
      Reports(File, ops, past, w)[k] == FileLine(ops[k], past + Calls(File, ops[..k]), w)
    decreases |ops|
  {
    if ops != [] {
      FileReportsPerOperand(ops[..|ops| - 1], past, w);
      FileReportsStep(ops, past, w);
    }
    assert FileLines(ops, past, w, Reports(File, ops, past, w));
  }

  /** mlocate prints nothing itself: each operand becomes one find command, run through
      system() in order, whatever the world answers. */
  lemma {:induction false} LocateIsSilent(ops: seq<string>, past: seq<OsCall>, w: World)
    ensures Reports(Locate, ops, past, w) == []
    ensures PerArgumentEffect(Locate, ops, past, w).calls == seq(|ops|, k requires 0 <= k < |ops| => System(FindCommand(ops[k])))
    decreases |ops|
  {
    if ops != [] {
      LocateIsSilent(ops[..|ops| - 1], past, w);
    }
  }

  // ---------------------------------------------------------------- single-argument handlers

  /** custom_cd on the tokens of a line (args[0] the command name): without args[1], a
      diagnostic and no chdir; otherwise chdir(args[1]), with later arguments ignored. */
  function CustomCd(args: seq<string>, past: seq<OsCall>, w: World): (e: Effect)
    ensures |args| < 2 <==> e.calls == []
    ensures |args| < 2 ==> e.out == [Stderr("shell: expected argument to \"cd\"\n")]
    ensures |args| >= 2 ==>
      e.calls == [Chdir(args[1])] &&
      (e.out == [] <==> w.succeeds(past, Chdir(args[1]))) &&
      (e.out != [] ==> e.out == [Perror("shell")])
  {
    if |args| < 2 then Effect([], [Stderr("shell: expected argument to \"cd\"\n")])
    else
      var call := Chdir(args[1]);
      Effect([call], if w.succeeds(past, call) then [] else [Perror("shell")])
  }

  /** custom_rename: both names are needed; without them, a usage message on standard
      output and no rename. */
  function CustomRename(args: seq<string>, past: seq<OsCall>, w: World): (e: Effect)
    ensures |args| < 3 <==> e.calls == []
    ensures |args| < 3 ==> e.out == [Stdout("Usage: rename <old_filename> <new_filename>\n")]
    ensures |args| >= 3 ==>
      var call := RenameFile(args[1], args[2]);
      e.calls == [call] &&
      e.out == [if w.succeeds(past, call) then Stdout("File renamed successfully.\n")
                else Perror("Error renaming file")]
  {
    if |args| < 3 then
      Effect([], [Stdout("Usage: rename <old_filename> <new_filename>\n")])
    else
      var call := RenameFile(args[1], args[2]);
      Effect([call], [if w.succeeds(past, call) then Stdout("File renamed successfully.\n")
                      else Perror("Error renaming file")])
  }

  /** The text popen'd output is forwarded as: every fgets chunk printed as it is. */
  function Forward(chunks: seq<string>): (out: seq<Out>)
    ensures |out| == |chunks|
    ensures forall k :: 0 <= k < |chunks| ==> out[k] == Stdout(chunks[k])
  {
    seq(|chunks|, k requires 0 <= k < |chunks| => Stdout(chunks[k]))
  }

  /** custom_ping: without args[1], a usage message and no process; otherwise one
      "ping -c 4 <host>" run through popen, its output forwarded line by line. */
  function CustomPing(args: seq<string>, past: seq<OsCall>, w: World): (e: Effect)
    ensures |args| < 2 <==> e.calls == []
    ensures |args| < 2 ==> e.out == [Stdout("Usage: ping <hostname>\n")]
    ensures |args| >= 2 ==>
      var cmd := PingCommand(args[1]);
      e.calls == [Popen(cmd)] &&
      e.out == if w.succeeds(past, Popen(cmd)) then Forward(Chunks(w.output(past, cmd), 256))
               else [Perror("shell")]
  {
    if |args| < 2 then Effect([], [Stdout("Usage: ping <hostname>\n")])
    else
      var cmd := PingCommand(args[1]);
      Effect([Popen(cmd)], if w.succeeds(past, Popen(cmd)) then Forward(Chunks(w.output(past, cmd), 256))
                           else [Perror("shell")])
  }

  /** custom_edit: without args[1], a usage message; if the file cannot be opened for
      writing, a diagnostic; otherwise everything left on standard input is written to
      the file. The flag says whether the rest of the input was consumed. */
  function CustomEdit(args: seq<string>, past: seq<OsCall>, w: World, rest: string): (r: (Effect, bool))
    ensures |args| < 2 ==> r == (Effect([], [Stdout("Usage: edit <filename>\n")]), false)
    ensures r.1 <==> |args| >= 2 && w.succeeds(past, OpenForWrite(args[1]))
    ensures |args| >= 2 && !r.1 ==>
      r.0 == Effect([OpenForWrite(args[1])], [Perror("Error opening file")])
    ensures r.1 ==> r.0 == Effect([OpenForWrite(args[1]), WriteFile(args[1], rest)],
                                  [Stdout("Enter the content (press Ctrl+D to finish):\n"),
                                   Stdout("File edited successfully.\n")])
  {
    if |args| < 2 then (Effect([], [Stdout("Usage: edit <filename>\n")]), false)
    else
      var path := args[1];
      if !w.succeeds(past, OpenForWrite(path)) then
        (Effect([OpenForWrite(path)], [Perror("Error opening file")]), false)
      else
        (Effect([OpenForWrite(path), WriteFile(path, rest)],
                [Stdout("Enter the content (press Ctrl+D to finish):\n"),
                 Stdout("File edited successfully.\n")]), true)
  }

  // ---------------------------------------------------------------- fgets and jobs

  /** How many characters one fgets(buf, size, fp) call takes from `s`: up to and
      including the first newline, and at most size - 1. */
  function FgetsLen(s: string, size: nat): (n: nat)
    requires s != [] && size > 1
    ensures 0 < n <= |s| && n < size
    ensures forall k :: 0 <= k < n - 1 ==> s[k] != '\n'
    ensures n < |s| && n < size - 1 ==> s[n - 1] == '\n'
  {
    if s[0] == '\n' || |s| == 1 || size == 2 then 1 else 1 + FgetsLen(s[1..], size - 1)
  }

  /** The chunks successive fgets calls return for a stream. */
  function Chunks(s: string, size: nat): (cs: seq<string>)
    requires size > 1
    ensures forall k :: 0 <= k < |cs| ==> 0 < |cs[k]| < size
    decreases |s|
  {
    if s == [] then [] else
      var n := FgetsLen(s, size);
      [s[..n]] + Chunks(s[n..], size)
  }

  function Concat(cs: seq<string>): string {
    if cs == [] then [] else cs[0] + Concat(cs[1..])
  }

  lemma ConcatCons(c: string, cs: seq<string>)
    ensures Concat([c] + cs) == c + Concat(cs)
  {
    assert ([c] + cs)[1..] == cs;
  }

  /** Nothing is lost or reordered by reading a stream in fgets chunks. */
  lemma {:induction false} ChunksConcat(s: string, size: nat)
    requires size > 1
    ensures Concat(Chunks(s, size)) == s
    decreases |s|
  {
    if s != [] {
      var n := FgetsLen(s, size);
      var later := Chunks(s[n..], size);
      assert Concat(later) == s[n..] by { ChunksConcat(s[n..], size); }
      assert Concat(Chunks(s, size)) == s[..n] + Concat(later) by {
        assert Chunks(s, size) == [s[..n]] + later;
        ConcatCons(s[..n], later);
      }
      assert s == s[..n] + s[n..];
    }
  }

  /** `needle` occurs in `haystack` starting at index i. */
  predicate OccursAt(haystack: string, needle: string, i: int) {
    0 <= i <= |haystack| - |needle| && haystack[i..i + |needle|] == needle
  }

  /** strstr(haystack, needle) != NULL. */
  predicate Contains(haystack: string, needle: string) {
    exists i :: 0 <= i <= |haystack| - |needle| && OccursAt(haystack, needle, i)
  }

  /** The chunks custom_jobs prints: those in which strstr finds "shell", in order. */
  function KeepShell(cs: seq<string>): (kept: seq<string>)
    ensures |kept| <= |cs|
    ensures forall k :: 0 <= k < |kept| ==> Contains(kept[k], "shell")
  {
    if cs == [] then []
    else (if Contains(cs[0], "shell") then [cs[0]] else []) + KeepShell(cs[1..])
  }

  /** The filter keeps exactly the chunks that contain "shell". */
  lemma {:induction false} KeepShellMembers(cs: seq<string>)
    ensures forall x :: x in KeepShell(cs) <==> x in cs && Contains(x, "shell")
    decreases |cs|
  {
    if cs != [] {
      KeepShellMembers(cs[1..]);
      assert forall x :: x in cs <==> x == cs[0] || x in cs[1..];
    }
  }

  lemma ForwardSnoc(cs: seq<string>, c: string)
    ensures Forward(cs + [c]) == Forward(cs) + [Stdout(c)]
  {
  }

  /** The state of the fgets/strstr loop: `kept` are the chunks printed so far, and
      the chunks of `rest`, still unread, hold the ones left to print. */
  ghost predicate Printing(stream: string, rest: string, kept: seq<string>, printed: seq<Out>) {
    KeepShell(Chunks(stream, 256)) == kept + KeepShell(Chunks(rest, 256)) &&
    printed == Forward(kept)
  }

  /** The filter on a stream: its first chunk if that contains "shell", then the rest. */
  lemma KeepShellFirst(rest: string)
    requires rest != []
    ensures var n := FgetsLen(rest, 256);
      KeepShell(Chunks(rest, 256)) ==
        (if Contains(rest[..n], "shell") then [rest[..n]] else []) + KeepShell(Chunks(rest[n..], 256))
  {
    var n := FgetsLen(rest, 256);
    var cs := Chunks(rest, 256);
    assert cs == [rest[..n]] + Chunks(rest[n..], 256);
    assert cs[0] == rest[..n] && cs[1..] == Chunks(rest[n..], 256);
  }

  /** Printing a chunk that contains "shell" keeps the loop state. */
  lemma PrintingKeep(stream: string, rest: string, n: nat, kept: seq<string>, printed: seq<Out>)
    requires rest != [] && n == FgetsLen(rest, 256) && Contains(rest[..n], "shell")
    requires Printing(stream, rest, kept, printed)
    ensures Printing(stream, rest[n..], kept + [rest[..n]], printed + [Stdout(rest[..n])])
  {
    var later := KeepShell(Chunks(rest[n..], 256));
    KeepShellFirst(rest);
    ForwardSnoc(kept, rest[..n]);
    assert kept + ([rest[..n]] + later) == (kept + [rest[..n]]) + later;
  }

  /** Skipping a chunk without "shell" keeps the loop state. */
  lemma PrintingSkip(stream: string, rest: string, n: nat, kept: seq<string>, printed: seq<Out>)
    requires rest != [] && n == FgetsLen(rest, 256) && !Contains(rest[..n], "shell")
    requires Printing(stream, rest, kept, printed)
    ensures Printing(stream, rest[n..], kept, printed)
  {
    var later := KeepShell(Chunks(rest[n..], 256));
    KeepShellFirst(rest);
    assert [] + later == later;
  }

  /** The fgets/strstr loop of custom_jobs: reads the pipe chunk by chunk until it is
      drained and prints the chunks that contain "shell". */
  method PrintShellChunks(stream: string) returns (printed: seq<Out>)
    ensures printed == Forward(KeepShell(Chunks(stream, 256)))
  {
    // `rest` is what is still unread on the pipe
    var rest := stream;
    ghost var kept: seq<string> := [];
    printed := [];
    while rest != []
      invariant Printing(stream, rest, kept, printed)
      decreases |rest|
    {
      var n := FgetsLen(rest, 256);
      var chunk := rest[..n];
      if Contains(chunk, "shell") {
        PrintingKeep(stream, rest, n, kept, printed);
        printed := printed + [Stdout(chunk)];
        kept := kept + [chunk];
      } else {
        PrintingSkip(stream, rest, n, kept, printed);
      }
      rest := rest[n..];
    }
    assert kept + [] == kept;
  }

  /** What custom_jobs does: one popen of "ps -ef" and the heading, then the fgets chunks
      of its output that contain "shell", or perror when popen fails. */
  function JobsEffect(past: seq<OsCall>, w: World): Effect {
    Effect([Popen("ps -ef")], [Stdout("List of background processes:\n")] +
      if w.succeeds(past, Popen("ps -ef")) then Forward(KeepShell(Chunks(w.output(past, "ps -ef"), 256)))
      else [Perror("shell")])
  }

  /** custom_jobs: a heading, then the chunks of "ps -ef" that contain "shell", or the
      popen error. */
  method CustomJobs(past: seq<OsCall>, w: World) returns (e: Effect)
    ensures e == JobsEffect(past, w)
  {
    var heading := Stdout("List of background processes:\n");
    if !w.succeeds(past, Popen("ps -ef")) {
      return Effect([Popen("ps -ef")], [heading, Perror("shell")]);
    }
    var printed := PrintShellChunks(w.output(past, "ps -ef"));
    e := Effect([Popen("ps -ef")], [heading] + printed);
  }
}
