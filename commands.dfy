/**
 * The command table of main: the chain of exact string comparisons of args[0] with
 * fixed names, the first match winning, and the handlers each branch calls.
 */
module Commands {
  import opened Wrappers

  /** One branch of the dispatch chain, in the order of the chain. */
  datatype Command =
    | Echo | Cd | Ls | Pwd | Uname | Mkdir | Clear | Rmdir | Rm | Touch | Locate
    | File | Df | Ps | Hostname | Time | Date | Exit | Kill | Netstat | Ping
    | DateTime | Jobs | Top | Ifconfig | Who | Cal | Rename | Edit | Shutdown | Restart

  /** The name each branch compares against (the date command is spelled "ndate"). */
  function NameOf(c: Command): string {
    match c
    case Echo => "mecho"
    case Cd => "mcd"
    case Ls => "mls"
    case Pwd => "mpwd"
    case Uname => "muname"
    case Mkdir => "mmkdir"
    case Clear => "mclear"
    case Rmdir => "mrmdir"
    case Rm => "mrm"
    case Touch => "mtouch"
    case Locate => "mlocate"
    case File => "mfile"
    case Df => "mdf"
    case Ps => "mps"
    case Hostname => "mhostname"
    case Time => "mtime"
    case Date => "ndate"
    case Exit => "mexit"
    case Kill => "mkill"
    case Netstat => "mnetstat"
    case Ping => "mping"
    case DateTime => "datetime"
    case Jobs => "mjobs"
    case Top => "mtop"
    case Ifconfig => "mifconfig"
    case Who => "mwho"
    case Cal => "mcal"
    case Rename => "mrename"
    case Edit => "medit"
    case Shutdown => "mshutdown"
    case Restart => "mrestart"
  }

  /** The branches of the chain in the order main tests them. */
  const Chain: seq<Command> := [
    Echo, Cd, Ls, Pwd, Uname, Mkdir, Clear, Rmdir, Rm, Touch, Locate,
    File, Df, Ps, Hostname, Time, Date, Exit, Kill, Netstat, Ping,
    DateTime, Jobs, Top, Ifconfig, Who, Cal, Rename, Edit, Shutdown, Restart
  ]

  /** A command's place in the chain. */
  function Branch(c: Command): (i: nat)
    ensures i < |Chain| && Chain[i] == c
  {
    match c
    case Echo => 0
    case Cd => 1
    case Ls => 2
    case Pwd => 3
    case Uname => 4
    case Mkdir => 5
    case Clear => 6
    case Rmdir => 7
    case Rm => 8
    case Touch => 9
    case Locate => 10
    case File => 11
    case Df => 12
    case Ps => 13
    case Hostname => 14
    case Time => 15
    case Date => 16
    case Exit => 17
    case Kill => 18
    case Netstat => 19
    case Ping => 20
    case DateTime => 21
    case Jobs => 22
    case Top => 23
    case Ifconfig => 24
    case Who => 25
    case Cal => 26
    case Rename => 27
    case Edit => 28
    case Shutdown => 29
    case Restart => 30
  }

  /** The chain from branch `from` on: strcmp(name, NameOf(branch)) == 0 checked branch
      after branch, the first match winning; None is the final else, which prints
      "Error not a command". */
  function Lookup(name: string, from: nat): (r: Option<Command>)
    ensures r.Some? ==> NameOf(r.value) == name
    decreases |Chain| - from
  {
    if from >= |Chain| then None
    else if NameOf(Chain[from]) == name then Some(Chain[from])
    else Lookup(name, from + 1)
  }

  /** The whole dispatch chain. */
  function Resolve(name: string): Option<Command> {
    Lookup(name, 0)
  }

  /** A command the scan selects was selected by its own name, and comes no earlier
      than where the scan started. */
  lemma {:induction false} LookupSound(name: string, from: nat)
    requires Lookup(name, from).Some?
    ensures NameOf(Lookup(name, from).value) == name
    ensures Lookup(name, from).value in Chain[from..]
    decreases |Chain| - from
  {
    if from < |Chain| && NameOf(Chain[from]) != name {
      LookupSound(name, from + 1);
      assert Chain[from + 1..] == Chain[from..][1..];
    }
  }

  /** The scan does not miss a branch whose name matches: it stops at that branch or
      at an earlier one with the same name. */
  lemma {:induction false} LookupFinds(name: string, from: nat, k: nat)
    requires from <= k < |Chain| && NameOf(Chain[k]) == name
    ensures Lookup(name, from).Some?
    decreases k - from
  {
    if NameOf(Chain[from]) != name {
      LookupFinds(name, from + 1, k);
    }
  }

  /** The names of branches 1 to 4 differ from every other branch's name. */
  lemma NamesDistinct1(c: Command, d: Command)
    requires c == Echo || c == Cd || c == Ls || c == Pwd
    ensures NameOf(c) == NameOf(d) ==> c == d
  {
  }

  /** The names of branches 5 to 8 differ from every other branch's name. */
  lemma NamesDistinct2(c: Command, d: Command)
    requires c == Uname || c == Mkdir || c == Clear || c == Rmdir
    ensures NameOf(c) == NameOf(d) ==> c == d
  {
  }

  /** The names of branches 9 to 12 differ from every other branch's name. */
  lemma NamesDistinct3(c: Command, d: Command)
    requires c == Rm || c == Touch || c == Locate || c == File
    ensures NameOf(c) == NameOf(d) ==> c == d
  {
  }

  /** The names of branches 13 to 16 differ from every other branch's name. */
  lemma NamesDistinct4(c: Command, d: Command)
    requires c == Df || c == Ps || c == Hostname || c == Time
    ensures NameOf(c) == NameOf(d) ==> c == d
  {
  }

  /** The names of branches 17 to 20 differ from every other branch's name. */
  lemma NamesDistinct5(c: Command, d: Command)
    requires c == Date || c == Exit || c == Kill || c == Netstat
    ensures NameOf(c) == NameOf(d) ==> c == d
  {
  }

  /** The names of branches 21 to 24 differ from every other branch's name. */
  lemma NamesDistinct6(c: Command, d: Command)
    requires c == Ping || c == DateTime || c == Jobs || c == Top
    ensures NameOf(c) == NameOf(d) ==> c == d
  {
  }

  /** The names of branches 25 to 28 differ from every other branch's name. */
  lemma NamesDistinct7(c: Command, d: Command)
    requires c == Ifconfig || c == Who || c == Cal || c == Rename
    ensures NameOf(c) == NameOf(d) ==> c == d
  {
  }

  /** The names of branches 29 to 31 differ from every other branch's name. */
  lemma NamesDistinct8(c: Command, d: Command)
    requires c == Edit || c == Shutdown || c == Restart
    ensures NameOf(c) == NameOf(d) ==> c == d
  {
  }

  /** The names are pairwise distinct, so the first matching branch is the only one. */
  lemma NamesDistinct(c: Command, d: Command)
    ensures NameOf(c) == NameOf(d) ==> c == d
  {
    match c
    case Echo | Cd | Ls | Pwd => NamesDistinct1(c, d);
    case Uname | Mkdir | Clear | Rmdir => NamesDistinct2(c, d);
    case Rm | Touch | Locate | File => NamesDistinct3(c, d);
    case Df | Ps | Hostname | Time => NamesDistinct4(c, d);
    case Date | Exit | Kill | Netstat => NamesDistinct5(c, d);
    case Ping | DateTime | Jobs | Top => NamesDistinct6(c, d);
    case Ifconfig | Who | Cal | Rename => NamesDistinct7(c, d);
    case Edit | Shutdown | Restart => NamesDistinct8(c, d);
  }

  /** A selected command was selected by its own name. */
  lemma ResolveSound(name: string, c: Command)
    requires Resolve(name) == Some(c)
    ensures name == NameOf(c)
  {
    LookupSound(name, 0);
  }

  /** Every command is reached by its own name: no earlier branch shadows a later one. */
  lemma ResolveNameOf(c: Command)
    ensures Resolve(NameOf(c)) == Some(c)
  {
    LookupFinds(NameOf(c), 0, Branch(c));
    LookupSound(NameOf(c), 0);
    NamesDistinct(c, Resolve(NameOf(c)).value);
  }

  /** Exact, case-sensitive match: a name selects a command exactly when it is that
      command's name, and an unmatched name selects nothing. */
  lemma ResolveExact(name: string, c: Command)
    ensures Resolve(name) == Some(c) <==> name == NameOf(c)
    ensures Resolve(name) == None <==> forall d: Command :: NameOf(d) != name
  {
    ResolveNameOf(c);
    if Resolve(name).Some? {
      ResolveSound(name, Resolve(name).value);
    } else {
      forall d: Command ensures NameOf(d) != name {
        ResolveNameOf(d);
      }
    }
  }

  /** The date command is selected by "ndate" and by no other name. */
  lemma DateSpelling(name: string)
    ensures Resolve(name) == Some(Date) <==> name == "ndate"
  {
    ResolveExact(name, Date);
  }

  /** No branch is spelled "mdate". */
  lemma NotMdate(d: Command)
    ensures NameOf(d) != "mdate"
  {
  }

  /** "mdate" is not the date command: it selects nothing. */
  lemma MisspelledDate()
    ensures Resolve("mdate") == None
  {
    forall d: Command ensures NameOf(d) != "mdate" {
      NotMdate(d);
    }
    ResolveExact("mdate", Echo);
  }

  /** No branch is spelled as "mecho" with other case, one letter fewer or one more. */
  lemma NotMechoVariant(d: Command)
    ensures NameOf(d) != "MECHO" && NameOf(d) != "mech" && NameOf(d) != "mechoo"
  {
  }

  /** Case matters and there is no prefix matching: names that differ from "mecho" only
      in case or by a letter more or less select nothing. */
  lemma NoFolding()
    ensures Resolve("MECHO") == None && Resolve("mech") == None && Resolve("mechoo") == None
  {
    forall d: Command
      ensures NameOf(d) != "MECHO" && NameOf(d) != "mech" && NameOf(d) != "mechoo"
    {
      NotMechoVariant(d);
    }
    ResolveExact("MECHO", Echo);
    ResolveExact("mech", Echo);
    ResolveExact("mechoo", Echo);
  }

  /** The handlers each branch calls, in order, named by the command whose own branch
      calls that handler alone; only "datetime" calls more than one. */
  function Invoked(c: Command): (hs: seq<Command>)
    ensures |hs| >= 1 && DateTime !in hs
    ensures |hs| > 1 <==> c == DateTime
    ensures c != DateTime ==> hs == [c]
  {
    if c == DateTime then [Date, Time] else [c]
  }

  /** "datetime" does what "ndate" followed by "mtime" does. */
  lemma DateTimeIsDateThenTime()
    ensures Invoked(DateTime) == Invoked(Date) + Invoked(Time)
  {
  }
}
