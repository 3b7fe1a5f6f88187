/**
 The token loop of the shell (Assignment-2/stshell.c).  argv is one array for
 the whole session, and the two descriptors persist from line to line.  An
 argument is identified by the line and the position of its token; running a
 command is logged with the array it was given.
 */
module Shell {

  const MAX_ARGS: nat := 10

  /** An element of argv: null, the address of a token, or what the stack held before any was stored. */
  datatype Entry = Null | Arg(line: nat, index: nat) | Junk

  /** A descriptor; a redirection is named by the line and the token of its file, if there is one. */
  datatype Fd =
    | Stdin | Stdout | PipeRead(pipe: nat) | PipeWrite(pipe: nat)
    | File(named: bool, line: nat, index: nat, append: bool)

  /** One execute_command. */
  datatype Exec = Exec(argv: seq<Entry>, input: Fd, output: Fd)

  datatype State = State(argv: seq<Entry>, inFd: Fd, outFd: Fd, pipes: nat, log: seq<Exec>)

  predicate WellFormed(s: State) {
    |s.argv| == MAX_ARGS
  }

  predicate IsWord(t: string) {
    t != ">" && t != ">>" && t != "|"
  }

  /** The command as given, with its output into a new pipe, whose other end is the next command's input. */
  function Piped(s: State): State {
    s.(log := s.log + [Exec(s.argv, s.inFd, PipeWrite(s.pipes))],
       inFd := PipeRead(s.pipes), outFd := Stdout, pipes := s.pipes + 1)
  }

  function Redirected(s: State, line: nat, tokens: seq<string>, i: nat, append: bool): State {
    s.(outFd := File(i + 1 < |tokens|, line, i + 1, append))
  }

  /** The loop over the tokens from the i-th on, with argc arguments stored so far. */
  function Parse(s: State, line: nat, tokens: seq<string>, i: nat, argc: nat): (r: (State, nat))
    requires WellFormed(s) && i <= |tokens| && argc < MAX_ARGS
    ensures WellFormed(r.0) && r.1 < MAX_ARGS
    decreases |tokens| - i
  {
    if i == |tokens| || argc >= MAX_ARGS - 1 then (s, argc)
    else if tokens[i] == ">" then (Redirected(s, line, tokens, i, false), argc)
    else if tokens[i] == ">>" then (Redirected(s, line, tokens, i, true), argc)
    else if tokens[i] == "|" then Parse(Piped(s), line, tokens, i + 1, 0)
    else Parse(s.(argv := s.argv[argc := Arg(line, i)]), line, tokens, i + 1, argc + 1)
  }

  /** What follows the loop: terminate argv and run the last command, unless there is none. */
  function Finish(s: State, argc: nat): (r: State)
    requires WellFormed(s) && argc < MAX_ARGS
    ensures WellFormed(r)
  {
    var t := s.(argv := s.argv[argc := Null]);
    if argc == 0 then t
    else t.(log := t.log + [Exec(t.argv, t.inFd, t.outFd)], inFd := Stdin, outFd := Stdout)
  }

  function RunFrom(s: State, line: nat, tokens: seq<string>, i: nat, argc: nat): (r: State)
    requires WellFormed(s) && i <= |tokens| && argc < MAX_ARGS
    ensures WellFormed(r)
  {
    var (t, n) := Parse(s, line, tokens, i, argc);
    Finish(t, n)
  }

  class Session {
    const argv: array<Entry>
    var inFd: Fd
    var outFd: Fd
    var pipes: nat
    var log: seq<Exec>

    ghost function View(): State
      reads this, argv
    {
      State(argv[..], inFd, outFd, pipes, log)
    }

    ghost predicate Valid()
      reads this, argv
    {
      argv.Length == MAX_ARGS
    }

    /** The array starts out uninitialized. */
    constructor ()
      ensures Valid() && fresh(argv)
      ensures View() == State(seq(MAX_ARGS, _ => Junk), Stdin, Stdout, 0, [])
    {
      argv := new Entry[MAX_ARGS](_ => Junk);
      inFd, outFd, pipes, log := Stdin, Stdout, 0, [];
    }

    method ExecuteCommand(input: Fd, output: Fd)
      requires Valid()
      modifies this`log
      ensures log == old(log) + [Exec(argv[..], input, output)]
    {
      log := log + [Exec(argv[..], input, output)];
    }

    /** One line, given the tokens strtok finds in it. */
    method RunLine(line: nat, tokens: seq<string>)
      requires Valid()
      modifies this, argv
      ensures Valid() && View() == RunFrom(old(View()), line, tokens, 0, 0)
    {
      ghost var parsed := Parse(View(), line, tokens, 0, 0);
      var argc, i := 0, 0;
      var redirected := false;
      while !redirected && i < |tokens| && argc < MAX_ARGS - 1
        invariant Valid() && 0 <= i <= |tokens| && 0 <= argc < MAX_ARGS
        invariant if redirected then parsed == (View(), argc) else parsed == Parse(View(), line, tokens, i, argc)
        decreases !redirected, |tokens| - i
      {
        if tokens[i] == ">" {
          outFd := File(i + 1 < |tokens|, line, i + 1, false);
          redirected := true;
        } else if tokens[i] == ">>" {
          outFd := File(i + 1 < |tokens|, line, i + 1, true);
          redirected := true;
        } else {
          if tokens[i] == "|" {
            outFd := PipeWrite(pipes);
            ExecuteCommand(inFd, outFd);
            inFd := PipeRead(pipes);
            outFd := Stdout;
            pipes := pipes + 1;
            argc := 0;
          } else {
            argv[argc] := Arg(line, i);
            argc := argc + 1;
          }
          i := i + 1;
        }
      }
      argv[argc] := Null;
      if argc == 0 {
        return;
      }
      ExecuteCommand(inFd, outFd);
      inFd := Stdin;
      outFd := Stdout;
    }
  }

  // ----------------------------------------------------------- pipelines

  /** The arguments execvp sees: everything up to the first null. */
  function Seen(argv: seq<Entry>): seq<Entry> {
    if argv == [] || argv[0] == Null then [] else [argv[0]] + Seen(argv[1..])
  }

  /** The n tokens of a line from the i-th on. */
  function Args(line: nat, i: nat, n: nat): (a: seq<Entry>)
    ensures |a| == n && forall j :: 0 <= j < n ==> a[j] == Arg(line, i + j)
  {
    seq(n, j requires 0 <= j => Arg(line, i + j))
  }

  lemma {:induction false} SeenArgs(line: nat, i: nat, n: nat, rest: seq<Entry>)
    ensures Seen(Args(line, i, n) + rest) == Args(line, i, n) + Seen(rest)
    decreases n
  {
    var a := Args(line, i, n);
    if n == 0 {
      assert a + rest == rest;
      assert a + Seen(rest) == Seen(rest);
    } else {
      var b, whole := Args(line, i + 1, n - 1), a + rest;
      SeenArgs(line, i + 1, n - 1, rest);
      assert a == [Arg(line, i)] + b;
      assert whole[0] == Arg(line, i) && whole[1..] == b + rest;
      assert [Arg(line, i)] + (b + Seen(rest)) == a + Seen(rest);
    }
  }

  predicate IsRedirect(t: string) {
    t == ">" || t == ">>"
  }

  /**
   From the i-th token on the line is commands of the given lengths with bars between them.  The last one ends with the
   line, at a redirection, or when it has nine arguments.
   */
  predicate IsPipeline(tokens: seq<string>, i: nat, lengths: seq<nat>)
    decreases |lengths|
  {
    && lengths != []
    && i + lengths[0] <= |tokens|
    && (forall j :: i <= j < i + lengths[0] ==> IsWord(tokens[j]))
    && if |lengths| == 1 then
         lengths[0] == 9 ||
         (lengths[0] <= 8 && (i + lengths[0] == |tokens| || IsRedirect(tokens[i + lengths[0]])))
       else
         && lengths[0] <= 8 && i + lengths[0] < |tokens| && tokens[i + lengths[0]] == "|"
         && IsPipeline(tokens, i + lengths[0] + 1, lengths[1..])
  }

  /** Every line is of this form. */
  lemma {:induction false} EveryLineIsPipeline(tokens: seq<string>, i: nat) returns (lengths: seq<nat>)
    requires i <= |tokens|
    ensures IsPipeline(tokens, i, lengths)
    decreases |tokens| - i
  {
    var n := 0;
    while n < 9 && i + n < |tokens| && IsWord(tokens[i + n])
      invariant n <= 9 && i + n <= |tokens| && forall j :: i <= j < i + n ==> IsWord(tokens[j])
    {
      n := n + 1;
    }
    if n < 9 && i + n < |tokens| && tokens[i + n] == "|" {
      var rest := EveryLineIsPipeline(tokens, i + n + 1);
      lengths := [n] + rest;
      assert lengths[1..] == rest;
    } else {
      lengths := [n];
    }
  }

  /** Where the last command's words end. */
  function End(i: nat, lengths: seq<nat>): nat
    requires lengths != []
    decreases |lengths|
  {
    if |lengths| == 1 then i + lengths[0] else End(i + lengths[0] + 1, lengths[1..])
  }

  /** The file a redirection at position p names: `>` truncates it, `>>` appends to it. */
  function Target(line: nat, tokens: seq<string>, p: nat): Fd
    requires p < |tokens|
  {
    File(p + 1 < |tokens|, line, p + 1, tokens[p] == ">>")
  }

  /** Where the last command writes. */
  function LastOutput(s: State, line: nat, tokens: seq<string>, i: nat, lengths: seq<nat>): Fd
    requires lengths != []
  {
    var e := End(i, lengths);
    if lengths[|lengths| - 1] < 9 && e < |tokens| then Target(line, tokens, e)
    else if |lengths| == 1 then s.outFd
    else Stdout
  }

  /** argv with n tokens stored from position `at` on. */
  function Filled(argv: seq<Entry>, at: nat, line: nat, i: nat, n: nat): (r: seq<Entry>)
    requires at + n <= |argv|
    ensures |r| == |argv|
  {
    argv[..at] + Args(line, i, n) + argv[at + n..]
  }

  lemma FilledStep(argv: seq<Entry>, at: nat, line: nat, i: nat, n: nat)
    requires n > 0 && at + n <= |argv|
    ensures Filled(argv[at := Arg(line, i)], at + 1, line, i + 1, n - 1) == Filled(argv, at, line, i, n)
  {
  }

  /** Storing a run of words. */
  lemma {:induction false} ParseWords(s: State, line: nat, tokens: seq<string>, i: nat, argc: nat, n: nat)
    requires WellFormed(s) && i + n <= |tokens| && argc + n < MAX_ARGS
    requires forall j :: i <= j < i + n ==> IsWord(tokens[j])
    ensures Parse(s, line, tokens, i, argc) ==
            Parse(s.(argv := Filled(s.argv, argc, line, i, n)), line, tokens, i + n, argc + n)
    decreases n
  {
    if n == 0 {
      assert Filled(s.argv, argc, line, i, 0) == s.argv;
    } else {
      var t := s.(argv := s.argv[argc := Arg(line, i)]);
      ParseWords(t, line, tokens, i + 1, argc + 1, n - 1);
      FilledStep(s.argv, argc, line, i, n);
    }
  }

  /**
   The executions of a pipeline: in order, each reading the pipe of the one before and writing the next pipe, the last
   one writing `last`.  All but the last see their own tokens followed by what the array held behind them, up to the
   first null.
   */
  predicate Chain(line: nat, i: nat, lengths: seq<nat>, argv: seq<Entry>, input: Fd, last: Fd, pipe: nat,
                  execs: seq<Exec>)
    requires lengths != [] && |argv| == MAX_ARGS
    decreases |lengths|
  {
    var n := lengths[0];
    if |lengths| == 1 then
      if n == 0 then execs == []
      else |execs| == 1 && execs[0].input == input && execs[0].output == last &&
           Seen(execs[0].argv) == Args(line, i, n)
    else
      && execs != [] && n <= MAX_ARGS
      && execs[0].input == input && execs[0].output == PipeWrite(pipe)
      && Seen(execs[0].argv) == Args(line, i, n) + Seen(argv[n..])
      && |execs[0].argv| == MAX_ARGS
      && Chain(line, i + n + 1, lengths[1..], execs[0].argv, PipeRead(pipe), last, pipe + 1, execs[1..])
  }

  /** The input left for the next line: the last pipe if the line ended in a bar. */
  function LeftInput(s: State, lengths: seq<nat>): Fd
    requires lengths != []
  {
    if lengths[|lengths| - 1] != 0 then Stdin
    else if |lengths| == 1 then s.inFd
    else PipeRead(s.pipes + |lengths| - 2)
  }

  lemma LastCommand(s: State, line: nat, tokens: seq<string>, i: nat, n: nat)
    requires WellFormed(s) && IsPipeline(tokens, i, [n])
    ensures var r := RunFrom(s, line, tokens, i, 0); var last := LastOutput(s, line, tokens, i, [n]);
            && s.log <= r.log && Chain(line, i, [n], s.argv, s.inFd, last, s.pipes, r.log[|s.log|..])
            && r.inFd == LeftInput(s, [n]) && r.outFd == (if n == 0 then last else Stdout) && r.pipes == s.pipes
  {
    ParseWords(s, line, tokens, i, 0, n);
    var argv := Filled(s.argv, 0, line, i, n);
    var last := argv[n := Null];
    assert last == Args(line, i, n) + ([Null] + s.argv[n + 1..]);
    SeenArgs(line, i, n, [Null] + s.argv[n + 1..]);
    assert Args(line, i, n) + [] == Args(line, i, n);
  }

  /**
   A line of m bars runs m + 1 commands, or m if there is none behind the last bar: each reads its predecessor's pipe,
   and the last writes the file of a redirection if there is one.  The input goes on to the next line only if the last
   command is missing, and so does the file.
   */
  lemma {:induction false} PipelineRuns(s: State, line: nat, tokens: seq<string>, i: nat, lengths: seq<nat>)
    requires WellFormed(s) && IsPipeline(tokens, i, lengths)
    ensures var r := RunFrom(s, line, tokens, i, 0); var n := lengths[|lengths| - 1];
            var last := LastOutput(s, line, tokens, i, lengths);
            && s.log <= r.log
            && |r.log| == |s.log| + |lengths| - (if n == 0 then 1 else 0)
            && Chain(line, i, lengths, s.argv, s.inFd, last, s.pipes, r.log[|s.log|..])
            && r.inFd == LeftInput(s, lengths)
            && r.outFd == (if n == 0 then last else Stdout)
            && r.pipes == s.pipes + |lengths| - 1
    decreases |lengths|
  {
    var n := lengths[0];
    if |lengths| == 1 {
      assert lengths == [n];
      LastCommand(s, line, tokens, i, n);
    } else {
      FirstCommand(s, line, tokens, i, n);
      PipelineRuns(AfterFirst(s, line, i, n), line, tokens, i + n + 1, lengths[1..]);
      LastStays(s, line, tokens, i, lengths);
      var log := RunFrom(s, line, tokens, i, 0).log;
      ChainCons(line, i, lengths, s, AfterFirst(s, line, i, n), LastOutput(s, line, tokens, i, lengths), log);
    }
  }

  /** What the last command gets and leaves is the same seen from behind the first bar. */
  lemma LastStays(s: State, line: nat, tokens: seq<string>, i: nat, lengths: seq<nat>)
    requires WellFormed(s) && |lengths| > 1 && lengths[0] < MAX_ARGS - 1
    ensures var next, rest := AfterFirst(s, line, i, lengths[0]), lengths[1..];
            && rest[|rest| - 1] == lengths[|lengths| - 1]
            && LastOutput(s, line, tokens, i, lengths) == LastOutput(next, line, tokens, i + lengths[0] + 1, rest)
            && LeftInput(s, lengths) == LeftInput(next, rest)
  {
  }

  /** The state in which the command behind the next bar is read. */
  function AfterFirst(s: State, line: nat, i: nat, n: nat): (next: State)
    requires WellFormed(s) && n < MAX_ARGS - 1
    ensures WellFormed(next)
  {
    Piped(s.(argv := Filled(s.argv, 0, line, i, n)))
  }

  /** The command up to the next bar. */
  lemma FirstCommand(s: State, line: nat, tokens: seq<string>, i: nat, n: nat)
    requires WellFormed(s) && n < MAX_ARGS - 1 && i + n < |tokens| && tokens[i + n] == "|"
    requires forall j :: i <= j < i + n ==> IsWord(tokens[j])
    ensures var next := AfterFirst(s, line, i, n);
            && Seen(next.argv) == Args(line, i, n) + Seen(s.argv[n..])
            && RunFrom(s, line, tokens, i, 0) == RunFrom(next, line, tokens, i + n + 1, 0)
  {
    ParseWords(s, line, tokens, i, 0, n);
    assert Filled(s.argv, 0, line, i, n) == Args(line, i, n) + s.argv[n..];
    SeenArgs(line, i, n, s.argv[n..]);
  }

  lemma ChainCons(line: nat, i: nat, lengths: seq<nat>, s: State, next: State, last: Fd, log: seq<Exec>)
    requires WellFormed(s) && |lengths| > 1 && lengths[0] <= MAX_ARGS
    requires next == Piped(s.(argv := next.argv)) && WellFormed(next)
    requires Seen(next.argv) == Args(line, i, lengths[0]) + Seen(s.argv[lengths[0]..])
    requires next.log <= log
    requires Chain(line, i + lengths[0] + 1, lengths[1..], next.argv, next.inFd, last, next.pipes, log[|next.log|..])
    ensures s.log <= log && Chain(line, i, lengths, s.argv, s.inFd, last, s.pipes, log[|s.log|..])
  {
    var execs := log[|s.log|..];
    assert log[|s.log|] == next.log[|s.log|];
    assert execs[1..] == log[|next.log|..];
  }

  /** Where the reading of a line stops: behind the ninth argument, behind the file of a redirection, or at its end. */
  function ReadUpTo(tokens: seq<string>, i: nat, lengths: seq<nat>): nat
    requires lengths != []
  {
    var e := End(i, lengths);
    if lengths[|lengths| - 1] == 9 || e >= |tokens| then e else if e + 1 < |tokens| then e + 2 else e + 1
  }

  lemma {:induction false} EndInLine(tokens: seq<string>, i: nat, lengths: seq<nat>)
    requires IsPipeline(tokens, i, lengths)
    ensures i <= End(i, lengths) <= |tokens|
    decreases |lengths|
  {
    if |lengths| > 1 {
      EndInLine(tokens, i + lengths[0] + 1, lengths[1..]);
    }
  }

  lemma RestOfLastIgnored(s: State, line: nat, tokens: seq<string>, i: nat, n: nat)
    requires WellFormed(s) && IsPipeline(tokens, i, [n])
    ensures RunFrom(s, line, tokens, i, 0) == RunFrom(s, line, tokens[..ReadUpTo(tokens, i, [n])], i, 0)
  {
    ParseWords(s, line, tokens, i, 0, n);
    ParseWords(s, line, tokens[..ReadUpTo(tokens, i, [n])], i, 0, n);
  }

  /** What stands behind has no effect. */
  lemma {:induction false} RestIgnored(s: State, line: nat, tokens: seq<string>, i: nat, lengths: seq<nat>)
    requires WellFormed(s) && IsPipeline(tokens, i, lengths)
    ensures i <= ReadUpTo(tokens, i, lengths) <= |tokens|
    ensures RunFrom(s, line, tokens, i, 0) == RunFrom(s, line, tokens[..ReadUpTo(tokens, i, lengths)], i, 0)
    decreases |lengths|
  {
    EndInLine(tokens, i, lengths);
    var n, cut := lengths[0], tokens[..ReadUpTo(tokens, i, lengths)];
    if |lengths| == 1 {
      assert lengths == [n];
      RestOfLastIgnored(s, line, tokens, i, n);
    } else {
      EndInLine(tokens, i + n + 1, lengths[1..]);
      assert cut[i + n] == tokens[i + n];
      FirstCommand(s, line, tokens, i, n);
      FirstCommand(s, line, cut, i, n);
      RestIgnored(AfterFirst(s, line, i, n), line, tokens, i + n + 1, lengths[1..]);
    }
  }

  /**
   A single redirected command: it sees exactly its own tokens, reads the current input and writes the file behind the
   redirection, truncated for `>` and extended for `>>`; afterwards both descriptors are the standard ones.  Without
   any word nothing runs, and the file is where the next command will write.
   */
  lemma RedirectedCommand(s: State, line: nat, words: seq<string>, append: bool, file: string, rest: seq<string>)
    requires WellFormed(s) && |words| <= 8 && forall j :: 0 <= j < |words| ==> IsWord(words[j])
    ensures var r := RunFrom(s, line, words + [if append then ">>" else ">"] + [file] + rest, 0, 0);
            var target := File(true, line, |words| + 1, append);
            if words == [] then r.log == s.log && r.inFd == s.inFd && r.outFd == target
            else
              && |r.log| == |s.log| + 1 && r.log[..|s.log|] == s.log
              && Seen(r.log[|s.log|].argv) == Args(line, 0, |words|)
              && r.log[|s.log|].input == s.inFd && r.log[|s.log|].output == target
              && r.inFd == Stdin && r.outFd == Stdout
  {
    var op := if append then ">>" else ">";
    var tokens := words + [op] + [file] + rest;
    assert tokens[|words|] == op && forall j :: 0 <= j < |words| ==> tokens[j] == words[j];
    PipelineRuns(s, line, tokens, 0, [|words|]);
  }

  /** A command before a bar sees exactly its own tokens if and only if the array held a null right behind them. */
  lemma OwnTokensIffNullBehind(argv: seq<Entry>, line: nat, i: nat, n: nat)
    requires n < |argv|
    ensures Seen(Filled(argv, 0, line, i, n)) == Args(line, i, n) <==> argv[n] == Null
  {
    assert Filled(argv, 0, line, i, n) == Args(line, i, n) + argv[n..];
    SeenArgs(line, i, n, argv[n..]);
    var a, b := Args(line, i, n), Seen(argv[n..]);
    if argv[n] != Null {
      assert |a + b| > |a|;
    } else {
      assert a + [] == a;
    }
  }
}
