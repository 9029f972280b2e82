/** The `ensure` region shared by `build` and `debug`: the diagnosis of
    failed linked containers (build only) followed by the forced removal of
    every recorded container, most recently started first. A Docker::Error
    raised inside the region is not rescued: it ends the region where it
    happens and escapes the command. */
module Cleanup {
  import opened Optional
  import opened Docker

  /** The commands a region issued and the exit status of the engine
      failure that escaped it, if any. */
  datatype Finish = Finish(trace: seq<Command>, raised: Option<int>)

  // ------------------------------------------------ issuing a command list

  /** Issue `cmds` in order, the first as the engine's command number
      `start`, stopping at the first one that fails. */
  function IssueAll(cmds: seq<Command>, exec: Executor, start: nat): Finish
    decreases |cmds|
  {
    if cmds == [] then Finish([], None)
    else
      match exec(start, cmds[0])
      case Failed(s) => Finish([cmds[0]], Some(s))
      case Output(_) =>
        var rest := IssueAll(cmds[1..], exec, start + 1);
        Finish([cmds[0]] + rest.trace, rest.raised)
  }

  /** What issuing in order means: a prefix of `cmds` was issued, each
      command but a failing last one succeeded, and the whole list was
      issued unless one failed. */
  predicate IssuedInOrder(cmds: seq<Command>, exec: Executor, start: nat, f: Finish) {
    && |f.trace| <= |cmds| && f.trace == cmds[..|f.trace|]
    && (f.raised.None? ==> |f.trace| == |cmds|)
    && (f.raised.Some? ==> |f.trace| > 0 && exec(start + |f.trace| - 1, cmds[|f.trace| - 1]) == Failed(f.raised.value))
    && (forall k :: 0 <= k < |f.trace| - (if f.raised.Some? then 1 else 0) ==> exec(start + k, cmds[k]).Output?)
  }

  lemma {:induction false} IssueAllInOrder(cmds: seq<Command>, exec: Executor, start: nat)
    ensures IssuedInOrder(cmds, exec, start, IssueAll(cmds, exec, start))
    decreases |cmds|
  {
    if cmds != [] && exec(start, cmds[0]).Output? {
      var f := IssueAll(cmds, exec, start);
      var rest := IssueAll(cmds[1..], exec, start + 1);
      IssueAllInOrder(cmds[1..], exec, start + 1);
      assert f.trace == [cmds[0]] + cmds[1..][..|rest.trace|] == cmds[..|f.trace|];
      forall k | 1 <= k < |f.trace| - (if f.raised.Some? then 1 else 0)
        ensures exec(start + k, cmds[k]).Output?
      {
        assert cmds[1..][k - 1] == cmds[k];
      }
      if f.raised.Some? {
        assert cmds[1..][|rest.trace| - 1] == cmds[|f.trace| - 1];
      }
    }
  }

  /** Issuing in order determines the outcome: it is IssueAll. */
  lemma {:induction false} IssuedInOrderUnique(cmds: seq<Command>, exec: Executor, start: nat, f: Finish)
    requires IssuedInOrder(cmds, exec, start, f)
    ensures f == IssueAll(cmds, exec, start)
    decreases |cmds|
  {
    if cmds != [] {
      if f.raised.Some? && |f.trace| == 1 {
        assert exec(start, cmds[0]) == Failed(f.raised.value);
      } else if f.trace != [] {
        assert exec(start + 0, cmds[0]).Output?;
        var tail := Finish(f.trace[1..], f.raised);
        assert IssuedInOrder(cmds[1..], exec, start + 1, tail) by {
          assert tail.trace == cmds[1..][..|tail.trace|];
          forall k | 0 <= k < |tail.trace| - (if tail.raised.Some? then 1 else 0)
            ensures exec(start + 1 + k, cmds[1..][k]).Output?
          {
            assert cmds[1..][k] == cmds[k + 1];
          }
          if tail.raised.Some? {
            assert cmds[1..][|tail.trace| - 1] == cmds[|f.trace| - 1];
          }
        }
        IssuedInOrderUnique(cmds[1..], exec, start + 1, tail);
        assert f.trace == [cmds[0]] + tail.trace;
      }
    }
  }

  // ------------------------------------------------------------ diagnosis

  /** A linked container worth reporting: dead, or exited with a positive status. */
  predicate Failing(info: ContainerInfo) {
    info.dead || info.exitCode > 0
  }

  /** `docker logs --tail 20 <id>` */
  function LogsCommand(id: string): Command {
    Command("logs", ["--tail", "20", id])
  }

  /** One logs command per failing record, in the order of the records. */
  function FailedLogs(infos: seq<ContainerInfo>): seq<Command> {
    if infos == [] then []
    else
      var last := infos[|infos| - 1];
      FailedLogs(infos[..|infos| - 1]) + (if Failing(last) then [LogsCommand(last.id)] else [])
  }

  /** The diagnosis reports exactly the failing records: each failing record
      has its logs fetched, and every logs command is for a failing record. */
  lemma {:induction false} FailedLogsExactly(infos: seq<ContainerInfo>)
    ensures forall i :: 0 <= i < |infos| && Failing(infos[i]) ==> LogsCommand(infos[i].id) in FailedLogs(infos)
    ensures forall c :: c in FailedLogs(infos) ==>
      exists i :: 0 <= i < |infos| && Failing(infos[i]) && c == LogsCommand(infos[i].id)
  {
    if infos != [] {
      var init := infos[..|infos| - 1];
      FailedLogsExactly(init);
      forall c | c in FailedLogs(infos)
        ensures exists i :: 0 <= i < |infos| && Failing(infos[i]) && c == LogsCommand(infos[i].id)
      {
        if c in FailedLogs(init) {
          var i :| 0 <= i < |init| && Failing(init[i]) && c == LogsCommand(init[i].id);
          assert infos[i] == init[i];
        }
      }
      forall i | 0 <= i < |infos| && Failing(infos[i])
        ensures LogsCommand(infos[i].id) in FailedLogs(infos)
      {
        if i < |init| { assert infos[i] == init[i]; }
      }
    }
  }

  lemma FailedLogsStep(infos: seq<ContainerInfo>, i: nat)
    requires i < |infos|
    ensures FailedLogs(infos[..i + 1])
      == FailedLogs(infos[..i]) + (if Failing(infos[i]) then [LogsCommand(infos[i].id)] else [])
  {
    assert infos[..i + 1][..i] == infos[..i];
  }

  lemma {:induction false} FailedLogsPrefix(infos: seq<ContainerInfo>, i: nat)
    requires i <= |infos|
    ensures |FailedLogs(infos[..i])| <= |FailedLogs(infos)|
    ensures FailedLogs(infos[..i]) == FailedLogs(infos)[..|FailedLogs(infos[..i])|]
    decreases |infos|
  {
    if i < |infos| {
      var init := infos[..|infos| - 1];
      assert infos[..i] == init[..i];
      FailedLogsPrefix(init, i);
    } else {
      assert infos[..i] == infos;
    }
  }

  lemma {:induction false} FailedLogsAreLogs(infos: seq<ContainerInfo>)
    ensures forall k :: 0 <= k < |FailedLogs(infos)| ==> FailedLogs(infos)[k].verb == "logs"
  {
    if infos != [] {
      FailedLogsAreLogs(infos[..|infos| - 1]);
    }
  }

  /** Every command of `trace` from position `start` on succeeded. */
  predicate AnsweredFrom(trace: seq<Command>, start: nat, exec: Executor) {
    forall k :: start <= k < |trace| ==> exec(k, trace[k]).Output?
  }

  lemma AnsweredSnoc(trace: seq<Command>, start: nat, c: Command, exec: Executor)
    requires AnsweredFrom(trace, start, exec) && exec(|trace|, c).Output?
    ensures AnsweredFrom(trace + [c], start, exec)
  {
  }

  /** Issuing the first commands of `cmds` after `trace0`, each
      succeeding, then the next one `c` failing with `s`, is an issue in
      order. */
  lemma StoppedInOrder(cmds: seq<Command>, done: seq<Command>, c: Command, exec: Executor,
                       trace0: seq<Command>, s: int)
    requires |done| < |cmds| && cmds[..|done| + 1] == done + [c]
    requires AnsweredFrom(trace0 + done, |trace0|, exec)
    requires exec(|trace0 + done|, c) == Failed(s)
    ensures IssuedInOrder(cmds, exec, |trace0|, Finish(done + [c], Some(s)))
    ensures Finish(done + [c], Some(s)) == IssueAll(cmds, exec, |trace0|)
  {
    var n := |done|;
    assert cmds[n] == (done + [c])[n] == c;
    forall k | 0 <= k < n ensures exec(|trace0| + k, cmds[k]).Output? {
      assert cmds[k] == (done + [c])[k] == done[k] == (trace0 + done)[|trace0| + k];
    }
    IssuedInOrderUnique(cmds, exec, |trace0|, Finish(done + [c], Some(s)));
  }

  /** Issuing all of `cmds` after `trace0`, each succeeding, is an issue
      in order. */
  lemma CompletedInOrder(cmds: seq<Command>, exec: Executor, trace0: seq<Command>)
    requires AnsweredFrom(trace0 + cmds, |trace0|, exec)
    ensures IssuedInOrder(cmds, exec, |trace0|, Finish(cmds, None))
  {
    assert cmds[..|cmds|] == cmds;
    forall k | 0 <= k < |cmds| ensures exec(|trace0| + k, cmds[k]).Output? {
      assert (trace0 + cmds)[|trace0| + k] == cmds[k];
    }
  }

  /** The loop over the parsed inspect records: `next unless state['Dead']
      || state['ExitCode'] > 0`, then `docker(:logs, '--tail', 20, id)`.
      The lines written to standard error are not modelled. */
  method Diagnose(infos: seq<ContainerInfo>, exec: Executor, trace0: seq<Command>)
    returns (trace: seq<Command>, raised: Option<int>)
    ensures |trace0| <= |trace| && trace[..|trace0|] == trace0
    ensures IssuedInOrder(FailedLogs(infos), exec, |trace0|, Finish(trace[|trace0|..], raised))
    ensures Finish(trace[|trace0|..], raised) == IssueAll(FailedLogs(infos), exec, |trace0|)
  {
    trace, raised := trace0, None;
    var i := 0;
    while i < |infos|
      invariant 0 <= i <= |infos|
      invariant trace == trace0 + FailedLogs(infos[..i])
      invariant AnsweredFrom(trace, |trace0|, exec)
    {
      var info := infos[i];
      FailedLogsStep(infos, i);
      if info.dead || info.exitCode > 0 {
        var logs := LogsCommand(info.id);
        var reply := exec(|trace|, logs);
        if reply.Failed? {
          DiagnosisStopped(infos, i, exec, trace0, trace, reply.status);
          IssueAllInOrder(FailedLogs(infos), exec, |trace0|);
          return trace + [logs], Some(reply.status);
        }
        AnsweredSnoc(trace, |trace0|, logs, exec);
        trace := trace + [logs];
      } else {
        assert FailedLogs(infos[..i + 1]) == FailedLogs(infos[..i]);
      }
      i := i + 1;
    }
    assert infos[..i] == infos;
    DiagnosisCompleted(infos, exec, trace0, trace);
    IssueAllInOrder(FailedLogs(infos), exec, |trace0|);
  }

  /** The loop's early exit: the logs of record i failed with `s`. */
  lemma DiagnosisStopped(infos: seq<ContainerInfo>, i: nat, exec: Executor, trace0: seq<Command>,
                         before: seq<Command>, s: int)
    requires i < |infos| && Failing(infos[i])
    requires before == trace0 + FailedLogs(infos[..i]) && AnsweredFrom(before, |trace0|, exec)
    requires exec(|before|, LogsCommand(infos[i].id)) == Failed(s)
    ensures var trace := before + [LogsCommand(infos[i].id)];
      && |trace0| <= |trace| && trace[..|trace0|] == trace0
      && Finish(trace[|trace0|..], Some(s)) == IssueAll(FailedLogs(infos), exec, |trace0|)
  {
    var logs, done, c := FailedLogs(infos), FailedLogs(infos[..i]), LogsCommand(infos[i].id);
    assert |done| < |logs| && logs[..|done| + 1] == done + [c] by {
      FailedLogsStep(infos, i);
      FailedLogsPrefix(infos, i + 1);
    }
    StoppedAfter(logs, done, c, exec, trace0, before, s);
  }

  /** The same early exit, stated over the trace that has grown by the
      failing command. */
  lemma StoppedAfter(cmds: seq<Command>, done: seq<Command>, c: Command, exec: Executor,
                     trace0: seq<Command>, before: seq<Command>, s: int)
    requires before == trace0 + done && |done| < |cmds| && cmds[..|done| + 1] == done + [c]
    requires AnsweredFrom(before, |trace0|, exec) && exec(|before|, c) == Failed(s)
    ensures var trace := before + [c];
      && |trace0| <= |trace| && trace[..|trace0|] == trace0
      && Finish(trace[|trace0|..], Some(s)) == IssueAll(cmds, exec, |trace0|)
  {
    DropPrefix(trace0, done + [c]);
    assert before + [c] == trace0 + (done + [c]);
    StoppedInOrder(cmds, done, c, exec, trace0, s);
  }

  lemma DropPrefix(trace0: seq<Command>, rest: seq<Command>)
    ensures |trace0| <= |trace0 + rest| && (trace0 + rest)[..|trace0|] == trace0
    ensures (trace0 + rest)[|trace0|..] == rest
  {
  }

  /** The loop's normal exit: the logs of every failing record succeeded. */
  lemma DiagnosisCompleted(infos: seq<ContainerInfo>, exec: Executor, trace0: seq<Command>, trace: seq<Command>)
    requires trace == trace0 + FailedLogs(infos)
    requires AnsweredFrom(trace, |trace0|, exec)
    ensures Finish(trace[|trace0|..], None) == IssueAll(FailedLogs(infos), exec, |trace0|)
  {
    CompletedInOrder(FailedLogs(infos), exec, trace0);
    IssuedInOrderUnique(FailedLogs(infos), exec, |trace0|, Finish(FailedLogs(infos), None));
    assert trace[|trace0|..] == FailedLogs(infos);
  }

  // -------------------------------------------------------------- removal

  function Reversed<T>(xs: seq<T>): seq<T> {
    if xs == [] then [] else Reversed(xs[1..]) + [xs[0]]
  }

  /** `containers.reverse`: the most recently started container comes first. */
  lemma {:induction false} ReversedAt<T>(xs: seq<T>, i: nat)
    requires i < |xs|
    ensures |Reversed(xs)| == |xs| && Reversed(xs)[i] == xs[|xs| - 1 - i]
  {
    ReversedLength(xs);
    if i < |xs| - 1 {
      ReversedAt(xs[1..], i);
    }
  }

  lemma {:induction false} ReversedLength<T>(xs: seq<T>)
    ensures |Reversed(xs)| == |xs|
  {
    if xs != [] { ReversedLength(xs[1..]); }
  }

  /** `docker rm --force <containers reversed>` */
  function RemoveCommand(containers: seq<string>): Command {
    Command("rm", ["--force"] + Reversed(containers))
  }

  /** `containers - [id]`: every occurrence of `id` removed; every other
      element is kept as often as it occurs (WithoutCounts) and in order
      (WithoutConcat, WithoutSingle). */
  function Without(xs: seq<string>, x: string): (r: seq<string>)
    ensures x !in r
    ensures forall y :: y in r <==> y in xs && y != x
  {
    if xs == [] then []
    else if xs[|xs| - 1] == x then Without(xs[..|xs| - 1], x)
    else Without(xs[..|xs| - 1], x) + [xs[|xs| - 1]]
  }

  lemma {:induction false} WithoutCounts(xs: seq<string>, x: string)
    ensures multiset(Without(xs, x)) == multiset(xs)[x := 0]
  {
    if xs != [] {
      var init := xs[..|xs| - 1];
      WithoutCounts(init, x);
      assert xs == init + [xs[|xs| - 1]];
    }
  }

  /** The removal works piece by piece, so it keeps the order of what
      remains. */
  lemma {:induction false} WithoutConcat(a: seq<string>, b: seq<string>, x: string)
    ensures Without(a + b, x) == Without(a, x) + Without(b, x)
    decreases |b|
  {
    if b == [] {
      assert a + b == a;
    } else {
      var init, last := b[..|b| - 1], b[|b| - 1];
      var keep := if last == x then [] else [last];
      WithoutConcat(a, init, x);
      assert (a + b)[..|a + b| - 1] == a + init;
      assert (a + b)[|a + b| - 1] == last;
      assert Without(a + b, x) == Without(a + init, x) + keep;
      assert Without(b, x) == Without(init, x) + keep;
    }
  }

  /** A single element stays exactly when it differs from x. */
  lemma WithoutSingle(y: string, x: string)
    ensures Without([y], x) == if y == x then [] else [y]
  {
    assert [y][..0] == [];
  }

  lemma {:induction false} WithoutAbsent(xs: seq<string>, x: string)
    requires x !in xs
    ensures Without(xs, x) == xs
  {
    if xs != [] {
      WithoutAbsent(xs[..|xs| - 1], x);
      assert xs == xs[..|xs| - 1] + [xs[|xs| - 1]];
    }
  }

  // ------------------------------------------------------- the region

  /** `unless linked_containers.empty?`: one batched inspect, then the logs
      of each failing record. */
  function Inspection(linked: seq<string>, exec: Executor, start: nat, parse: string -> seq<ContainerInfo>): Finish {
    if linked == [] then Finish([], None)
    else
      var inspect := Command("inspect", linked);
      match exec(start, inspect)
      case Failed(s) => Finish([inspect], Some(s))
      case Output(t) =>
        var d := IssueAll(FailedLogs(parse(t)), exec, start + 1);
        Finish([inspect] + d.trace, d.raised)
  }

  /** `unless containers.empty?`: one batched forced removal. */
  function Removal(containers: seq<string>, exec: Executor, at: nat): (r: Finish)
    ensures |r.trace| <= 1 && (r.trace == [] <==> containers == [])
    ensures r.raised.Some? ==> r.trace != []
  {
    if containers == [] then Finish([], None)
    else
      var rm := RemoveCommand(containers);
      match exec(at, rm)
      case Failed(s) => Finish([rm], Some(s))
      case Output(_) => Finish([rm], None)
  }

  /** The ensure region of `build` as written: a failure of the diagnosis
      escapes at once, and the removal is then never issued. */
  function EnsureSpec(containers: seq<string>, linked: seq<string>, exec: Executor, start: nat,
                      parse: string -> seq<ContainerInfo>): Finish
  {
    var d := Inspection(linked, exec, start, parse);
    if d.raised.Some? then d
    else
      var t := Removal(containers, exec, start + |d.trace|);
      Finish(d.trace + t.trace, t.raised)
  }

  /** The diagnosis half of the region, issuing its commands after those
      of `trace0`. */
  method Inspect(linked: seq<string>, exec: Executor, parse: string -> seq<ContainerInfo>, trace0: seq<Command>)
    returns (trace: seq<Command>, raised: Option<int>)
    ensures var d := Inspection(linked, exec, |trace0|, parse);
      trace == trace0 + d.trace && raised == d.raised
  {
    trace, raised := trace0, None;
    if linked != [] {
      var inspect := Command("inspect", linked);
      var reply := exec(|trace|, inspect);
      trace := trace + [inspect];
      if reply.Failed? {
        return trace, Some(reply.status);
      }
      var infos := parse(reply.text);
      var before := trace;
      trace, raised := Diagnose(infos, exec, trace);
      assert trace == before + trace[|before|..];
    }
  }

  /** The removal half of the region, issued after `trace0`. */
  method Remove(containers: seq<string>, exec: Executor, trace0: seq<Command>)
    returns (trace: seq<Command>, raised: Option<int>)
    ensures var t := Removal(containers, exec, |trace0|);
      trace == trace0 + t.trace && raised == t.raised
  {
    trace, raised := trace0, None;
    if containers != [] {
      var rm := RemoveCommand(containers);
      var reply := exec(|trace|, rm);
      trace := trace + [rm];
      if reply.Failed? {
        raised := Some(reply.status);
      }
    }
  }

  /** The region as the `ensure` clause runs it, issuing its commands after
      those of `trace0`. */
  method EnsureRegion(containers: seq<string>, linked: seq<string>, exec: Executor,
                      parse: string -> seq<ContainerInfo>, trace0: seq<Command>)
    returns (trace: seq<Command>, raised: Option<int>)
    ensures var e := EnsureSpec(containers, linked, exec, |trace0|, parse);
      trace == trace0 + e.trace && raised == e.raised
  {
    trace, raised := Inspect(linked, exec, parse, trace0);
    if raised.None? {
      var mid := trace;
      trace, raised := Remove(containers, exec, mid);
    }
  }

  // ------------------------------------------------------------ properties

  /** Every command the diagnosis issues after the inspect is a logs call. */
  lemma {:induction false} DiagnosisIssuesLogs(infos: seq<ContainerInfo>, exec: Executor, start: nat)
    ensures forall k :: 0 <= k < |IssueAll(FailedLogs(infos), exec, start).trace| ==>
      IssueAll(FailedLogs(infos), exec, start).trace[k].verb == "logs"
  {
    IssueAllInOrder(FailedLogs(infos), exec, start);
    FailedLogsAreLogs(infos);
  }

  /** The diagnosis never removes anything, and it inspects at most once,
      first. */
  lemma InspectionVerbs(linked: seq<string>, exec: Executor, start: nat, parse: string -> seq<ContainerInfo>)
    ensures var d := Inspection(linked, exec, start, parse);
      && VerbsIn(d.trace, {"inspect", "logs"})
      && CountVerb(d.trace, "rm") == 0
      && CountVerb(d.trace, "inspect") == (if linked == [] then 0 else 1)
      && (linked != [] ==> d.trace[0] == Command("inspect", linked))
  {
    var d := Inspection(linked, exec, start, parse);
    if linked != [] {
      var inspect := Command("inspect", linked);
      var rest: seq<Command> := [];
      if exec(start, inspect).Output? {
        var infos := parse(exec(start, inspect).text);
        var f := IssueAll(FailedLogs(infos), exec, start + 1);
        DiagnosisIssuesLogs(infos, exec, start + 1);
        assert forall k :: 0 <= k < |f.trace| ==> f.trace[k].verb == "logs";
        rest := f.trace;
      }
      assert d.trace == [inspect] + rest;
      CountVerbNone(rest, "inspect");
      CountVerbNone(rest, "rm");
      assert d.trace[1..] == rest;
    }
  }

  lemma RemovalVerbs(containers: seq<string>, exec: Executor, at: nat)
    ensures var t := Removal(containers, exec, at);
      && VerbsIn(t.trace, {"rm"})
      && CountVerb(t.trace, "rm") == (if containers == [] then 0 else 1)
      && CountVerb(t.trace, "inspect") == 0
  {
    var t := Removal(containers, exec, at);
    if containers != [] {
      assert t.trace[1..] == [];
    }
  }

  /** Teardown on every exit path of the body, once the diagnosis went
      through: exactly one removal, the last command of the region, naming
      the recorded containers most recent first; none when nothing was
      recorded. */
  lemma RemovalIsLast(containers: seq<string>, linked: seq<string>, exec: Executor, start: nat,
                      parse: string -> seq<ContainerInfo>)
    requires Inspection(linked, exec, start, parse).raised.None?
    ensures var e := EnsureSpec(containers, linked, exec, start, parse);
      && (containers != [] ==>
            && e.trace != [] && e.trace[|e.trace| - 1] == RemoveCommand(containers)
            && CountVerb(e.trace, "rm") == 1)
      && (containers == [] ==> CountVerb(e.trace, "rm") == 0)
  {
    var d := Inspection(linked, exec, start, parse);
    var t := Removal(containers, exec, start + |d.trace|);
    InspectionVerbs(linked, exec, start, parse);
    RemovalVerbs(containers, exec, start + |d.trace|);
    CountVerbAppend(d.trace, t.trace, "rm");
  }

  /** The diagnosis inspects exactly the linked containers, in one call,
      and issues no inspect at all when there are none. */
  lemma InspectsLinkedOnly(containers: seq<string>, linked: seq<string>, exec: Executor, start: nat,
                           parse: string -> seq<ContainerInfo>)
    ensures var e := EnsureSpec(containers, linked, exec, start, parse);
      && (linked == [] ==> CountVerb(e.trace, "inspect") == 0)
      && (linked != [] ==> e.trace[0] == Command("inspect", linked) && CountVerb(e.trace, "inspect") == 1)
  {
    var d := Inspection(linked, exec, start, parse);
    var t := Removal(containers, exec, start + |d.trace|);
    InspectionVerbs(linked, exec, start, parse);
    RemovalVerbs(containers, exec, start + |d.trace|);
    CountVerbAppend(d.trace, t.trace, "inspect");
  }

  /** When the inspect and every logs call succeed, the region is: the
      inspect of the linked containers, the logs of exactly the failing
      records in their order, then the removal. */
  lemma DiagnosisThenRemoval(containers: seq<string>, linked: seq<string>, exec: Executor, start: nat,
                             parse: string -> seq<ContainerInfo>, text: string)
    requires linked != [] && exec(start, Command("inspect", linked)) == Output(text)
    requires IssueAll(FailedLogs(parse(text)), exec, start + 1).raised.None?
    ensures var e := EnsureSpec(containers, linked, exec, start, parse);
      e.trace == [Command("inspect", linked)] + FailedLogs(parse(text))
        + (if containers == [] then [] else [RemoveCommand(containers)])
  {
    IssueAllInOrder(FailedLogs(parse(text)), exec, start + 1);
  }

  /** As written, a failing diagnosis call leaves every container in place:
      the removal is not issued and the diagnosis failure escapes. */
  lemma DiagnosisFailureSkipsRemoval(containers: seq<string>, linked: seq<string>, exec: Executor, start: nat,
                                     parse: string -> seq<ContainerInfo>)
    requires Inspection(linked, exec, start, parse).raised.Some?
    ensures var e := EnsureSpec(containers, linked, exec, start, parse);
      CountVerb(e.trace, "rm") == 0 && e.raised == Inspection(linked, exec, start, parse).raised
  {
    InspectionVerbs(linked, exec, start, parse);
  }

  /** A concrete case: one link `l1` and the main container `m`; the inspect
      of `l1` fails with status 1, and neither container is removed. */
  lemma InspectFailureLeavesContainers(parse: string -> seq<ContainerInfo>)
    ensures var exec: Executor := (k: nat, c: Command) => if c.verb == "inspect" then Failed(1) else Output("");
      EnsureSpec(["l1", "m"], ["l1"], exec, 0, parse) == Finish([Command("inspect", ["l1"])], Some(1))
  {
  }

  /** The region as intended: the removal is issued whatever happened in
      the diagnosis (a nested ensure); the removal's own failure, if any,
      wins over a diagnosis failure. */
  function EnsureSpecIntended(containers: seq<string>, linked: seq<string>, exec: Executor, start: nat,
                              parse: string -> seq<ContainerInfo>): Finish
  {
    var d := Inspection(linked, exec, start, parse);
    var t := Removal(containers, exec, start + |d.trace|);
    Finish(d.trace + t.trace, if t.raised.Some? then t.raised else d.raised)
  }

  /** With the intended region, teardown happens on every path: exactly one
      removal, last, whenever a container was recorded. */
  lemma IntendedRemovalAlwaysLast(containers: seq<string>, linked: seq<string>, exec: Executor, start: nat,
                                  parse: string -> seq<ContainerInfo>)
    requires containers != []
    ensures var e := EnsureSpecIntended(containers, linked, exec, start, parse);
      && e.trace != [] && e.trace[|e.trace| - 1] == RemoveCommand(containers)
      && CountVerb(e.trace, "rm") == 1
  {
    var d := Inspection(linked, exec, start, parse);
    var t := Removal(containers, exec, start + |d.trace|);
    InspectionVerbs(linked, exec, start, parse);
    RemovalVerbs(containers, exec, start + |d.trace|);
    CountVerbAppend(d.trace, t.trace, "rm");
  }

  /** The region only inspects, fetches logs and removes. */
  lemma EnsureVerbs(containers: seq<string>, linked: seq<string>, exec: Executor, start: nat,
                    parse: string -> seq<ContainerInfo>)
    ensures VerbsIn(EnsureSpec(containers, linked, exec, start, parse).trace, {"inspect", "logs", "rm"})
  {
    var d := Inspection(linked, exec, start, parse);
    InspectionVerbs(linked, exec, start, parse);
    RemovalVerbs(containers, exec, start + |d.trace|);
  }
}
