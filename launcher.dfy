/** Starting the linked containers, shared by `build` and `debug`: each link
    in declaration order is started detached, and the engine's reply,
    stripped, is that link's container id. The first failure stops the loop
    and propagates; the ids already obtained stay recorded. */
module Launcher {
  import opened Optional
  import opened Docker
  import opened RubyText
  import opened Arguments

  /** The ids of the links started, in order, and the exit status of the
      start that failed, if one did. */
  datatype Launch = Launch(ids: seq<string>, failed: Option<int>)

  function LinkRun(link: Link): Command {
    Command("run", LinkRunArgs(link))
  }

  function RunCommands(links: seq<Link>): (r: seq<Command>)
    ensures |r| == |links|
  {
    seq(|links|, i requires 0 <= i < |links| => LinkRun(links[i]))
  }

  /** The number of `docker run` commands a launch issued. */
  function Issued(l: Launch): nat {
    |l.ids| + if l.failed.Some? then 1 else 0
  }

  /** The launch that issues the start commands `cmds` in order, the first
      being the engine's command number `start`. */
  function LaunchSpec(cmds: seq<Command>, exec: Executor, start: nat): (r: Launch)
    ensures Issued(r) <= |cmds|
    ensures r.failed.None? ==> |r.ids| == |cmds|
    decreases |cmds|
  {
    if cmds == [] then Launch([], None)
    else
      match exec(start, cmds[0])
      case Failed(s) => Launch([], Some(s))
      case Output(t) =>
        var rest := LaunchSpec(cmds[1..], exec, start + 1);
        Launch([Strip(t)] + rest.ids, rest.failed)
  }

  /** What a launch means: the k-th start was the engine's command number
      `start + k`, it succeeded, and the k-th id is its stripped reply; the
      launch stops at the first start that fails, with that start's status. */
  predicate Launched(cmds: seq<Command>, exec: Executor, start: nat, l: Launch) {
    && |l.ids| <= |cmds|
    && (l.failed.None? ==> |l.ids| == |cmds|)
    && (l.failed.Some? ==> |l.ids| < |cmds| && exec(start + |l.ids|, cmds[|l.ids|]) == Failed(l.failed.value))
    && (forall k :: 0 <= k < |l.ids| ==>
          exec(start + k, cmds[k]).Output? && l.ids[k] == Strip(exec(start + k, cmds[k]).text))
  }

  /** LaunchSpec is a launch in that sense ... */
  lemma {:induction false} LaunchSpecLaunched(cmds: seq<Command>, exec: Executor, start: nat)
    ensures Launched(cmds, exec, start, LaunchSpec(cmds, exec, start))
    decreases |cmds|
  {
    if cmds != [] && exec(start, cmds[0]).Output? {
      var r := LaunchSpec(cmds, exec, start);
      var rest := LaunchSpec(cmds[1..], exec, start + 1);
      LaunchSpecLaunched(cmds[1..], exec, start + 1);
      forall k | 1 <= k < |r.ids|
        ensures exec(start + k, cmds[k]).Output? && r.ids[k] == Strip(exec(start + k, cmds[k]).text)
      {
        assert r.ids[k] == rest.ids[k - 1] && cmds[1..][k - 1] == cmds[k];
      }
      if r.failed.Some? {
        assert cmds[1..][|rest.ids|] == cmds[|r.ids|];
      }
    }
  }

  /** ... and the only one: the meaning determines the launch. */
  lemma {:induction false} LaunchedUnique(cmds: seq<Command>, exec: Executor, start: nat, l: Launch)
    requires Launched(cmds, exec, start, l)
    ensures l == LaunchSpec(cmds, exec, start)
    decreases |cmds|
  {
    if cmds != [] {
      if l.ids != [] {
        var tail := Launch(l.ids[1..], l.failed);
        assert Launched(cmds[1..], exec, start + 1, tail) by {
          forall k | 0 <= k < |tail.ids|
            ensures exec(start + 1 + k, cmds[1..][k]).Output?
              && tail.ids[k] == Strip(exec(start + 1 + k, cmds[1..][k]).text)
          {
            assert tail.ids[k] == l.ids[k + 1] && cmds[1..][k] == cmds[k + 1];
          }
        }
        LaunchedUnique(cmds[1..], exec, start + 1, tail);
        assert exec(start + 0, cmds[0]).Output?;
        assert l.ids == [l.ids[0]] + tail.ids;
      }
    }
  }

  /** The launched prefix of the link starts was answered with output, and
      a failed launch ends on the failing start. */
  lemma LaunchEnding(cmds: seq<Command>, exec: Executor, trace0: seq<Command>)
    requires AllAnswered(trace0, exec)
    ensures var l := LaunchSpec(cmds, exec, |trace0|);
      && AllAnswered(trace0 + cmds[..|l.ids|], exec)
      && (l.failed.Some? ==> EndingAgrees(trace0 + cmds[..Issued(l)], exec, Exit(l.failed.value)))
  {
    var l := LaunchSpec(cmds, exec, |trace0|);
    LaunchSpecLaunched(cmds, exec, |trace0|);
    var t := trace0 + cmds[..|l.ids|];
    forall k | 0 <= k < |t| ensures exec(k, t[k]).Output? {
      if k >= |trace0| {
        assert t[k] == cmds[k - |trace0|];
        assert exec(|trace0| + (k - |trace0|), cmds[k - |trace0|]).Output?;
      }
    }
    if l.failed.Some? {
      assert cmds[..Issued(l)] == cmds[..|l.ids|] + [cmds[|l.ids|]];
      assert trace0 + cmds[..Issued(l)] == t + [cmds[|l.ids|]];
      FailedAppend(t, cmds[|l.ids|], exec, l.failed.value);
    }
  }

  /** The options of one link's start, built as the source builds them:
      `args = ['--detach']`, the environment pairs, the image, the command. */
  method LinkRunOptions(link: Link) returns (args: seq<string>)
    ensures args == LinkRunArgs(link)
  {
    args := ["--detach"];
    args := AppendEnv(args, link.env);
    args := args + [link.image];
    if link.run.Some? {
      args := args + [link.run.value];
    }
  }

  /** The loop `build.links.each { |link| ... link.id = docker(:run, *args,
      capture: true).strip; containers << link.id }`, issuing its commands
      after those of `trace0`. */
  method LaunchLinks(links: seq<Link>, exec: Executor, trace0: seq<Command>)
    returns (trace: seq<Command>, ids: seq<string>, failed: Option<int>)
    ensures Launched(RunCommands(links), exec, |trace0|, Launch(ids, failed))
    ensures trace == trace0 + RunCommands(links)[..Issued(Launch(ids, failed))]
  {
    ghost var cmds := RunCommands(links);
    trace, ids, failed := trace0, [], None;
    var i := 0;
    while i < |links|
      invariant 0 <= i <= |links| && |ids| == i
      invariant trace == trace0 + cmds[..i]
      invariant forall k :: 0 <= k < i ==>
        exec(|trace0| + k, cmds[k]).Output? && ids[k] == Strip(exec(|trace0| + k, cmds[k]).text)
    {
      var args := LinkRunOptions(links[i]);
      assert Command("run", args) == cmds[i];
      var reply := exec(|trace|, Command("run", args));
      assert cmds[..i + 1] == cmds[..i] + [cmds[i]];
      trace := trace + [Command("run", args)];
      if reply.Failed? {
        failed := Some(reply.status);
        return;
      }
      ids := ids + [Strip(reply.text)];
      i := i + 1;
    }
  }

  /** The launch loop, stated by the launch it performs. */
  method StartLinks(links: seq<Link>, exec: Executor, trace0: seq<Command>)
    returns (trace: seq<Command>, ids: seq<string>, failed: Option<int>)
    ensures var l := LaunchSpec(RunCommands(links), exec, |trace0|);
      ids == l.ids && failed == l.failed && trace == trace0 + RunCommands(links)[..Issued(l)]
  {
    trace, ids, failed := LaunchLinks(links, exec, trace0);
    LaunchedUnique(RunCommands(links), exec, |trace0|, Launch(ids, failed));
  }
}
