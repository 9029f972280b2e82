/** `cide debug`: start the linked services as `build` does, then open an
    interactive shell in the last built image; the shell's container is
    removed by the engine itself, so teardown covers the links only. */
module DebugCommand {
  import opened Optional
  import opened Docker
  import opened Arguments
  import opened Launcher
  import opened Cleanup

  /** The options of `debug`: name and user. */
  datatype DebugOptions = DebugOptions(name: string, user: string)

  /** Where the body of `debug` stopped: the commands issued, the
      `containers` array and how the body ended. */
  datatype Session = Session(trace: seq<Command>, containers: seq<string>, outcome: Outcome)

  /** The whole run, ensure region included. */
  datatype Ending = Ending(trace: seq<Command>, outcome: Outcome)

  function ShellRun(config: BuildConfig, ids: seq<string>, opts: DebugOptions, dockerId: string -> string): Command
    requires |ids| == |config.links|
  {
    Command("run", DebugRunArgs(opts.user, config, ids, "cide/" + dockerId(opts.name)))
  }

  /** The body of `debug`, up to its rescue clause. */
  function DebugBodySpec(config: Option<BuildConfig>, opts: DebugOptions, exec: Executor,
                         dockerId: string -> string): Session
  {
    if config.None? then Session([], [], Exit(1))
    else
      var build := config.value;
      var cmds := RunCommands(build.links);
      var l := LaunchSpec(cmds, exec, 0);
      var t := cmds[..Issued(l)];
      if l.failed.Some? then Session(t, l.ids, Exit(l.failed.value))
      else
        var shell := ShellRun(build, l.ids, opts, dockerId);
        match exec(|t|, shell)
        case Failed(s) => Session(t + [shell], l.ids, Exit(s))
        case Output(_) => Session(t + [shell], l.ids, Done)
  }

  /** The whole command: the body, then the removal of the recorded
      containers, whose engine failure replaces the body's ending. */
  function DebugSpec(config: Option<BuildConfig>, opts: DebugOptions, exec: Executor,
                     dockerId: string -> string): Ending
  {
    var body := DebugBodySpec(config, opts, exec, dockerId);
    var t := Removal(body.containers, exec, |body.trace|);
    Ending(body.trace + t.trace, if t.raised.Some? then DockerError(t.raised.value) else body.outcome)
  }

  /** The shell's options, built as the source builds them. */
  method DebugRunOptions(user: string, config: BuildConfig, ids: seq<string>, tag: string)
    returns (args: seq<string>)
    requires |ids| == |config.links|
    ensures args == DebugRunArgs(user, config, ids, tag)
  {
    args := ["--rm", "-t", "-i"];
    args := args + ["--user", user];
    args := AppendEnv(args, config.env);
    args := AppendLinks(args, config.links, ids);
    args := args + [tag];
    args := args + ["bash"];
  }

  /** The body of `debug`, growing `containers` as the source does. */
  method DebugBody(config: Option<BuildConfig>, opts: DebugOptions, exec: Executor, dockerId: string -> string)
    returns (trace: seq<Command>, containers: seq<string>, outcome: Outcome)
    ensures Session(trace, containers, outcome) == DebugBodySpec(config, opts, exec, dockerId)
  {
    trace, containers := [], [];
    if config.None? {
      return trace, containers, Exit(1);
    }
    var build := config.value;
    var tag := "cide/" + dockerId(opts.name);
    var ids, failed;
    trace, ids, failed := StartLinks(build.links, exec, trace);
    containers := containers + ids;
    if failed.Some? {
      return trace, containers, Exit(failed.value);
    }
    var args := DebugRunOptions(opts.user, build, ids, tag);
    var shell := Command("run", args);
    var reply := exec(|trace|, shell);
    trace := trace + [shell];
    outcome := if reply.Failed? then Exit(reply.status) else Done;
  }

  /** `cide debug`. */
  method Debug(config: Option<BuildConfig>, opts: DebugOptions, exec: Executor, dockerId: string -> string)
    returns (trace: seq<Command>, outcome: Outcome)
    ensures Ending(trace, outcome) == DebugSpec(config, opts, exec, dockerId)
  {
    var containers;
    trace, containers, outcome := DebugBody(config, opts, exec, dockerId);
    var raised;
    trace, raised := Remove(containers, exec, trace);
    if raised.Some? {
      outcome := DockerError(raised.value);
    }
  }

  // --------------------------------------------------------- properties

  /** The links are started first, exactly as `build` starts them; once
      all are up the shell is run, with `--rm -t -i --user`, the
      environment, one `--link id:name` per link and `bash` in the tagged
      image; `containers` holds the launched link ids and never the shell. */
  lemma SessionLayout(config: Option<BuildConfig>, opts: DebugOptions, exec: Executor, dockerId: string -> string)
    requires config.Some?
    ensures var l := LaunchSpec(RunCommands(config.value.links), exec, 0);
      var body := DebugBodySpec(config, opts, exec, dockerId);
      && body.containers == l.ids
      && Issued(l) <= |body.trace|
      && body.trace[..Issued(l)] == RunCommands(config.value.links)[..Issued(l)]
      && (l.failed.None? ==>
            |body.trace| == |config.value.links| + 1
            && body.trace[|config.value.links|]
               == Command("run", DebugRunArgs(opts.user, config.value, l.ids, "cide/" + dockerId(opts.name))))
  {
    var l := LaunchSpec(RunCommands(config.value.links), exec, 0);
    var body := DebugBodySpec(config, opts, exec, dockerId);
    var t := RunCommands(config.value.links)[..Issued(l)];
    if l.failed.None? {
      assert body.trace[..Issued(l)] == (t + [body.trace[|t|]])[..|t|];
    }
  }

  /** `exit ex.exitstatus`: once the configuration is loaded, `debug`
      exits with a status only as the failure status of its last engine
      command, a link start or the shell, every earlier one having
      succeeded; the teardown keeps that status unless it fails itself. */
  lemma DebugExitStatus(config: Option<BuildConfig>, opts: DebugOptions, exec: Executor,
                        dockerId: string -> string)
    requires config.Some?
    ensures var body := DebugBodySpec(config, opts, exec, dockerId); var r := DebugSpec(config, opts, exec, dockerId);
      && EndingAgrees(body.trace, exec, body.outcome)
      && (r.outcome.Exit? ==> r.outcome == body.outcome)
  {
    var build := config.value;
    var cmds := RunCommands(build.links);
    var l := LaunchSpec(cmds, exec, 0);
    LaunchEnding(cmds, exec, []);
    assert [] + cmds[..Issued(l)] == cmds[..Issued(l)];
    if l.failed.None? {
      var t := cmds[..Issued(l)];
      assert t == [] + cmds[..|l.ids|];
      var shell := ShellRun(build, l.ids, opts, dockerId);
      match exec(|t|, shell)
      case Failed(s) => FailedAppend(t, shell, exec, s);
      case Output(_) => AnsweredAppend(t, shell, exec);
    }
  }

  /** Teardown on every exit path: one `rm --force` over the launched link
      ids, most recent first, as the last command when a link was started;
      nothing to remove otherwise. */
  lemma DebugTeardownLinksOnly(config: Option<BuildConfig>, opts: DebugOptions, exec: Executor,
                               dockerId: string -> string)
    ensures var body := DebugBodySpec(config, opts, exec, dockerId);
      var r := DebugSpec(config, opts, exec, dockerId);
      && (body.containers != [] ==>
            r.trace[|r.trace| - 1] == Command("rm", ["--force"] + Reversed(body.containers))
            && CountVerb(r.trace, "rm") == 1)
      && (body.containers == [] ==> CountVerb(r.trace, "rm") == 0)
  {
    var body := DebugBodySpec(config, opts, exec, dockerId);
    var t := Removal(body.containers, exec, |body.trace|);
    assert VerbsIn(body.trace, {"run"}) by {
      if config.Some? {
        var l := LaunchSpec(RunCommands(config.value.links), exec, 0);
        assert forall k :: 0 <= k < Issued(l) ==> RunCommands(config.value.links)[k].verb == "run";
      }
    }
    CountVerbOutside(body.trace, {"run"}, "rm");
    RemovalVerbs(body.containers, exec, |body.trace|);
    CountVerbAppend(body.trace, t.trace, "rm");
  }
}
