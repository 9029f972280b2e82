/** `cide build`: build the project image, start the linked services and
    the main container, wait for it, optionally copy the artifacts out,
    and in every case diagnose failed services and remove every container
    it started. */
module BuildCommand {
  import opened Optional
  import opened Docker
  import opened RubyText
  import opened Arguments
  import opened Launcher
  import opened Cleanup

  /** The options of `build`: name, export (`exportArtifacts`), export_dir,
      run, pull, ssh_key. */
  datatype BuildOptions = BuildOptions(
    name: string,
    exportArtifacts: bool,
    exportDir: Option<string>,
    run: seq<string>,
    pull: bool,
    sshKey: string)

  /** Everything the command reaches besides the engine, as parameters:
      the JSON reading of `docker inspect`, the name normalisation of
      CIDE::Docker.id, the DOCKERFILE constant, the file system
      (File.expand_path of the key, File.exist?, File.dirname, and the
      expansion of the export directories inside and outside the
      container) and the main container name SecureRandom.hex drew. */
  datatype Host = Host(
    exec: Executor,
    parseInspect: string -> seq<ContainerInfo>,
    dockerId: string -> string,
    dockerfile: string,
    expandKey: string -> string,
    keyExists: string -> bool,
    dirname: string -> string,
    guestPath: string -> string,
    hostPath: string -> string,
    mainName: string)

  /** Where the body of `build` stopped: the commands issued, the
      `containers` array, whether the local `id` had been assigned, and how
      the body ended (through the rescue clause where it was an engine
      failure). */
  datatype Body = Body(trace: seq<Command>, containers: seq<string>, mainNamed: bool, outcome: Outcome)

  /** Commands issued by one phase of the body, and how the phase ended. */
  datatype Steps = Steps(trace: seq<Command>, outcome: Outcome)

  /** The whole run: every command issued, ensure region included, and how
      the command ended. */
  datatype Run = Run(trace: seq<Command>, outcome: Outcome)

  /** `"cide/#{CIDE::Docker.id options.name}"` */
  function Tag(host: Host, name: string): string {
    "cide/" + host.dockerId(name)
  }

  /** `build.run = options.run unless options.run.empty?` */
  function Effective(config: BuildConfig, opts: BuildOptions): BuildConfig {
    if opts.run == [] then config else config.(run := opts.run)
  }

  function BuildImage(opts: BuildOptions, host: Host): Command {
    Command("build", BuildArgs(opts.pull, host.dockerfile, Tag(host, opts.name)))
  }

  function MainRun(build: BuildConfig, ids: seq<string>, host: Host, tag: string): Command
    requires |ids| == |build.links|
  {
    Command("run", MainRunArgs(build, ids, host.mainName, tag))
  }

  /** `docker cp <id>:<guest dir> <host dir>` */
  function CopyOut(build: BuildConfig, opts: BuildOptions, host: Host): Command
    requires build.exportDir.Some?
  {
    var dir := build.exportDir.value;
    var hostDir := if opts.exportDir.Some? then opts.exportDir.value else host.dirname(dir);
    Command("cp", [host.mainName + ":" + host.guestPath(dir), host.hostPath(hostDir)])
  }

  const NoExportDir := "export flag set but no export_dir given"

  // ------------------------------------------------------------- phases

  /** The export phase, run after the commands `trace0`; the result's trace
      extends `trace0`. */
  function ExportSpec(build: BuildConfig, opts: BuildOptions, host: Host, trace0: seq<Command>): Steps {
    if !opts.exportArtifacts then Steps(trace0, Done)
    else if build.exportDir.None? then Steps(trace0, RuntimeError(NoExportDir))
    else
      var cp := CopyOut(build, opts, host);
      match host.exec(|trace0|, cp)
      case Failed(s) => Steps(trace0 + [cp], Exit(s))
      case Output(_) => Steps(trace0 + [cp], Done)
  }

  /** The main container's run, the attach, then the export phase. */
  function MainSpec(build: BuildConfig, ids: seq<string>, opts: BuildOptions, host: Host, tag: string,
                    trace0: seq<Command>): Steps
    requires |ids| == |build.links|
  {
    var main := MainRun(build, ids, host, tag);
    var attach := Command("attach", [host.mainName]);
    match host.exec(|trace0|, main)
    case Failed(s) => Steps(trace0 + [main], Exit(s))
    case Output(_) =>
      match host.exec(|trace0| + 1, attach)
      case Failed(s) => Steps(trace0 + [main] + [attach], Exit(s))
      case Output(_) => ExportSpec(build, opts, host, trace0 + [main] + [attach])
  }

  /** The body of `build`, up to its rescue clause; `config` is what
      Build::Config.load_file returned (None for nil). */
  function BuildBodySpec(config: Option<BuildConfig>, opts: BuildOptions, host: Host): Body {
    if config.None? then Body([], [], false, Exit(1))
    else
      var build := Effective(config.value, opts);
      var key := host.expandKey(opts.sshKey);
      if build.useSsh && !host.keyExists(key) then
        Body([], [], false, ArgumentError("SSH key " + key + " not found"))
      else
        var image := BuildImage(opts, host);
        match host.exec(0, image)
        case Failed(s) => Body([image], [], false, Exit(s))
        case Output(_) => RunPhase(build, opts, host, [image])
  }

  /** The `## CI ##` section after the commands `trace0`: the links'
      starts, then the main phase. */
  function RunPhase(build: BuildConfig, opts: BuildOptions, host: Host, trace0: seq<Command>): Body {
    var cmds := RunCommands(build.links);
    var l := LaunchSpec(cmds, host.exec, |trace0|);
    var t := trace0 + cmds[..Issued(l)];
    if l.failed.Some? then Body(t, l.ids, false, Exit(l.failed.value))
    else
      var m := MainSpec(build, l.ids, opts, host, Tag(host, opts.name), t);
      Body(m.trace, l.ids + [host.mainName], true, m.outcome)
  }

  /** `containers - [id]`; while `id` is still nil no container is dropped. */
  function Linked(body: Body, host: Host): seq<string> {
    if body.mainNamed then Without(body.containers, host.mainName) else body.containers
  }

  /** The whole command: the body, then the ensure region, whose own
      engine failure replaces whatever the body ended with. */
  function BuildSpec(config: Option<BuildConfig>, opts: BuildOptions, host: Host): Run {
    var body := BuildBodySpec(config, opts, host);
    var e := EnsureSpec(body.containers, Linked(body, host), host.exec, |body.trace|, host.parseInspect);
    Run(body.trace + e.trace, if e.raised.Some? then DockerError(e.raised.value) else body.outcome)
  }

  /** `cide build` with the ensure region corrected: the containers are
      removed even when the diagnosis fails. */
  function BuildSpecIntended(config: Option<BuildConfig>, opts: BuildOptions, host: Host): Run {
    var body := BuildBodySpec(config, opts, host);
    var e := EnsureSpecIntended(body.containers, Linked(body, host), host.exec, |body.trace|, host.parseInspect);
    Run(body.trace + e.trace, if e.raised.Some? then DockerError(e.raised.value) else body.outcome)
  }

  // ------------------------------------------------------------ methods

  /** The `## Export ##` section. */
  method Export(build: BuildConfig, opts: BuildOptions, host: Host, trace0: seq<Command>)
    returns (trace: seq<Command>, outcome: Outcome)
    ensures Steps(trace, outcome) == ExportSpec(build, opts, host, trace0)
  {
    trace := trace0;
    if !opts.exportArtifacts {
      return trace, Done;
    }
    if build.exportDir.None? {
      return trace, RuntimeError(NoExportDir);
    }
    var guestDir := host.guestPath(build.exportDir.value);
    var exportDir := opts.exportDir;
    if exportDir.None? {
      exportDir := Some(host.dirname(build.exportDir.value));
    }
    var hostDir := host.hostPath(exportDir.value);
    var cp := Command("cp", [host.mainName + ":" + guestDir, hostDir]);
    var reply := host.exec(|trace|, cp);
    trace := trace + [cp];
    outcome := if reply.Failed? then Exit(reply.status) else Done;
  }

  /** The `docker build` options, built as the source builds them. */
  method BuildOptionList(pull: bool, dockerfile: string, tag: string) returns (args: seq<string>)
    ensures args == BuildArgs(pull, dockerfile, tag)
  {
    args := ["--force-rm"];
    if pull {
      args := args + ["--pull"];
    }
    args := args + ["-f", dockerfile];
    args := args + ["-t", tag];
    args := args + ["."];
  }

  /** The main container's options, built as the source builds them. */
  method MainRunOptions(build: BuildConfig, ids: seq<string>, name: string, tag: string)
    returns (args: seq<string>)
    requires |ids| == |build.links|
    ensures args == MainRunArgs(build, ids, name, tag)
  {
    args := ["--detach"];
    args := AppendEnv(args, build.env);
    args := AppendLinks(args, build.links, ids);
    args := args + ["--name", name];
    args := args + [tag];
    args := args + build.run;
  }

  /** From the main container's run to the end of the body. */
  method RunMain(build: BuildConfig, ids: seq<string>, opts: BuildOptions, host: Host, tag: string,
                 trace0: seq<Command>)
    returns (trace: seq<Command>, outcome: Outcome)
    requires |ids| == |build.links|
    ensures Steps(trace, outcome) == MainSpec(build, ids, opts, host, tag, trace0)
  {
    var args := MainRunOptions(build, ids, host.mainName, tag);
    var main := Command("run", args);
    var reply := host.exec(|trace0|, main);
    trace := trace0 + [main];
    if reply.Failed? {
      return trace, Exit(reply.status);
    }
    var attach := Command("attach", [host.mainName]);
    reply := host.exec(|trace|, attach);
    trace := trace + [attach];
    if reply.Failed? {
      return trace, Exit(reply.status);
    }
    trace, outcome := Export(build, opts, host, trace);
  }

  /** The body of `build`, growing `containers` as the source does. */
  method BuildBody(config: Option<BuildConfig>, opts: BuildOptions, host: Host)
    returns (trace: seq<Command>, containers: seq<string>, mainNamed: bool, outcome: Outcome)
    ensures Body(trace, containers, mainNamed, outcome) == BuildBodySpec(config, opts, host)
  {
    trace, containers, mainNamed := [], [], false;
    if config.None? {
      return trace, containers, mainNamed, Exit(1);
    }
    var build := config.value;
    var key := host.expandKey(opts.sshKey);
    if opts.run != [] {
      build := build.(run := opts.run);
    }
    var tag := "cide/" + host.dockerId(opts.name);
    if build.useSsh && !host.keyExists(key) {
      return trace, containers, mainNamed, ArgumentError("SSH key " + key + " not found");
    }
    var buildOptions := BuildOptionList(opts.pull, host.dockerfile, tag);
    var image := Command("build", buildOptions);
    var reply := host.exec(0, image);
    trace := [image];
    if reply.Failed? {
      return trace, containers, mainNamed, Exit(reply.status);
    }
    trace, containers, mainNamed, outcome := RunContainers(build, opts, host, tag, trace);
  }

  /** The `## CI ##` section, issued after `trace0`. */
  method RunContainers(build: BuildConfig, opts: BuildOptions, host: Host, tag: string, trace0: seq<Command>)
    returns (trace: seq<Command>, containers: seq<string>, mainNamed: bool, outcome: Outcome)
    requires tag == Tag(host, opts.name)
    ensures Body(trace, containers, mainNamed, outcome) == RunPhase(build, opts, host, trace0)
  {
    containers, mainNamed := [], false;
    var ids, failed;
    trace, ids, failed := StartLinks(build.links, host.exec, trace0);
    containers := containers + ids;
    if failed.Some? {
      return trace, containers, mainNamed, Exit(failed.value);
    }
    containers := containers + [host.mainName];
    mainNamed := true;
    trace, outcome := RunMain(build, ids, opts, host, tag, trace);
  }

  /** `cide build`. */
  method Build(config: Option<BuildConfig>, opts: BuildOptions, host: Host)
    returns (trace: seq<Command>, outcome: Outcome)
    ensures Run(trace, outcome) == BuildSpec(config, opts, host)
  {
    var containers, mainNamed;
    trace, containers, mainNamed, outcome := BuildBody(config, opts, host);
    var linked := containers;
    if mainNamed {
      linked := Without(containers, host.mainName);
    }
    var raised;
    var body := trace;
    trace, raised := EnsureRegion(containers, linked, host.exec, host.parseInspect, trace);
    if raised.Some? {
      outcome := DockerError(raised.value);
    }
  }

  // --------------------------------------------------------- properties

  /** The verbs the body of `build` uses. */
  const BodyVerbs := {"build", "run", "attach", "cp"}

  /** What a phase that starts after `trace0` promises about the trace it
      extends and about the copy-out: it only appends, with the body's
      verbs; it copies out at most once, only when asked to and when the
      configuration names an export directory, and as its last command;
      and it succeeds, when asked to export, only by copying out. */
  predicate PhaseFacts(build: BuildConfig, opts: BuildOptions, host: Host, trace0: seq<Command>, s: Steps) {
    && |trace0| <= |s.trace| && s.trace[..|trace0|] == trace0
    && VerbsIn(s.trace, BodyVerbs)
    && CountVerb(s.trace, "cp") <= 1
    && (CountVerb(s.trace, "cp") == 1 ==>
          opts.exportArtifacts && build.exportDir.Some? && s.trace[|s.trace| - 1] == CopyOut(build, opts, host))
    && (!(opts.exportArtifacts && build.exportDir.Some?) ==> CountVerb(s.trace, "cp") == 0)
    && (s.outcome == Done && opts.exportArtifacts ==> build.exportDir.Some? && CountVerb(s.trace, "cp") == 1)
    && (opts.exportArtifacts && build.exportDir.None? ==> s.outcome != Done)
  }

  lemma ExportFacts(build: BuildConfig, opts: BuildOptions, host: Host, trace0: seq<Command>)
    requires VerbsIn(trace0, BodyVerbs) && CountVerb(trace0, "cp") == 0
    ensures PhaseFacts(build, opts, host, trace0, ExportSpec(build, opts, host, trace0))
  {
    if opts.exportArtifacts && build.exportDir.Some? {
      var cp := CopyOut(build, opts, host);
      VerbsInAppend(trace0, [cp], BodyVerbs);
      CountVerbAppend(trace0, [cp], "cp");
      assert (trace0 + [cp])[..|trace0|] == trace0;
    }
  }

  lemma MainFacts(build: BuildConfig, ids: seq<string>, opts: BuildOptions, host: Host, tag: string,
                  trace0: seq<Command>)
    requires |ids| == |build.links|
    requires VerbsIn(trace0, BodyVerbs) && CountVerb(trace0, "cp") == 0
    ensures var m := MainSpec(build, ids, opts, host, tag, trace0);
      && PhaseFacts(build, opts, host, trace0, m)
      && |trace0| < |m.trace| && m.trace[|trace0|] == MainRun(build, ids, host, tag)
  {
    var main := MainRun(build, ids, host, tag);
    var attach := Command("attach", [host.mainName]);
    var t1 := trace0 + [main];
    var t2 := t1 + [attach];
    VerbsInAppend(trace0, [main], BodyVerbs);
    VerbsInAppend(t1, [attach], BodyVerbs);
    CountVerbAppend(trace0, [main], "cp");
    CountVerbAppend(t1, [attach], "cp");
    assert t1[..|trace0|] == trace0;
    assert t2[..|trace0|] == trace0 && t2[|trace0|] == main;
    if host.exec(|trace0|, main).Output? && host.exec(|trace0| + 1, attach).Output? {
      ExportFacts(build, opts, host, t2);
      var x := ExportSpec(build, opts, host, t2);
      assert x.trace[..|t2|] == t2;
      assert x.trace[..|trace0|] == t2[..|trace0|];
    }
  }

  lemma RunCommandsVerbs(links: seq<Link>, n: nat)
    requires n <= |links|
    ensures VerbsIn(RunCommands(links)[..n], {"run"})
  {
  }

  /** The `## CI ##` section keeps the phase promises, and records the
      containers as the source does: the launched ids in declaration order,
      then the main name once every link is up, already when the main
      container's run is issued right after the links'. */
  lemma RunPhaseFacts(build: BuildConfig, opts: BuildOptions, host: Host, trace0: seq<Command>)
    requires VerbsIn(trace0, BodyVerbs) && CountVerb(trace0, "cp") == 0
    ensures var r := RunPhase(build, opts, host, trace0);
      var l := LaunchSpec(RunCommands(build.links), host.exec, |trace0|);
      && PhaseFacts(build, opts, host, trace0, Steps(r.trace, r.outcome))
      && |trace0| + Issued(l) <= |r.trace|
      && r.trace[..|trace0| + Issued(l)] == trace0 + RunCommands(build.links)[..Issued(l)]
      && r.containers == l.ids + (if l.failed.None? then [host.mainName] else [])
      && r.mainNamed == l.failed.None?
      && (l.failed.None? ==>
            |trace0| + |build.links| < |r.trace|
            && r.trace[|trace0| + |build.links|] == MainRun(build, l.ids, host, Tag(host, opts.name)))
  {
    var cmds := RunCommands(build.links);
    var l := LaunchSpec(cmds, host.exec, |trace0|);
    var issued := cmds[..Issued(l)];
    var t := trace0 + issued;
    RunCommandsVerbs(build.links, Issued(l));
    assert VerbsIn(issued, BodyVerbs);
    VerbsInAppend(trace0, issued, BodyVerbs);
    CountVerbOutside(issued, BodyVerbs - {"cp"}, "cp");
    CountVerbAppend(trace0, issued, "cp");
    assert t[..|trace0|] == trace0;
    if l.failed.None? {
      MainFacts(build, l.ids, opts, host, Tag(host, opts.name), t);
      var m := MainSpec(build, l.ids, opts, host, Tag(host, opts.name), t);
      assert m.trace[..|t|] == t;
      assert m.trace[..|trace0|] == t[..|trace0|];
    }
  }

  /** The body of `build` keeps the phase promises; without a
      configuration it ends with exit status 1 before any engine command,
      and a missing SSH key fails before any engine command. */
  lemma BodyFacts(config: Option<BuildConfig>, opts: BuildOptions, host: Host)
    ensures var body := BuildBodySpec(config, opts, host);
      && (config.None? ==> body == Body([], [], false, Exit(1)))
      && (config.Some? ==> PhaseFacts(Effective(config.value, opts), opts, host, [], Steps(body.trace, body.outcome)))
      && (config.Some? && config.value.useSsh && !host.keyExists(host.expandKey(opts.sshKey)) ==>
            body.trace == [] && body.outcome == ArgumentError("SSH key " + host.expandKey(opts.sshKey) + " not found"))
  {
    if config.Some? && !(config.value.useSsh && !host.keyExists(host.expandKey(opts.sshKey))) {
      BuiltFacts(config, opts, host);
    }
  }

  /** BodyFacts once the image build is issued. */
  lemma BuiltFacts(config: Option<BuildConfig>, opts: BuildOptions, host: Host)
    requires config.Some? && !(config.value.useSsh && !host.keyExists(host.expandKey(opts.sshKey)))
    ensures var body := BuildBodySpec(config, opts, host);
      PhaseFacts(Effective(config.value, opts), opts, host, [], Steps(body.trace, body.outcome))
  {
    var image := BuildImage(opts, host);
    assert VerbsIn([image], BodyVerbs);
    if host.exec(0, image).Output? {
      RunPhaseFacts(Effective(config.value, opts), opts, host, [image]);
    }
  }

  lemma ExportEnding(build: BuildConfig, opts: BuildOptions, host: Host, trace0: seq<Command>)
    requires AllAnswered(trace0, host.exec)
    ensures var x := ExportSpec(build, opts, host, trace0); EndingAgrees(x.trace, host.exec, x.outcome)
  {
    if opts.exportArtifacts && build.exportDir.Some? {
      var cp := CopyOut(build, opts, host);
      match host.exec(|trace0|, cp)
      case Failed(s) => FailedAppend(trace0, cp, host.exec, s);
      case Output(_) => AnsweredAppend(trace0, cp, host.exec);
    }
  }

  lemma MainEnding(build: BuildConfig, ids: seq<string>, opts: BuildOptions, host: Host, tag: string,
                   trace0: seq<Command>)
    requires |ids| == |build.links| && AllAnswered(trace0, host.exec)
    ensures var m := MainSpec(build, ids, opts, host, tag, trace0); EndingAgrees(m.trace, host.exec, m.outcome)
  {
    var main := MainRun(build, ids, host, tag);
    var attach := Command("attach", [host.mainName]);
    match host.exec(|trace0|, main)
    case Failed(s) => FailedAppend(trace0, main, host.exec, s);
    case Output(_) =>
      AnsweredAppend(trace0, main, host.exec);
      var t := trace0 + [main];
      match host.exec(|t|, attach)
      case Failed(s) => FailedAppend(t, attach, host.exec, s);
      case Output(_) =>
        AnsweredAppend(t, attach, host.exec);
        ExportEnding(build, opts, host, t + [attach]);
  }

  lemma RunPhaseEnding(build: BuildConfig, opts: BuildOptions, host: Host, trace0: seq<Command>)
    requires AllAnswered(trace0, host.exec)
    ensures var r := RunPhase(build, opts, host, trace0); EndingAgrees(r.trace, host.exec, r.outcome)
  {
    var cmds := RunCommands(build.links);
    var l := LaunchSpec(cmds, host.exec, |trace0|);
    LaunchEnding(cmds, host.exec, trace0);
    if l.failed.None? {
      assert cmds[..Issued(l)] == cmds[..|l.ids|];
      MainEnding(build, l.ids, opts, host, Tag(host, opts.name), trace0 + cmds[..Issued(l)]);
    }
  }

  /** The body of `build` ends as the engine's replies say. */
  lemma BodyEnding(config: Option<BuildConfig>, opts: BuildOptions, host: Host)
    requires config.Some?
    ensures var body := BuildBodySpec(config, opts, host); EndingAgrees(body.trace, host.exec, body.outcome)
  {
    var build := Effective(config.value, opts);
    if !(build.useSsh && !host.keyExists(host.expandKey(opts.sshKey))) {
      var image := BuildImage(opts, host);
      assert [] + [image] == [image];
      match host.exec(0, image)
      case Failed(s) => FailedAppend([], image, host.exec, s);
      case Output(_) =>
        AnsweredAppend([], image, host.exec);
        RunPhaseEnding(build, opts, host, [image]);
    }
  }

  /** `exit ex.exitstatus`: once the configuration is loaded, `build` exits
      with a status only as the failure status of the last engine command
      of its body, every earlier command having succeeded; its other
      endings follow successful commands only. The ensure region keeps
      that status unless it fails itself. */
  lemma BuildExitStatus(config: Option<BuildConfig>, opts: BuildOptions, host: Host)
    requires config.Some?
    ensures var body := BuildBodySpec(config, opts, host); var r := BuildSpec(config, opts, host);
      && EndingAgrees(body.trace, host.exec, body.outcome)
      && (r.outcome.Exit? ==> r.outcome == body.outcome)
  {
    BodyEnding(config, opts, host);
  }

  /** The engine's first command is the image build, with `--force-rm`,
      `--pull` exactly when asked, the DOCKERFILE and the tag
      `cide/<normalised name>`; nothing precedes it. */
  lemma BuildImageFirst(config: Option<BuildConfig>, opts: BuildOptions, host: Host)
    requires config.Some? && !(config.value.useSsh && !host.keyExists(host.expandKey(opts.sshKey)))
    ensures var r := BuildSpec(config, opts, host);
      r.trace != [] && r.trace[0] == Command("build", BuildArgs(opts.pull, host.dockerfile, "cide/" + host.dockerId(opts.name)))
  {
    var image := BuildImage(opts, host);
    if host.exec(0, image).Output? {
      var build := Effective(config.value, opts);
      assert VerbsIn([image], BodyVerbs);
      RunPhaseFacts(build, opts, host, [image]);
      var body := BuildBodySpec(config, opts, host);
      assert body.trace[..1] == [image];
    }
  }

  /** The launch of `build` starts the links right after the image build;
      `containers` is the launched ids in declaration order followed, once
      every link is up, by the main container's name, recorded before its
      run is issued so that it is removed even when that run fails. */
  lemma ContainersRecorded(config: Option<BuildConfig>, opts: BuildOptions, host: Host)
    requires config.Some? && !(config.value.useSsh && !host.keyExists(host.expandKey(opts.sshKey)))
    requires host.exec(0, BuildImage(opts, host)).Output?
    ensures var build := Effective(config.value, opts);
      var l := LaunchSpec(RunCommands(build.links), host.exec, 1);
      var body := BuildBodySpec(config, opts, host);
      && body.containers == l.ids + (if l.failed.None? then [host.mainName] else [])
      && 1 + Issued(l) <= |body.trace|
      && body.trace[1..1 + Issued(l)] == RunCommands(build.links)[..Issued(l)]
      && (l.failed.None? ==>
            1 + |build.links| < |body.trace|
            && body.trace[1 + |build.links|] == Command("run", MainRunArgs(build, l.ids, host.mainName, Tag(host, opts.name))))
  {
    var image := BuildImage(opts, host);
    var build := Effective(config.value, opts);
    var l := LaunchSpec(RunCommands(build.links), host.exec, 1);
    assert VerbsIn([image], BodyVerbs);
    RunPhaseFacts(build, opts, host, [image]);
    var body := BuildBodySpec(config, opts, host);
    assert body.trace[1..1 + Issued(l)] == body.trace[..1 + Issued(l)][1..];
  }

  /** Teardown comes last on every exit path of the body once the
      diagnosis went through: one `rm --force` naming the recorded
      containers most recent first, and none when nothing was recorded. */
  lemma TeardownLast(config: Option<BuildConfig>, opts: BuildOptions, host: Host)
    requires var body := BuildBodySpec(config, opts, host);
      Inspection(Linked(body, host), host.exec, |body.trace|, host.parseInspect).raised.None?
    ensures var body := BuildBodySpec(config, opts, host); var r := BuildSpec(config, opts, host);
      && (body.containers != [] ==>
            r.trace[|r.trace| - 1] == Command("rm", ["--force"] + Reversed(body.containers))
            && CountVerb(r.trace, "rm") == 1)
      && (body.containers == [] ==> CountVerb(r.trace, "rm") == 0)
  {
    var body := BuildBodySpec(config, opts, host);
    var e := EnsureSpec(body.containers, Linked(body, host), host.exec, |body.trace|, host.parseInspect);
    BodyFacts(config, opts, host);
    CountVerbOutside(body.trace, BodyVerbs, "rm");
    RemovalIsLast(body.containers, Linked(body, host), host.exec, |body.trace|, host.parseInspect);
    CountVerbAppend(body.trace, e.trace, "rm");
  }

  /** With the corrected region, teardown holds on every exit path with no
      condition on the diagnosis: one `rm --force` over the recorded
      containers, most recent first, as the last command. */
  lemma IntendedTeardownLast(config: Option<BuildConfig>, opts: BuildOptions, host: Host)
    ensures var body := BuildBodySpec(config, opts, host); var r := BuildSpecIntended(config, opts, host);
      && (body.containers != [] ==>
            r.trace[|r.trace| - 1] == Command("rm", ["--force"] + Reversed(body.containers))
            && CountVerb(r.trace, "rm") == 1)
  {
    var body := BuildBodySpec(config, opts, host);
    if body.containers != [] {
      var e := EnsureSpecIntended(body.containers, Linked(body, host), host.exec, |body.trace|, host.parseInspect);
      BodyFacts(config, opts, host);
      CountVerbOutside(body.trace, BodyVerbs, "rm");
      IntendedRemovalAlwaysLast(body.containers, Linked(body, host), host.exec, |body.trace|, host.parseInspect);
      CountVerbAppend(body.trace, e.trace, "rm");
    }
  }

  /** The diagnosis looks at every recorded container except the main one
      (provided no link was handed the main container's name as its id). */
  lemma LinkedAreTheLinks(config: Option<BuildConfig>, opts: BuildOptions, host: Host)
    requires config.Some? ==>
      host.mainName !in LaunchSpec(RunCommands(Effective(config.value, opts).links), host.exec, 1).ids
    ensures var body := BuildBodySpec(config, opts, host);
      && |body.containers| >= (if body.mainNamed then 1 else 0)
      && Linked(body, host) == body.containers[..|body.containers| - (if body.mainNamed then 1 else 0)]
  {
    var body := BuildBodySpec(config, opts, host);
    if body.mainNamed {
      var build := Effective(config.value, opts);
      var l := LaunchSpec(RunCommands(build.links), host.exec, 1);
      ContainersRecorded(config, opts, host);
      assert body.containers == l.ids + [host.mainName];
      assert Without(body.containers, host.mainName) == Without(l.ids, host.mainName);
      WithoutAbsent(l.ids, host.mainName);
      assert body.containers[..|body.containers| - 1] == l.ids;
    }
  }

  lemma CopiesOfRun(config: Option<BuildConfig>, opts: BuildOptions, host: Host)
    ensures var body := BuildBodySpec(config, opts, host); var r := BuildSpec(config, opts, host);
      && CountVerb(r.trace, "cp") == CountVerb(body.trace, "cp")
      && (r.outcome == Done ==> body.outcome == Done)
  {
    var body := BuildBodySpec(config, opts, host);
    var e := EnsureSpec(body.containers, Linked(body, host), host.exec, |body.trace|, host.parseInspect);
    EnsureVerbs(body.containers, Linked(body, host), host.exec, |body.trace|, host.parseInspect);
    CountVerbOutside(e.trace, {"inspect", "logs", "rm"}, "cp");
    CountVerbAppend(body.trace, e.trace, "cp");
  }

  /** Without the export option nothing is copied out. */
  lemma NoExportNoCopy(config: Option<BuildConfig>, opts: BuildOptions, host: Host)
    requires !opts.exportArtifacts
    ensures CountVerb(BuildSpec(config, opts, host).trace, "cp") == 0
  {
    BodyFacts(config, opts, host);
    CopiesOfRun(config, opts, host);
  }

  /** Asked to export without an export directory in the configuration,
      `build` copies nothing out and does not succeed. */
  lemma ExportNeedsDir(config: Option<BuildConfig>, opts: BuildOptions, host: Host)
    requires config.Some? && opts.exportArtifacts && config.value.exportDir.None?
    ensures var r := BuildSpec(config, opts, host);
      CountVerb(r.trace, "cp") == 0 && r.outcome != Done
  {
    BodyFacts(config, opts, host);
    CopiesOfRun(config, opts, host);
  }

  /** Asked to export with an export directory, `build` copies out at most
      once, and when it succeeds it has issued exactly one copy, from the
      main container's guest directory to the host directory. */
  lemma ExportCopiesOnce(config: Option<BuildConfig>, opts: BuildOptions, host: Host)
    requires config.Some? && opts.exportArtifacts && config.value.exportDir.Some?
    ensures var r := BuildSpec(config, opts, host);
      && CountVerb(r.trace, "cp") <= 1
      && (r.outcome == Done ==> CountVerb(r.trace, "cp") == 1 && CopyOut(config.value, opts, host) in r.trace)
  {
    var body := BuildBodySpec(config, opts, host);
    BodyFacts(config, opts, host);
    CopiesOfRun(config, opts, host);
    assert CopyOut(Effective(config.value, opts), opts, host) == CopyOut(config.value, opts, host);
    if BuildSpec(config, opts, host).outcome == Done {
      assert body.trace[|body.trace| - 1] in BuildSpec(config, opts, host).trace;
    }
  }
}
