/** The build configuration the CLI reads (loaded from the project's
    config file by code that is not part of this model) and the argument
    lists the CLI assembles from it for `docker build` and `docker run`. */
module Arguments {
  import opened Optional

  /** An environment mapping, in the order its pairs are enumerated. */
  type Env = seq<(string, string)>

  /** A linked service: started detached before the main container and
      reached from it under `name`. */
  datatype Link = Link(name: string, image: string, env: Env, run: Option<string>)

  datatype BuildConfig = BuildConfig(
    exportDir: Option<string>,
    useSsh: bool,
    run: seq<string>,
    env: Env,
    links: seq<Link>)

  /** `[key, value].join('=')` */
  function Assignment(kv: (string, string)): string {
    kv.0 + "=" + kv.1
  }

  /** One `--env key=value` pair per entry, in enumeration order. */
  function EnvArgs(env: Env): (r: seq<string>)
    ensures |r| == 2 * |env|
  {
    if env == [] then [] else EnvArgs(env[..|env| - 1]) + ["--env", Assignment(env[|env| - 1])]
  }

  lemma {:induction false} EnvArgsAt(env: Env, i: nat)
    requires i < |env|
    ensures EnvArgs(env)[2 * i] == "--env"
    ensures EnvArgs(env)[2 * i + 1] == env[i].0 + "=" + env[i].1
  {
    if i < |env| - 1 {
      EnvArgsAt(env[..|env| - 1], i);
    }
  }

  /** `[link.id, link.name].join(':')` */
  function LinkTarget(id: string, link: Link): string {
    id + ":" + link.name
  }

  /** One `--link id:name` pair per link, in declaration order. */
  function LinkArgs(links: seq<Link>, ids: seq<string>): (r: seq<string>)
    requires |ids| == |links|
    ensures |r| == 2 * |links|
  {
    if links == [] then []
    else LinkArgs(links[..|links| - 1], ids[..|ids| - 1]) + ["--link", LinkTarget(ids[|ids| - 1], links[|links| - 1])]
  }

  lemma {:induction false} LinkArgsAt(links: seq<Link>, ids: seq<string>, j: nat)
    requires |ids| == |links| && j < |links|
    ensures LinkArgs(links, ids)[2 * j] == "--link"
    ensures LinkArgs(links, ids)[2 * j + 1] == ids[j] + ":" + links[j].name
  {
    if j < |links| - 1 {
      LinkArgsAt(links[..|links| - 1], ids[..|ids| - 1], j);
    }
  }

  /** The loop `env.each_pair { |k, v| args.push('--env', "k=v") }`. */
  method AppendEnv(args: seq<string>, env: Env) returns (r: seq<string>)
    ensures r == args + EnvArgs(env)
  {
    r := args;
    var i := 0;
    while i < |env|
      invariant 0 <= i <= |env|
      invariant r == args + EnvArgs(env[..i])
    {
      assert env[..i + 1][..i] == env[..i];
      r := r + ["--env", Assignment(env[i])];
      i := i + 1;
    }
    assert env[..i] == env;
  }

  /** The loop `links.each { |link| run_options.push('--link', "id:name") }`. */
  method AppendLinks(args: seq<string>, links: seq<Link>, ids: seq<string>) returns (r: seq<string>)
    requires |ids| == |links|
    ensures r == args + LinkArgs(links, ids)
  {
    r := args;
    var j := 0;
    while j < |links|
      invariant 0 <= j <= |links|
      invariant r == args + LinkArgs(links[..j], ids[..j])
    {
      assert links[..j + 1][..j] == links[..j];
      assert ids[..j + 1][..j] == ids[..j];
      r := r + ["--link", LinkTarget(ids[j], links[j])];
      j := j + 1;
    }
    assert links[..j] == links && ids[..j] == ids;
  }

  /** The `docker build` options: `--force-rm`, `--pull` when pulling is
      asked for, then `-f DOCKERFILE -t tag .`. */
  function BuildArgs(pull: bool, dockerfile: string, tag: string): (r: seq<string>)
    ensures |r| == if pull then 7 else 6
    ensures r[0] == "--force-rm"
    ensures (r[1] == "--pull") == pull
    ensures r[|r| - 5..] == ["-f", dockerfile, "-t", tag, "."]
  {
    ["--force-rm"] + (if pull then ["--pull"] else []) + ["-f", dockerfile] + ["-t", tag] + ["."]
  }

  /** The detached `docker run` of one link: `--detach`, its environment,
      its image and its command when it has one. */
  function LinkRunArgs(link: Link): (r: seq<string>)
  {
    ["--detach"] + EnvArgs(link.env) + [link.image] + (if link.run.Some? then [link.run.value] else [])
  }

  lemma LinkRunArgsLayout(link: Link)
    ensures var r := LinkRunArgs(link); var e := 2 * |link.env|;
      && |r| == e + 2 + (if link.run.Some? then 1 else 0)
      && r[0] == "--detach"
      && (forall i :: 0 <= i < |link.env| ==>
            r[1 + 2 * i] == "--env" && r[2 + 2 * i] == link.env[i].0 + "=" + link.env[i].1)
      && r[1 + e] == link.image
      && (link.run.Some? ==> r[2 + e] == link.run.value)
  {
    var r := LinkRunArgs(link);
    forall i | 0 <= i < |link.env|
      ensures r[1 + 2 * i] == "--env" && r[2 + 2 * i] == link.env[i].0 + "=" + link.env[i].1
    {
      EnvArgsAt(link.env, i);
    }
  }

  lemma EnvArgsInside(pre: seq<string>, env: Env, post: seq<string>, i: nat)
    requires i < |env|
    ensures (pre + EnvArgs(env) + post)[|pre| + 2 * i] == "--env"
    ensures (pre + EnvArgs(env) + post)[|pre| + 2 * i + 1] == env[i].0 + "=" + env[i].1
  {
    EnvArgsAt(env, i);
  }

  lemma LinkArgsInside(pre: seq<string>, links: seq<Link>, ids: seq<string>, post: seq<string>, j: nat)
    requires |ids| == |links| && j < |links|
    ensures (pre + LinkArgs(links, ids) + post)[|pre| + 2 * j] == "--link"
    ensures (pre + LinkArgs(links, ids) + post)[|pre| + 2 * j + 1] == ids[j] + ":" + links[j].name
  {
    LinkArgsAt(links, ids, j);
  }

  /** The detached `docker run` of the main container. */
  function MainRunArgs(config: BuildConfig, ids: seq<string>, name: string, tag: string): seq<string>
    requires |ids| == |config.links|
  {
    ["--detach"] + EnvArgs(config.env) + LinkArgs(config.links, ids) + ["--name", name] + [tag] + config.run
  }

  lemma MainRunEnvAt(config: BuildConfig, ids: seq<string>, name: string, tag: string)
    requires |ids| == |config.links|
    ensures var r := MainRunArgs(config, ids, name, tag);
      forall i :: 0 <= i < |config.env| ==>
        r[1 + 2 * i] == "--env" && r[2 + 2 * i] == config.env[i].0 + "=" + config.env[i].1
  {
    var links, tail := LinkArgs(config.links, ids), ["--name", name] + [tag] + config.run;
    assert MainRunArgs(config, ids, name, tag) == ["--detach"] + EnvArgs(config.env) + (links + tail);
    forall i | 0 <= i < |config.env| {
      EnvArgsInside(["--detach"], config.env, links + tail, i);
    }
  }

  lemma MainRunLinkAt(config: BuildConfig, ids: seq<string>, name: string, tag: string)
    requires |ids| == |config.links|
    ensures var r := MainRunArgs(config, ids, name, tag); var e := 2 * |config.env|;
      forall j :: 0 <= j < |config.links| ==>
        r[1 + e + 2 * j] == "--link" && r[2 + e + 2 * j] == ids[j] + ":" + config.links[j].name
  {
    var head, tail := ["--detach"] + EnvArgs(config.env), ["--name", name] + [tag] + config.run;
    assert MainRunArgs(config, ids, name, tag) == head + LinkArgs(config.links, ids) + tail;
    forall j | 0 <= j < |config.links| {
      LinkArgsInside(head, config.links, ids, tail, j);
    }
  }

  /** The main run's options: `--detach`, the environment pairs, one
      `--link id:name` per link in declaration order, `--name` with the
      generated name, the image tag, then the command to run. */
  lemma MainRunArgsLayout(config: BuildConfig, ids: seq<string>, name: string, tag: string)
    requires |ids| == |config.links|
    ensures var r := MainRunArgs(config, ids, name, tag);
      var e := 2 * |config.env|; var l := 2 * |config.links|;
      && |r| == 4 + e + l + |config.run|
      && r[0] == "--detach"
      && (forall i :: 0 <= i < |config.env| ==>
            r[1 + 2 * i] == "--env" && r[2 + 2 * i] == config.env[i].0 + "=" + config.env[i].1)
      && (forall j :: 0 <= j < |config.links| ==>
            r[1 + e + 2 * j] == "--link" && r[2 + e + 2 * j] == ids[j] + ":" + config.links[j].name)
      && r[1 + e + l] == "--name" && r[2 + e + l] == name && r[3 + e + l] == tag
      && r[4 + e + l..] == config.run
  {
    var r := MainRunArgs(config, ids, name, tag);
    var head := ["--detach"] + EnvArgs(config.env) + LinkArgs(config.links, ids);
    var tail := ["--name", name] + [tag] + config.run;
    assert r == head + tail;
    assert r[|head|..] == tail;
    MainRunEnvAt(config, ids, name, tag);
    MainRunLinkAt(config, ids, name, tag);
  }

  /** The interactive `docker run` of `debug`. */
  function DebugRunArgs(user: string, config: BuildConfig, ids: seq<string>, tag: string): seq<string>
    requires |ids| == |config.links|
  {
    ["--rm", "-t", "-i"] + ["--user", user] + EnvArgs(config.env) + LinkArgs(config.links, ids) + [tag] + ["bash"]
  }

  lemma DebugRunEnvAt(user: string, config: BuildConfig, ids: seq<string>, tag: string)
    requires |ids| == |config.links|
    ensures var r := DebugRunArgs(user, config, ids, tag);
      forall i :: 0 <= i < |config.env| ==>
        r[5 + 2 * i] == "--env" && r[6 + 2 * i] == config.env[i].0 + "=" + config.env[i].1
  {
    var head, rest := ["--rm", "-t", "-i", "--user", user], LinkArgs(config.links, ids) + [tag, "bash"];
    assert DebugRunArgs(user, config, ids, tag) == head + EnvArgs(config.env) + rest;
    forall i | 0 <= i < |config.env| {
      EnvArgsInside(head, config.env, rest, i);
    }
  }

  lemma DebugRunLinkAt(user: string, config: BuildConfig, ids: seq<string>, tag: string)
    requires |ids| == |config.links|
    ensures var r := DebugRunArgs(user, config, ids, tag); var e := 2 * |config.env|;
      forall j :: 0 <= j < |config.links| ==>
        r[5 + e + 2 * j] == "--link" && r[6 + e + 2 * j] == ids[j] + ":" + config.links[j].name
  {
    var head := ["--rm", "-t", "-i", "--user", user] + EnvArgs(config.env);
    assert DebugRunArgs(user, config, ids, tag) == head + LinkArgs(config.links, ids) + [tag, "bash"];
    forall j | 0 <= j < |config.links| {
      LinkArgsInside(head, config.links, ids, [tag, "bash"], j);
    }
  }

  /** The debug session runs `bash` in the tagged image, removed by the
      engine on exit, as the chosen user, with the same environment and
      link options as the main run of `build` and without a name. */
  lemma DebugRunArgsLayout(user: string, config: BuildConfig, ids: seq<string>, tag: string)
    requires |ids| == |config.links|
    ensures var r := DebugRunArgs(user, config, ids, tag);
      var e := 2 * |config.env|; var l := 2 * |config.links|;
      && |r| == 7 + e + l
      && r[..5] == ["--rm", "-t", "-i", "--user", user]
      && (forall i :: 0 <= i < |config.env| ==>
            r[5 + 2 * i] == "--env" && r[6 + 2 * i] == config.env[i].0 + "=" + config.env[i].1)
      && (forall j :: 0 <= j < |config.links| ==>
            r[5 + e + 2 * j] == "--link" && r[6 + e + 2 * j] == ids[j] + ":" + config.links[j].name)
      && r[5 + e + l..] == [tag, "bash"]
  {
    var r := DebugRunArgs(user, config, ids, tag);
    var head := ["--rm", "-t", "-i", "--user", user];
    var mid := EnvArgs(config.env) + LinkArgs(config.links, ids);
    assert r == head + mid + [tag, "bash"];
    assert r[..5] == head;
    assert r[5 + |mid|..] == [tag, "bash"];
    DebugRunEnvAt(user, config, ids, tag);
    DebugRunLinkAt(user, config, ids, tag);
  }
}
