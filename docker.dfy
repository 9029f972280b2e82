/** Optional values: Ruby's nil next to a present value. */
module Optional {
  datatype Option<+T> = None | Some(value: T)
}

/** The container engine as the CLI sees it. Every `docker(...)` call is a
    command given to an abstract executor, which either prints something
    (the captured standard output) or fails with the process exit status
    (Docker::Error). The observable behaviour of a CLI command is the log of
    commands it issues, in order, and how it ends. */
module Docker {

  /** One engine invocation: `docker <verb> <args...>`. */
  datatype Command = Command(verb: string, args: seq<string>)

  datatype Reply = Output(text: string) | Failed(status: int)

  /** The engine's reply to the k-th command issued during one CLI run
      (counting from 0). Any deterministic or scripted engine is one of these. */
  type Executor = (nat, Command) -> Reply

  /** The fields of one `docker inspect` record of a container that the
      failure diagnosis reads: Id, Config.Image, State.Dead, State.ExitCode. */
  datatype ContainerInfo = ContainerInfo(id: string, image: string, dead: bool, exitCode: int)

  /** The fields of one `docker inspect` record of an image that the clean
      command reads: Id and Created (an instant, in nanoseconds). */
  datatype ImageInfo = ImageInfo(id: string, created: int)

  /** How one CLI command ends. */
  datatype Outcome =
    | Done                           // the command returned normally
    | NothingToClean                 // `clean` printed 'No images found to be cleaned'
    | Exit(code: int)                // Kernel#exit with this status
    | ArgumentError(message: string) // raised and not rescued
    | RuntimeError(message: string)  // raised by `fail`, not rescued
    | DockerError(status: int)       // an engine failure nothing rescued
    | StopIteration                  // `iter.next` on an empty listing

  /** Every command of the trace, the k-th being the engine's command
      number k, was answered with output. */
  predicate AllAnswered(trace: seq<Command>, exec: Executor) {
    forall k :: 0 <= k < |trace| ==> exec(k, trace[k]).Output?
  }

  /** The ending of a run agrees with the engine: an exit status is the
      failure status of the last command issued, every earlier one having
      succeeded; any other ending follows successful commands only. */
  predicate EndingAgrees(trace: seq<Command>, exec: Executor, outcome: Outcome) {
    if outcome.Exit? then
      && trace != [] && AllAnswered(trace[..|trace| - 1], exec)
      && exec(|trace| - 1, trace[|trace| - 1]) == Failed(outcome.code)
    else AllAnswered(trace, exec)
  }

  lemma AnsweredAppend(trace: seq<Command>, c: Command, exec: Executor)
    requires AllAnswered(trace, exec) && exec(|trace|, c).Output?
    ensures AllAnswered(trace + [c], exec)
  {
    forall k | 0 <= k < |trace| + 1 ensures exec(k, (trace + [c])[k]).Output? {
      if k < |trace| { assert (trace + [c])[k] == trace[k]; }
    }
  }

  lemma FailedAppend(trace: seq<Command>, c: Command, exec: Executor, status: int)
    requires AllAnswered(trace, exec) && exec(|trace|, c) == Failed(status)
    ensures EndingAgrees(trace + [c], exec, Exit(status))
  {
    assert (trace + [c])[..|trace|] == trace;
  }

  /** The number of commands with the given verb. */
  function CountVerb(trace: seq<Command>, verb: string): nat {
    if trace == [] then 0
    else (if trace[0].verb == verb then 1 else 0) + CountVerb(trace[1..], verb)
  }

  lemma {:induction false} CountVerbAppend(a: seq<Command>, b: seq<Command>, verb: string)
    ensures CountVerb(a + b, verb) == CountVerb(a, verb) + CountVerb(b, verb)
  {
    if a != [] {
      assert (a + b)[1..] == a[1..] + b;
      CountVerbAppend(a[1..], b, verb);
    } else {
      assert a + b == b;
    }
  }

  lemma {:induction false} CountVerbNone(trace: seq<Command>, verb: string)
    requires forall i :: 0 <= i < |trace| ==> trace[i].verb != verb
    ensures CountVerb(trace, verb) == 0
  {
    if trace != [] { CountVerbNone(trace[1..], verb); }
  }

  /** Every command of the trace has one of the given verbs. */
  predicate VerbsIn(trace: seq<Command>, verbs: set<string>) {
    forall k :: 0 <= k < |trace| ==> trace[k].verb in verbs
  }

  lemma CountVerbOutside(trace: seq<Command>, verbs: set<string>, verb: string)
    requires VerbsIn(trace, verbs) && verb !in verbs
    ensures CountVerb(trace, verb) == 0
  {
    CountVerbNone(trace, verb);
  }

  lemma VerbsInAppend(a: seq<Command>, b: seq<Command>, verbs: set<string>)
    requires VerbsIn(a, verbs) && VerbsIn(b, verbs)
    ensures VerbsIn(a + b, verbs)
  {
    forall k | 0 <= k < |a + b| ensures (a + b)[k].verb in verbs {
      if k >= |a| { assert (a + b)[k] == b[k - |a|]; }
    }
  }
}
