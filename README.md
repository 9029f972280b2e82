# cide command-line core, modelled in Dafny

cide builds a project inside Docker from a per-project configuration. It
builds an image from the generated Dockerfile, starts the configured linked
services, runs the project's script in a main container, optionally copies
artifacts out, and always tears the containers down again. This project
models the three commands of `lib/cide/cli.rb` that carry that logic:

- `build`;
- `debug`, which opens an interactive shell next to the same linked services;
- `clean`, the garbage collection of old project images.

It also models the integer arithmetic of `banner`.

Every `docker(...)` call is a `Docker.Command` handed to an abstract
`Executor`. The executor answers the k-th command of a run either with
captured output or with a failure exit status, which is a Docker::Error.
The observable behaviour of a command is the list of engine commands it
issues and how it ends (`Docker.Outcome`):

- a normal return;
- `exit` with a status;
- an unrescued ArgumentError, RuntimeError or engine error;
- StopIteration.

Each imperative part of the source is a method that grows the trace and the
`containers` array step by step. Each method is proved equal to a
specification function, and the properties are lemmas about those functions:

- the argument lists;
- the per-link launch loop;
- the ensure region's diagnosis loop;
- the phases of `build` and `debug`.

`clean`'s map/select/sort pipeline and `banner` are pure functions.

Modules, in dependency order:

- `RubyText`: String#strip, #lines, #split(/\s+/);
- `Optional`, `Docker`: engine and outcomes;
- `Arguments`: configuration and option lists;
- `Launcher`: the link launch loop;
- `Cleanup`: the ensure region;
- `BuildCommand`, `DebugCommand`, `Clean`, `Banner`.

## Model

| member | source | states |
|---|---|---|
| Arguments.BuildArgs | lib/cide/cli.rb:79-83 | `--force-rm` first, `--pull` second exactly when pulling is asked for, and the last five are `-f DOCKERFILE -t tag .`; 7 arguments with pull, 6 without |
| BuildCommand.BuildOptionList | lib/cide/cli.rb:79-84 | the push-by-push construction yields exactly BuildArgs |
| BuildCommand.BuildImageFirst | lib/cide/cli.rb:66-84 | once the configuration loads and the SSH key check passes, the first engine command is the build with BuildArgs and the tag `cide/` + id(name), and nothing precedes it |
| Arguments.EnvArgsAt | lib/cide/cli.rb:101-103 | the i-th environment pair becomes `--env` at 2i and `key=value` at 2i+1, in enumeration order |
| Arguments.LinkArgsAt | lib/cide/cli.rb:105-107 | the j-th link becomes `--link` at 2j and `id:name` at 2j+1, with the j-th launched id |
| Arguments.AppendEnv | lib/cide/cli.rb:101-103 | the each_pair loop appends exactly the `--env` pairs of EnvArgs after the existing arguments |
| Arguments.AppendLinks | lib/cide/cli.rb:105-107 | the links loop appends exactly the `--link` pairs of LinkArgs after the existing arguments |
| Arguments.LinkRunArgsLayout | lib/cide/cli.rb:89-94 | a link starts with `--detach`, then one `--env k=v` per entry, then its image, then its command only when it has one; the length is 2 + 2·env (+1 with a command) |
| Launcher.LinkRunOptions | lib/cide/cli.rb:89-94 | the link's option list, built step by step, is LinkRunArgs |
| Arguments.MainRunArgsLayout | lib/cide/cli.rb:99-113 | main run options: `--detach`, each env pair at its position, each `--link id:name` in declaration order, then `--name <generated name>`, the tag, and the run command as the remaining suffix |
| BuildCommand.MainRunOptions | lib/cide/cli.rb:99-113 | the pushes build exactly MainRunArgs |
| Arguments.DebugRunArgsLayout | lib/cide/cli.rb:195-208 | debug shell options: `--rm -t -i --user <user>`, the same env and link options as the main run, then exactly `[tag, "bash"]`, and no `--name` |
| DebugCommand.DebugRunOptions | lib/cide/cli.rb:195-208 | the pushes build exactly DebugRunArgs |
| Launcher.LaunchSpec | lib/cide/cli.rb:88-97 | the launch issues at most one start per link, and one per link when none fails; LaunchSpecLaunched and LaunchedUnique state what it means |
| Launcher.LaunchEnding | lib/cide/cli.rb:88-97 | every start before the recorded ids was answered with output, and a failing launch ends on the start whose failure status it reports |
| Launcher.LaunchSpecLaunched | lib/cide/cli.rb:88-97 | the launch starts the links in declaration order: the k-th start is engine command start+k and succeeded; the k-th id is its stripped reply; the launch stops at the first failing start with that status |
| Launcher.LaunchedUnique | lib/cide/cli.rb:88-97 | that meaning determines the launch: any launch satisfying it equals LaunchSpec |
| Launcher.LaunchLinks | lib/cide/cli.rb:88-97 | the loop issues the link starts after the earlier commands, records the stripped ids in order, and stops at the first failure; the ids already obtained stay recorded |
| Launcher.StartLinks | lib/cide/cli.rb:88-97 | the loop's ids, failure and trace are those of LaunchSpec, shared by `build` and `debug` |
| Cleanup.IssueAllInOrder | lib/cide/cli.rb:141-151 | issuing in order: a prefix of the commands is issued; every issued command but a failing last one succeeded; all are issued unless one failed |
| Cleanup.IssuedInOrderUnique | lib/cide/cli.rb:141-151 | issuing in order determines the result uniquely |
| Cleanup.FailedLogsExactly | lib/cide/cli.rb:145-150 | every record with Dead or ExitCode > 0 gets `logs --tail 20 <id>`, and every logs command belongs to such a record |
| Cleanup.Diagnose | lib/cide/cli.rb:141-151 | the diagnosis loop extends the trace, issuing the logs commands of the failing records in order and stopping at the first engine failure; its result is that of IssueAll over those commands |
| Cleanup.Without | lib/cide/cli.rb:133 | `containers - [id]` never contains id, and an element is in it exactly when it is in the input and differs from id |
| Cleanup.WithoutCounts | lib/cide/cli.rb:133 | `containers - [id]` keeps every other element as often as it occurs: its multiset is the input's with id's count set to zero |
| Cleanup.WithoutConcat | lib/cide/cli.rb:133 | `containers - [id]` works piece by piece: removing from a concatenation is concatenating the removals, so the order of what remains is kept |
| Cleanup.WithoutSingle | lib/cide/cli.rb:133 | a single element stays exactly when it differs from id |
| Cleanup.ReversedAt | lib/cide/cli.rb:155 | `containers.reverse` has the same length, and position i holds element n-1-i |
| Cleanup.InspectsLinkedOnly | lib/cide/cli.rb:133-140 | the region issues one `inspect` naming exactly the linked containers, first; with no linked container it issues no inspect |
| Cleanup.DiagnosisThenRemoval | lib/cide/cli.rb:133-158 | when the diagnosis succeeds, the region is the inspect, the logs of exactly the failing records in order, then the removal (absent when nothing was recorded) |
| Cleanup.RemovalIsLast | lib/cide/cli.rb:153-158 | once the diagnosis has gone through: with containers recorded, exactly one `rm --force` over them reversed, as the last command; with none, no `rm` |
| Cleanup.Inspection | lib/cide/cli.rb:133-152 | the diagnosis half of the region: one `inspect` of the linked containers, then the logs of the failing records, stopping at the first engine failure; InspectionVerbs, DiagnosisIssuesLogs and InspectsLinkedOnly state its properties |
| Cleanup.Removal | lib/cide/cli.rb:153-158 | the removal half issues at most one command, none exactly when nothing was recorded, and raises only after issuing it; RemovalVerbs and RemovalIsLast state which command |
| Cleanup.EnsureSpec | lib/cide/cli.rb:132-158 | the region as written: the diagnosis, then the removal only if the diagnosis raised nothing; its properties are InspectsLinkedOnly, DiagnosisThenRemoval, RemovalIsLast, DiagnosisFailureSkipsRemoval and EnsureVerbs |
| Cleanup.Inspect | lib/cide/cli.rb:133-152 | the diagnosis half of the region, step by step, yields the trace and escaping failure of Inspection |
| Cleanup.Remove | lib/cide/cli.rb:153-158 | the removal half yields the trace and escaping failure of Removal |
| Cleanup.EnsureRegion | lib/cide/cli.rb:132-158 | the region as written: diagnosis, then removal only if the diagnosis raised nothing |
| Cleanup.DiagnosisFailureSkipsRemoval | lib/cide/cli.rb:134-158 | as written, an engine failure during the diagnosis means no `rm` is issued, and that failure escapes |
| Cleanup.InspectFailureLeavesContainers | lib/cide/cli.rb:135-140 | a concrete case: with containers `l1` and `m` and a failing inspect of `l1`, the region issues only the inspect and raises status 1 |
| Cleanup.IntendedRemovalAlwaysLast | lib/cide/cli.rb:153-158 | in the corrected region, with containers recorded, one `rm --force` over them reversed is always the last command, whatever the diagnosis did |
| Cleanup.EnsureVerbs | lib/cide/cli.rb:132-158 | the region only inspects, fetches logs and removes |
| BuildCommand.Export | lib/cide/cli.rb:121-128 | the export section step by step equals ExportSpec: nothing without the option; RuntimeError without the config's export dir; otherwise one `cp id:guest host` |
| BuildCommand.RunMain | lib/cide/cli.rb:115-128 | the main run, then the attach, then the export section, each stopping the body at its engine failure; equals MainSpec |
| BuildCommand.RunContainers | lib/cide/cli.rb:86-128 | the CI section: links launched, `containers` grown by their ids, the main name appended before its run; equals RunPhase |
| BuildCommand.BuildBody | lib/cide/cli.rb:53-131 | the body up to its rescue equals BuildBodySpec: exit 1 without a config; ArgumentError for a missing SSH key; exit with the build's status if it fails; otherwise the CI section |
| BuildCommand.Build | lib/cide/cli.rb:53-159 | the whole command: the body, then the ensure region over the recorded containers minus the main name, whose engine failure replaces the body's ending |
| BuildCommand.ExportFacts | lib/cide/cli.rb:122-128 | the export section only appends; it copies at most once, and only with the option and an export dir, as its last command; asked to export, it succeeds only by copying |
| BuildCommand.MainFacts | lib/cide/cli.rb:115-128 | the same promises from the main run on, and the main run is the first command it adds |
| BuildCommand.RunPhaseFacts | lib/cide/cli.rb:86-128 | the CI section starts the links first; `containers` is the launched ids, then the main name once all links are up, and the main run follows the link starts directly |
| BuildCommand.BodyFacts | lib/cide/cli.rb:59-77 | no config gives an empty trace and exit 1; a missing SSH key gives an empty trace and ArgumentError "SSH key <path> not found"; otherwise the body keeps the phase promises |
| BuildCommand.BuiltFacts | lib/cide/cli.rb:79-128 | from the image build on, the body uses only build/run/attach/cp and keeps the copy-out promises |
| BuildCommand.ContainersRecorded | lib/cide/cli.rb:88-116 | after the image build, the link starts come next in declaration order; `containers` is their ids, plus the main name once all are up, recorded before the main run is issued |
| BuildCommand.LinkedAreTheLinks | lib/cide/cli.rb:133 | the containers diagnosed are all recorded ones except the main name, which is last when recorded |
| BuildCommand.TeardownLast | lib/cide/cli.rb:129-158 | on every exit path of the body whose diagnosis succeeds: one `rm --force` over the recorded containers reversed, as the last command; no `rm` when nothing was recorded |
| BuildCommand.IntendedTeardownLast | lib/cide/cli.rb:129-158 | with the corrected region, that teardown holds on every exit path with no condition |
| BuildCommand.CopiesOfRun | lib/cide/cli.rb:128-158 | the ensure region issues no copy, and the command ends normally only if the body did |
| BuildCommand.NoExportNoCopy | lib/cide/cli.rb:122 | without the export option no `cp` is issued |
| BuildCommand.ExportNeedsDir | lib/cide/cli.rb:124 | asked to export without the config's export dir, nothing is copied and the command does not succeed |
| BuildCommand.ExportCopiesOnce | lib/cide/cli.rb:126-128 | asked to export with an export dir: at most one `cp`; on success exactly one, from the main container's guest dir to the host dir |
| BuildCommand.BodyEnding | lib/cide/cli.rb:59-131 | with a configuration, the body's ending agrees with the engine: when it exits with a status, that is the status of its last command and every earlier command succeeded; otherwise every command it issued succeeded |
| BuildCommand.BuildExitStatus | lib/cide/cli.rb:129-131 | `rescue Docker::Error => ex; exit ex.exitstatus`: that agreement, and when the whole command exits, it exits with the body's status |
| BuildCommand.BuildSpec | lib/cide/cli.rb:53-159 | the command as the body followed by the ensure region over the recorded containers minus the main name; its properties are BodyFacts, ContainersRecorded, TeardownLast, CopiesOfRun, BuildExitStatus and the export lemmas |
| DebugCommand.DebugSpec | lib/cide/cli.rb:169-220 | `debug` as the body followed by the removal of the recorded containers; its properties are SessionLayout, DebugTeardownLinksOnly and DebugExitStatus |
| DebugCommand.DebugExitStatus | lib/cide/cli.rb:210-212 | `rescue Docker::Error => ex; exit ex.exitstatus`: an exit with a status is the status of the last command of the body (a link start or the shell run), every earlier command having succeeded; the whole command exits with that status |
| DebugCommand.DebugBody | lib/cide/cli.rb:169-212 | the debug body step by step equals DebugBodySpec: exit 1 without config; links launched as in `build`; then the interactive run |
| DebugCommand.Debug | lib/cide/cli.rb:169-220 | the whole command: the body, then only the removal of the recorded containers |
| DebugCommand.SessionLayout | lib/cide/cli.rb:184-210 | `containers` is the launched link ids, never the shell; when every link is up, the trace is the link starts then the one shell run with DebugRunArgs |
| DebugCommand.DebugTeardownLinksOnly | lib/cide/cli.rb:213-219 | teardown on every exit path: with links launched, one `rm --force` over their ids reversed, as the last command; none otherwise |
| RubyText.Strip | lib/cide/cli.rb:95 | String#strip, as lstrip then rstrip; StripEdges and StripPadded state what it yields |
| RubyText.Lines | lib/cide/cli.rb:238 | String#lines never yields an empty line; LinesConcat and LinesOfUnlines state the split |
| RubyText.LinesConcat | lib/cide/cli.rb:238 | concatenating the lines gives back the text, so nothing is lost or reordered |
| RubyText.Fields | lib/cide/cli.rb:241 | `split(/\s+/)` yields fields without whitespace, only the first of which may be empty, and only when the line starts with whitespace |
| RubyText.StripPadded | lib/cide/cli.rb:95 | strip removes any whitespace padding: a padded id comes back as the id itself |
| RubyText.StripEdges | lib/cide/cli.rb:95 | a stripped reply neither starts nor ends with whitespace |
| RubyText.LinesOfUnlines | lib/cide/cli.rb:238 | String#lines of rows joined by line feeds gives back each row with its line feed |
| RubyText.FieldsOfRow | lib/cide/cli.rb:241 | `split(/\s+/)` of a row whose columns are separated by runs of blanks (spaces or tabs, no line feed), with any blanks before its line feed, gives back exactly its columns |
| Clean.CandidateIds | lib/cide/cli.rb:240-243 | at most one id per line; CandidateIdsExactly and CandidatesOfListing state which |
| Clean.CandidatesOfListing | lib/cide/cli.rb:237-243 | reading a listing written row by row, its columns aligned by runs of blanks, yields exactly the third column of the rows whose first column starts with `cide/` or is `<none>`, in listing order; other rows, such as the header, contribute nothing |
| Clean.CandidateIdsExactly | lib/cide/cli.rb:240-243 | every candidate line contributes its id, and every id comes from a candidate line |
| Clean.Insert | lib/cide/cli.rb:253 | inserting into a sorted list keeps it sorted and adds exactly that image |
| Clean.SortByCreated | lib/cide/cli.rb:251-253 | the images, ascending by creation instant: sorted, and the same images (as a multiset) |
| Clean.RubyHeadThrough | lib/cide/cli.rb:256 | Ruby's `a[0..e]`: a prefix of a; e + 1 elements for 0 <= e < n, n + e + 1 for -n <= e < 0, all of a for e >= n, none for e < -n |
| Clean.SelectOld | lib/cide/cli.rb:255-263 | the ids to remove: never more than the images, and with more images than the maximum always at least one; CountBranchRemovesOneTooMany and AgeBranchIdempotent state each branch |
| Clean.CountBranchRemovesOneTooMany | lib/cide/cli.rb:255-257 | as written, with more than max images, the oldest n - max + 1 are removed, leaving max - 1; with max <= 0, the oldest 1 - max (at most all) |
| Clean.TwelveImagesRemoveThree | lib/cide/cli.rb:255-257 | twelve images and the default maximum of ten: three are removed |
| Clean.IntendedCountBranch | lib/cide/cli.rb:255-257 | the corrected count branch, with a maximum of zero or more below the image count, removes the ids of the oldest n - max, at least one |
| Clean.IntendedKeepsNewest | lib/cide/cli.rb:255-257 | the corrected count branch removes the ids of the oldest n - max, in order, and keeps the max newest |
| Clean.Older | lib/cide/cli.rb:260-262 | `select` never yields more images than it is given; OlderSelects and OlderIsPrefix state which |
| Clean.OlderSelects | lib/cide/cli.rb:260-262 | an image is selected exactly when it is among the images and was created before the cutoff |
| Clean.OlderIsPrefix | lib/cide/cli.rb:258-262 | on sorted images the age branch selects a prefix: every image created strictly before the cutoff and none at or after it |
| Clean.AgeBranchIdempotent | lib/cide/cli.rb:255-263 | with no more images than the maximum, the selection as written removes the oldest images, a prefix of the sorted list, and what remains selects nothing, as written and as corrected |
| Clean.CountBranchNotIdempotent | lib/cide/cli.rb:255-263 | the count branch is not idempotent: as written, images a, b, c with a maximum of 2 lose a and b, then c; as corrected, a and b with a maximum of 1 lose a, then b |
| Clean.CleanRun | lib/cide/cli.rb:231-271 | `clean` (CleanSpec as written, CleanSpecIntended corrected) issues one to three commands, the listing first, and ends normally only after an `rmi` as its third |
| Clean.NoCandidatesNoRemoval | lib/cide/cli.rb:245-248 | with no candidate in the listing, only the listing is issued: no inspect, no `rmi` |
| Clean.EmptyListingStops | lib/cide/cli.rb:237-239 | an empty listing ends the command with StopIteration after the listing alone |
| Clean.RemovesSelection | lib/cide/cli.rb:250-270 | with candidates, the listing is followed by one inspect naming exactly them; once it answers, an empty selection issues no `rmi`; otherwise exactly one `rmi --force` with the selected ids is issued, last |
| Clean.CleanRemovesOneTooMany | lib/cide/cli.rb:231-270 | the command as written, with more images than a positive maximum, ends with `rmi --force` over the ids of the oldest n - max + 1 |
| Clean.CleanIntendedKeepsMax | lib/cide/cli.rb:231-270 | the corrected command, with more images than a maximum of zero or more, ends with `rmi --force` over the ids of the oldest n - max, keeping the max newest |
| Banner.BannerLine | lib/cide/cli.rb:290-294 | the banner line, absent when the padding would be negative; BannerLayout states its width and layout |
| Banner.Rule | lib/cide/cli.rb:293 | `'=' * n` is n characters, all `=` |
| Banner.BannerLayout | lib/cide/cli.rb:290-294 | a banner exists exactly for texts of at most 74 characters; it is 78 wide, the text sits between `[ ` and ` ]`, and the left run of `=` is at most the right, which is at most one more |

## Left out

- Thor option declarations, help texts, `init` and `setup_docker`: framework plumbing. The options arrive as `BuildCommand.BuildOptions`, `DebugCommand.DebugOptions` and the `clean` parameters.
- The internals of `docker(...)` (lib/cide/docker.rb is not part of this model), beyond output-or-failure. Verbosity and capture flags are ignored.
- Build::Config.load_file and to_dockerfile (lib/cide/build is not part of this model). The loaded configuration is a parameter, None for nil.
- CIDE::Docker.id and SecureRandom.hex are parameters (`Host.dockerId`, `Host.mainName`). So are File.expand_path, File.exist?, File.dirname and the DOCKERFILE name.
- create_tmp_file (lines 281-288): file writes, the fixed mtime 1_286_701_800 and at_exit removal are file-system effects. Neither the SSH key copy nor the Dockerfile write appears in the command trace.
- Output to standard output and standard error is not modelled: say_status, the failed-container report lines, puts and the printing of banners.
- JSON parsing of inspect output is a parameter returning records. So is Time.iso8601; instants are integer nanoseconds, and `now` is a parameter.
- The `days` and `count` options are integers; Thor's numeric type would also admit floats.
- Environment mappings are sequences of pairs; uniqueness of hash keys is not required.
- `link.id = ...` sets a field of the configuration's link in place. The model keeps the launched ids in a separate sequence, indexed like the links.
- RubyText.Strip: whitespace only; Ruby's strip also drops trailing NUL characters.
- RubyText.Fields: a missing column (Ruby nil) reads as the empty string.
- Clean.AgeBranchIdempotent: idempotence is stated for the age branch only; after the count branch a second run can remove more images, as written and as corrected (Clean.CountBranchNotIdempotent).
- Clean.CleanRun: the trace fixes one order among images with the same creation instant, that of the stable insertion sort in Clean.SortByCreated. Ruby's sort may order them otherwise, and the count branch may then cut at a different image of the same instant.
- Clean.SortByCreated: states ascending order and the same images; Ruby's sort is not stable, so the order of equal instants is not stated.
- BuildCommand.TeardownLast: requires the diagnosis to succeed, because as written a diagnosis failure skips the removal (second finding below).
- BuildCommand.LinkedAreTheLinks: assumes no link's id equals the generated main name; otherwise `containers - [id]` would drop that link as well.
- Ruby exception replacement is not modelled beyond the outcome: an error raised in the ensure region replaces the body's exit or exception, as `DockerError`.

## Findings

| source | as written | input that shows it | evidently intended | confidence | as-written member | corrected member |
|---|---|---|---|---|---|---|
| lib/cide/cli.rb:255-257 | `cide_images[0..-max_images]` is an inclusive range, so n - max + 1 images are removed and max - 1 kept | 12 project images with the default count of 10: 3 are removed and 9 remain | remove the oldest n - max, keeping the max newest | not executed | Clean.CountBranchRemovesOneTooMany, Clean.TwelveImagesRemoveThree | Clean.SelectOldIntended with Clean.IntendedKeepsNewest (used by Clean.CleanSpecIntended) |
| lib/cide/cli.rb:134-158 | an engine failure of the diagnosis `inspect` or `logs` inside the ensure region escapes before `rm --force` is reached | containers `l1` (link) and `m` (main), where `docker inspect l1` fails with status 1: nothing is removed | containers are removed on every exit path, diagnosis failure or not | not executed | Cleanup.DiagnosisFailureSkipsRemoval, Cleanup.InspectFailureLeavesContainers | Cleanup.EnsureSpecIntended with Cleanup.IntendedRemovalAlwaysLast and BuildCommand.IntendedTeardownLast (used by BuildCommand.BuildSpecIntended) |
