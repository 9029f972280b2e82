/** `cide clean`: list the images, keep the ids of the project's images
    (repository `cide/...` or `<none>`), inspect them, sort them by
    creation instant and force-remove the old ones — the oldest beyond a
    maximum count when there are more than that, otherwise those created
    more than a number of days ago. */
module Clean {
  import opened Docker
  import opened RubyText

  // ----------------------------------------------------------- candidates

  /** `line[0] =~ %r{^cide/} || line[0] == '<none>'` */
  predicate IsCandidate(fields: seq<string>) {
    StartsWith(Column(fields, 0), "cide/") || Column(fields, 0) == "<none>"
  }

  /** `iter.map { |line| line.split(/\s+/) }.select { ... }.map { |line| line[2] }`:
      the id column of every candidate line, in listing order. The map
      restarts from the first line, so the header line is only excluded by
      the filter. */
  function CandidateIds(lines: seq<string>): (r: seq<string>)
    ensures |r| <= |lines|
  {
    if lines == [] then []
    else
      var fields := Fields(lines[0]);
      (if IsCandidate(fields) then [Column(fields, 2)] else []) + CandidateIds(lines[1..])
  }

  /** One row of the `docker images` listing: its columns, the runs of
      blanks that align them, and any blanks before the line feed. */
  datatype Row = Row(cols: seq<string>, gaps: seq<string>, trail: string)

  /** Each column a non-empty run of non-whitespace characters, each gap a
      run of blanks, and no line feed inside the row. */
  predicate WellFormedRow(row: Row) {
    && row.cols != [] && |row.gaps| == |row.cols| - 1
    && (forall i :: 0 <= i < |row.cols| ==> IsWord(row.cols[i]))
    && (forall i :: 0 <= i < |row.gaps| ==> IsGap(row.gaps[i]))
    && AllSpace(row.trail) && '\n' !in row.trail
  }

  function RowText(row: Row): string
    requires WellFormedRow(row)
  {
    Joined(row.cols, row.gaps) + row.trail
  }

  /** The candidates of a listing given by its rows: the reference the text
      reading is compared with. */
  function CandidateColumn(rows: seq<Row>): seq<string> {
    if rows == [] then []
    else (if IsCandidate(rows[0].cols) then [Column(rows[0].cols, 2)] else []) + CandidateColumn(rows[1..])
  }

  /** The rows written one per line. */
  function Rendered(rows: seq<Row>): (r: seq<string>)
    requires forall i :: 0 <= i < |rows| ==> WellFormedRow(rows[i])
    ensures |r| == |rows|
  {
    if rows == [] then []
    else
      assert WellFormedRow(rows[0]);
      [RowText(rows[0])] + Rendered(rows[1..])
  }

  lemma {:induction false} CandidatesOfTerminated(rows: seq<Row>)
    requires forall i :: 0 <= i < |rows| ==> WellFormedRow(rows[i])
    ensures CandidateIds(Terminated(Rendered(rows))) == CandidateColumn(rows)
  {
    if rows != [] {
      var row := rows[0];
      assert WellFormedRow(row);
      FieldsOfRow(row.cols, row.gaps, row.trail);
      assert Terminated(Rendered(rows))[0] == Joined(row.cols, row.gaps) + row.trail + "\n";
      assert Rendered(rows)[1..] == Rendered(rows[1..]);
      CandidatesOfTerminated(rows[1..]);
    }
  }

  /** Reading a column-aligned listing written row by row gives back
      exactly the id column of the candidate rows, in order; a header row
      whose first column is neither `cide/...` nor `<none>` contributes
      nothing. */
  lemma CandidatesOfListing(rows: seq<Row>)
    requires forall i :: 0 <= i < |rows| ==> WellFormedRow(rows[i])
    ensures CandidateIds(Lines(Unlines(Rendered(rows)))) == CandidateColumn(rows)
  {
    var ls := Rendered(rows);
    forall i | 0 <= i < |ls| ensures '\n' !in ls[i] {
      RenderedAt(rows, i);
      JoinedNoNewline(rows[i].cols, rows[i].gaps);
    }
    LinesOfUnlines(ls);
    CandidatesOfTerminated(rows);
  }

  lemma {:induction false} RenderedAt(rows: seq<Row>, i: nat)
    requires forall k :: 0 <= k < |rows| ==> WellFormedRow(rows[k])
    requires i < |rows|
    ensures Rendered(rows)[i] == RowText(rows[i])
  {
    if i > 0 {
      RenderedAt(rows[1..], i - 1);
    }
  }

  /** Every candidate id comes from a candidate line, and every candidate
      line contributes its id. */
  lemma {:induction false} CandidateIdsExactly(lines: seq<string>)
    ensures forall i :: 0 <= i < |lines| && IsCandidate(Fields(lines[i])) ==>
      Column(Fields(lines[i]), 2) in CandidateIds(lines)
    ensures forall id :: id in CandidateIds(lines) ==>
      exists i :: 0 <= i < |lines| && IsCandidate(Fields(lines[i])) && id == Column(Fields(lines[i]), 2)
  {
    if lines != [] {
      CandidateIdsExactly(lines[1..]);
      forall id | id in CandidateIds(lines)
        ensures exists i :: 0 <= i < |lines| && IsCandidate(Fields(lines[i])) && id == Column(Fields(lines[i]), 2)
      {
        if id in CandidateIds(lines[1..]) {
          var i :| 0 <= i < |lines[1..]| && IsCandidate(Fields(lines[1..][i])) && id == Column(Fields(lines[1..][i]), 2);
          assert lines[1..][i] == lines[i + 1];
        } else {
          assert IsCandidate(Fields(lines[0])) && id == Column(Fields(lines[0]), 2);
        }
      }
      forall i | 0 <= i < |lines| && IsCandidate(Fields(lines[i]))
        ensures Column(Fields(lines[i]), 2) in CandidateIds(lines)
      {
        if i > 0 { assert lines[1..][i - 1] == lines[i]; }
      }
    }
  }

  // -------------------------------------------------------------- sorting

  predicate SortedByCreated(s: seq<ImageInfo>) {
    forall i, j :: 0 <= i < j < |s| ==> s[i].created <= s[j].created
  }

  function Insert(x: ImageInfo, s: seq<ImageInfo>): (r: seq<ImageInfo>)
    requires SortedByCreated(s)
    ensures SortedByCreated(r)
    ensures multiset(r) == multiset(s) + multiset{x}
    ensures |r| == |s| + 1 && (r[0] == x || (s != [] && r[0] == s[0]))
  {
    if s == [] || x.created <= s[0].created then [x] + s
    else
      var rest := Insert(x, s[1..]);
      assert s == [s[0]] + s[1..];
      [s[0]] + rest
  }

  /** `.sort { |a, b| a['Created'] <=> b['Created'] }`: ascending by
      creation instant, the same images. */
  function SortByCreated(s: seq<ImageInfo>): (r: seq<ImageInfo>)
    ensures SortedByCreated(r)
    ensures multiset(r) == multiset(s)
  {
    if s == [] then []
    else
      assert s == [s[0]] + s[1..];
      Insert(s[0], SortByCreated(s[1..]))
  }

  // ------------------------------------------------------------ selection

  const NanosPerDay := 24 * 60 * 60 * 1_000_000_000

  /** `Time.now - (days_to_keep * 24 * 60 * 60)`, in nanoseconds. */
  function Cutoff(now: int, days: int): int {
    now - days * NanosPerDay
  }

  function Ids(images: seq<ImageInfo>): (r: seq<string>)
    ensures |r| == |images|
  {
    if images == [] then [] else [images[0].id] + Ids(images[1..])
  }

  /** `a[0..e]` for an Array `a`: the prefix through index `e`, a negative
      `e` counting from the end. */
  function RubyHeadThrough<T>(a: seq<T>, e: int): (r: seq<T>)
    ensures |r| <= |a| && r == a[..|r|]
    ensures 0 <= e < |a| ==> |r| == e + 1
    ensures -|a| <= e < 0 ==> |r| == |a| + e + 1
    ensures e >= |a| ==> r == a
    ensures e < -|a| ==> r == []
  {
    var last := if e < 0 then |a| + e else e;
    if last < 0 then [] else a[..if last + 1 < |a| then last + 1 else |a|]
  }

  /** `.select { |image| image['Created'] < old_times }` */
  function Older(images: seq<ImageInfo>, cutoff: int): (r: seq<ImageInfo>)
    ensures |r| <= |images|
  {
    if images == [] then []
    else (if images[0].created < cutoff then [images[0]] else []) + Older(images[1..], cutoff)
  }

  /** The ids `clean` removes from the sorted images, as written: the count
      branch takes `cide_images[0..-max_images]`. */
  function SelectOld(sorted: seq<ImageInfo>, maxImages: int, cutoff: int): (r: seq<string>)
    ensures |r| <= |sorted|
    ensures sorted != [] && |sorted| > maxImages ==> r != []
  {
    if |sorted| > maxImages then Ids(RubyHeadThrough(sorted, -maxImages))
    else Ids(Older(sorted, cutoff))
  }

  /** As written, the count branch removes one image too many: with more
      than `maxImages` images it removes the oldest `n - maxImages + 1`, so
      that only `maxImages - 1` remain (and with a count of zero or less it
      still removes the oldest `1 - maxImages`, at most all). */
  lemma CountBranchRemovesOneTooMany(sorted: seq<ImageInfo>, maxImages: int, cutoff: int)
    requires |sorted| > maxImages
    ensures var k := if maxImages > 0 then |sorted| - maxImages + 1
                     else if 1 - maxImages < |sorted| then 1 - maxImages else |sorted|;
      0 <= k <= |sorted| && SelectOld(sorted, maxImages, cutoff) == Ids(sorted[..k])
    ensures maxImages > 0 ==> |sorted| - |SelectOld(sorted, maxImages, cutoff)| == maxImages - 1
  {
  }

  /** Twelve images with the default maximum of ten: three are removed,
      not two. */
  lemma TwelveImagesRemoveThree(sorted: seq<ImageInfo>, cutoff: int)
    requires |sorted| == 12
    ensures |SelectOld(sorted, 10, cutoff)| == 3
  {
    CountBranchRemovesOneTooMany(sorted, 10, cutoff);
  }

  /** The evidently intended count branch: remove the oldest
      `n - maxImages`, keeping the newest `maxImages` (removing all when
      the maximum is zero or less). */
  function SelectOldIntended(sorted: seq<ImageInfo>, maxImages: int, cutoff: int): seq<string> {
    if |sorted| > maxImages then
      Ids(sorted[..|sorted| - (if maxImages > 0 then maxImages else 0)])
    else Ids(Older(sorted, cutoff))
  }

  lemma {:induction false} IdsAt(images: seq<ImageInfo>, i: nat)
    requires i < |images|
    ensures Ids(images)[i] == images[i].id
  {
    if i > 0 { IdsAt(images[1..], i - 1); }
  }

  /** The intended count branch keeps exactly the `maxImages` newest
      images: it removes the ids of the oldest `n - maxImages`, and no
      removed image is newer than a kept one. */
  lemma IntendedKeepsNewest(sorted: seq<ImageInfo>, maxImages: int, cutoff: int)
    requires SortedByCreated(sorted) && 0 <= maxImages < |sorted|
    ensures var r := SelectOldIntended(sorted, maxImages, cutoff);
      && |sorted| - |r| == maxImages
      && (forall i :: 0 <= i < |r| ==> r[i] == sorted[i].id)
      && (forall i, j :: 0 <= i < |r| <= j < |sorted| ==> sorted[i].created <= sorted[j].created)
  {
    var k := |sorted| - maxImages;
    forall i | 0 <= i < k ensures SelectOldIntended(sorted, maxImages, cutoff)[i] == sorted[i].id {
      IdsAt(sorted[..k], i);
    }
  }

  lemma {:induction false} OlderNone(images: seq<ImageInfo>, cutoff: int)
    requires forall i :: 0 <= i < |images| ==> images[i].created >= cutoff
    ensures Older(images, cutoff) == []
  {
    if images != [] { OlderNone(images[1..], cutoff); }
  }

  /** `select` keeps exactly the images created before the cutoff. */
  lemma {:induction false} OlderSelects(images: seq<ImageInfo>, cutoff: int)
    ensures forall x :: x in Older(images, cutoff) <==> x in images && x.created < cutoff
  {
    if images != [] {
      OlderSelects(images[1..], cutoff);
      assert images == [images[0]] + images[1..];
    }
  }

  /** On sorted images the age branch removes a prefix: every image
      created before the cutoff, and none after it. */
  lemma {:induction false} OlderIsPrefix(sorted: seq<ImageInfo>, cutoff: int)
    requires SortedByCreated(sorted)
    ensures var o := Older(sorted, cutoff);
      && |o| <= |sorted| && o == sorted[..|o|]
      && (forall i :: 0 <= i < |o| ==> sorted[i].created < cutoff)
      && (forall i :: |o| <= i < |sorted| ==> sorted[i].created >= cutoff)
  {
    if sorted != [] {
      OlderIsPrefix(sorted[1..], cutoff);
      if sorted[0].created >= cutoff {
        OlderNone(sorted[1..], cutoff);
      } else {
        var o := Older(sorted, cutoff);
        assert o == [sorted[0]] + sorted[1..][..|o| - 1];
        assert forall i :: |o| <= i < |sorted| ==> sorted[1..][i - 1] == sorted[i];
      }
    }
  }

  /** A second `clean` right after the age branch finds nothing to clean:
      the branch removes a prefix of the sorted images, and the rest
      selects nothing, as written and as corrected. */
  lemma AgeBranchIdempotent(sorted: seq<ImageInfo>, maxImages: int, cutoff: int)
    requires SortedByCreated(sorted) && |sorted| <= maxImages
    ensures var removed := SelectOld(sorted, maxImages, cutoff);
      && |removed| <= |sorted| && removed == Ids(sorted[..|removed|])
      && SelectOld(sorted[|removed|..], maxImages, cutoff) == []
      && SelectOldIntended(sorted[|removed|..], maxImages, cutoff) == []
  {
    OlderIsPrefix(sorted, cutoff);
    var k := |Older(sorted, cutoff)|;
    OlderNone(sorted[k..], cutoff);
  }

  /** After the count branch a second run can still remove images, so the
      promise above does not extend to it: as written, three images with a
      maximum of two lose `a` and `b`, and the survivor `c` is then old
      enough to go; as corrected, two images with a maximum of one lose
      `a`, and then `b`. */
  lemma CountBranchNotIdempotent()
    ensures var s := [ImageInfo("a", 0), ImageInfo("b", 1), ImageInfo("c", 2)];
      SelectOld(s, 2, 10) == ["a", "b"] && SelectOld(s[2..], 2, 10) == ["c"]
    ensures var s := [ImageInfo("a", 0), ImageInfo("b", 1)];
      SelectOldIntended(s, 1, 10) == ["a"] && SelectOldIntended(s[1..], 1, 10) == ["b"]
  {
    var s := [ImageInfo("a", 0), ImageInfo("b", 1), ImageInfo("c", 2)];
    assert RubyHeadThrough(s, -2) == s[..2];
    assert s[2..] == [ImageInfo("c", 2)];
    var t := [ImageInfo("a", 0), ImageInfo("b", 1)];
    assert t[..1] == [ImageInfo("a", 0)] && t[1..] == [ImageInfo("b", 1)];
  }

  // ------------------------------------------------------------- command

  /** How a `clean` run went: the commands issued and how it ended. */
  datatype Cleaning = Cleaning(trace: seq<Command>, outcome: Outcome)

  const ListImages := Command("images", ["--no-trunc"])

  /** A rule choosing, from the sorted images, the ids to remove, given
      the maximum count and the cutoff instant. */
  type Selection = (seq<ImageInfo>, int, int) -> seq<string>

  /** `cide clean` with the removal rule `select`, the numeric options
      `days` and `count`, the current instant `now` (nanoseconds), and the
      JSON reading of the inspect output with Created as an instant.
      Nothing is rescued: an engine failure escapes. */
  function CleanRun(days: int, maxImages: int, now: int, exec: Executor,
                    parseImages: string -> seq<ImageInfo>, select: Selection): (r: Cleaning)
    ensures 1 <= |r.trace| <= 3 && r.trace[0] == ListImages
    ensures r.outcome == Done ==> |r.trace| == 3 && r.trace[2].verb == "rmi"
  {
    match exec(0, ListImages)
    case Failed(s) => Cleaning([ListImages], DockerError(s))
    case Output(x) =>
      var lines := Lines(x);
      if lines == [] then Cleaning([ListImages], StopIteration)
      else
        var ids := CandidateIds(lines);
        if ids == [] then Cleaning([ListImages], NothingToClean)
        else
          var inspect := Command("inspect", ids);
          match exec(1, inspect)
          case Failed(s) => Cleaning([ListImages, inspect], DockerError(s))
          case Output(y) =>
            var stale := select(SortByCreated(parseImages(Strip(y))), maxImages, Cutoff(now, days));
            if stale == [] then Cleaning([ListImages, inspect], NothingToClean)
            else
              var rmi := Command("rmi", ["--force"] + stale);
              match exec(2, rmi)
              case Failed(s) => Cleaning([ListImages, inspect, rmi], DockerError(s))
              case Output(_) => Cleaning([ListImages, inspect, rmi], Done)
  }

  /** `cide clean` as written. */
  function CleanSpec(days: int, maxImages: int, now: int, exec: Executor,
                     parseImages: string -> seq<ImageInfo>): Cleaning
  {
    CleanRun(days, maxImages, now, exec, parseImages, SelectOld)
  }

  /** `cide clean` with the count branch corrected. */
  function CleanSpecIntended(days: int, maxImages: int, now: int, exec: Executor,
                             parseImages: string -> seq<ImageInfo>): Cleaning
  {
    CleanRun(days, maxImages, now, exec, parseImages, SelectOldIntended)
  }

  /** With no candidate in the listing, `clean` neither inspects nor
      removes anything. */
  lemma NoCandidatesNoRemoval(days: int, maxImages: int, now: int, exec: Executor,
                              parseImages: string -> seq<ImageInfo>, select: Selection, x: string)
    requires exec(0, ListImages) == Output(x) && CandidateIds(Lines(x)) == []
    ensures var r := CleanRun(days, maxImages, now, exec, parseImages, select);
      r.trace == [ListImages] && CountVerb(r.trace, "inspect") == 0 && CountVerb(r.trace, "rmi") == 0
  {
  }

  /** With candidates, `clean` inspects exactly them after the listing;
      it removes images at most once, and exactly when the selection is
      non-empty, with `rmi --force` over the selected ids as its last
      command. */
  lemma RemovesSelection(days: int, maxImages: int, now: int, exec: Executor,
                         parseImages: string -> seq<ImageInfo>, select: Selection, x: string, y: string)
    requires exec(0, ListImages) == Output(x) && CandidateIds(Lines(x)) != []
    requires exec(1, Command("inspect", CandidateIds(Lines(x)))) == Output(y)
    ensures var r := CleanRun(days, maxImages, now, exec, parseImages, select);
      var stale := select(SortByCreated(parseImages(Strip(y))), maxImages, Cutoff(now, days));
      && |r.trace| >= 2 && r.trace[..2] == [ListImages, Command("inspect", CandidateIds(Lines(x)))]
      && (stale == [] ==> CountVerb(r.trace, "rmi") == 0 && r.outcome == NothingToClean)
      && (stale != [] ==> CountVerb(r.trace, "rmi") == 1 && r.trace[|r.trace| - 1] == Command("rmi", ["--force"] + stale))
  {
    var ids := CandidateIds(Lines(x));
    assert Lines(x) != [] by {
      assert CandidateIds([]) == [];
    }
    var r := CleanRun(days, maxImages, now, exec, parseImages, select);
    assert r.trace[1..][1..] == r.trace[2..];
    assert CountVerb(r.trace, "rmi") == CountVerb(r.trace[2..], "rmi");
  }

  /** The command as written, with more images than a positive maximum:
      its last command removes the oldest n - max + 1 images. */
  lemma CleanRemovesOneTooMany(days: int, maxImages: int, now: int, exec: Executor,
                               parseImages: string -> seq<ImageInfo>, x: string, y: string)
    requires exec(0, ListImages) == Output(x) && CandidateIds(Lines(x)) != []
    requires exec(1, Command("inspect", CandidateIds(Lines(x)))) == Output(y)
    requires 0 < maxImages < |parseImages(Strip(y))|
    ensures var r := CleanSpec(days, maxImages, now, exec, parseImages);
      var sorted := SortByCreated(parseImages(Strip(y)));
      && |sorted| == |parseImages(Strip(y))| && r.trace != [] && r.outcome != NothingToClean
      && r.trace[|r.trace| - 1] == Command("rmi", ["--force"] + Ids(sorted[..|sorted| - maxImages + 1]))
  {
    var sorted := SortByCreated(parseImages(Strip(y)));
    assert |sorted| == |multiset(sorted)| == |multiset(parseImages(Strip(y)))|;
    CountBranchRemovesOneTooMany(sorted, maxImages, Cutoff(now, days));
    RemovesSelection(days, maxImages, now, exec, parseImages, SelectOld, x, y);
  }

  /** The corrected command, with more images than a maximum of zero or
      more: its last command removes the oldest n - max images, keeping
      the max newest. */
  lemma CleanIntendedKeepsMax(days: int, maxImages: int, now: int, exec: Executor,
                              parseImages: string -> seq<ImageInfo>, x: string, y: string)
    requires exec(0, ListImages) == Output(x) && CandidateIds(Lines(x)) != []
    requires exec(1, Command("inspect", CandidateIds(Lines(x)))) == Output(y)
    requires 0 <= maxImages < |parseImages(Strip(y))|
    ensures var r := CleanSpecIntended(days, maxImages, now, exec, parseImages);
      var sorted := SortByCreated(parseImages(Strip(y)));
      && |sorted| == |parseImages(Strip(y))| && r.trace != [] && r.outcome != NothingToClean
      && r.trace[|r.trace| - 1] == Command("rmi", ["--force"] + Ids(sorted[..|sorted| - maxImages]))
  {
    var sorted := SortByCreated(parseImages(Strip(y)));
    assert |sorted| == |multiset(sorted)| == |multiset(parseImages(Strip(y)))|;
    IntendedCountBranch(sorted, maxImages, Cutoff(now, days));
    RemovesSelection(days, maxImages, now, exec, parseImages, SelectOldIntended, x, y);
  }

  lemma IntendedCountBranch(sorted: seq<ImageInfo>, maxImages: int, cutoff: int)
    requires 0 <= maxImages < |sorted|
    ensures SelectOldIntended(sorted, maxImages, cutoff) == Ids(sorted[..|sorted| - maxImages])
    ensures SelectOldIntended(sorted, maxImages, cutoff) != []
  {
  }

  /** An empty listing stops at `iter.next`, before any inspect. */
  lemma EmptyListingStops(days: int, maxImages: int, now: int, exec: Executor,
                          parseImages: string -> seq<ImageInfo>, select: Selection)
    requires exec(0, ListImages) == Output("")
    ensures CleanRun(days, maxImages, now, exec, parseImages, select) == Cleaning([ListImages], StopIteration)
  {
  }
}
