/** The whole run: list the instance's log files (with backoff), then for each listed file in
    order either skip it or download it into the output directory. A download that runs out of
    retries is reported and the run goes on with the next file; a KeyError ends the run. */
module Downloader {
  import opened Remote
  import opened Backoff
  import opened Skip
  import opened Chunks
  import opened Sessions

  /** The settings the run reads: the -m pattern, -l initial line count and -b ceiling. */
  datatype Args = Args(pattern: Option<string>, lines: int, backoff: nat)

  function ChunkConfig(args: Args): Config {
    Config(args.lines, args.backoff)
  }

  /** What happened to one listed file. */
  datatype FileOutcome = Skipped(decision: Decision) | Fetched(status: Status)

  /** Outcomes of the files processed so far and the output directory after them. */
  datatype Progress = Progress(outcomes: seq<FileOutcome>, dir: Directory)

  datatype RunResult = ListingFailed | Processed(outcomes: seq<FileOutcome>)

  /** A download after which the run does not go on to the next file. */
  predicate Halts(st: Status) {
    st == Crashed || st == Unanswered
  }

  /** One iteration of the loop over the listing: the outcome for one file and the directory
      after it. rs are the service's answers to the chunk calls made for this file. */
  datatype Handled = Handled(outcome: FileOutcome, dir: Directory)

  function Handle(args: Args, search: (string, string) -> bool, file: LogFile,
                  rs: seq<ChunkResponse>, dir: Directory): Handled
  {
    var dest := Basename(file.name);
    var d := Decide(args.pattern, search, file, LocalSize(dir, dest));
    if !d.Downloads() then Handled(Skipped(d), dir)
    else
      var t := Run(ChunkConfig(args), Start(ChunkConfig(args)), rs);
      Handled(Fetched(StatusOf(ChunkConfig(args), t)), dir[dest := t.state.output])
  }

  /** A file after which the run does not go on. */
  predicate Stops(o: FileOutcome) {
    o.Fetched? && Halts(o.status)
  }

  /** Files i, i+1, ... of the listing processed in order from directory dir. answers(j) are the
      service's answers to the chunk calls made for the j-th listed file. */
  function ProcessFrom(args: Args, search: (string, string) -> bool, files: seq<LogFile>,
                       answers: nat -> seq<ChunkResponse>, dir: Directory, i: nat): (p: Progress)
    requires i <= |files|
    ensures |p.outcomes| <= |files| - i
    decreases |files| - i
  {
    if i == |files| then Progress([], dir)
    else
      var h := Handle(args, search, files[i], answers(i), dir);
      if Stops(h.outcome) then Progress([h.outcome], h.dir)
      else After([h.outcome], ProcessFrom(args, search, files, answers, h.dir, i + 1))
  }

  function After(done: seq<FileOutcome>, p: Progress): Progress {
    Progress(done + p.outcomes, p.dir)
  }

  lemma AfterAfter(done: seq<FileOutcome>, more: seq<FileOutcome>, p: Progress)
    ensures After(done, After(more, p)) == After(done + more, p)
  {
    assert done + (more + p.outcomes) == (done + more) + p.outcomes;
  }

  /** ProcessFrom one file at a time. */
  lemma ProcessStep(args: Args, search: (string, string) -> bool, files: seq<LogFile>,
                    answers: nat -> seq<ChunkResponse>, dir: Directory, i: nat, h: Handled)
    requires i < |files| && h == Handle(args, search, files[i], answers(i), dir)
    ensures ProcessFrom(args, search, files, answers, dir, i) ==
      if Stops(h.outcome) then Progress([h.outcome], h.dir)
      else After([h.outcome], ProcessFrom(args, search, files, answers, h.dir, i + 1))
  {
  }

  /** One listed file: the skip decision, then, unless skipped, the download into a new file. */
  method HandleFile(args: Args, search: (string, string) -> bool, file: LogFile,
                    rs: seq<ChunkResponse>, dir: Directory)
    returns (outcome: FileOutcome, dirOut: Directory)
    ensures Handled(outcome, dirOut) == Handle(args, search, file, rs, dir)
  {
    var dest := Basename(file.name);
    var d := Decide(args.pattern, search, file, LocalSize(dir, dest));
    if !d.Downloads() {
      return Skipped(d), dir;
    }
    dirOut := Prepare(dir, dest, d);
    var status, written, effects := DownloadFile(ChunkConfig(args), rs);
    PrepareThenWrite(dir, dest, d, written);
    dirOut := dirOut[dest := written];
    outcome := Fetched(status);
  }

  /** The body of the script after argument parsing: listCall(k) answers the k-th listing
      attempt, answers(j) the chunk calls for the j-th listed file, dir is the output directory. */
  method DownloadLogs(args: Args, search: (string, string) -> bool, listCall: nat -> ListResponse,
                      answers: nat -> seq<ChunkResponse>, dir: Directory)
    returns (result: RunResult, dirOut: Directory)
    ensures FirstListed(listCall, args.backoff, 0).None? ==> result == ListingFailed && dirOut == dir
    ensures FirstListed(listCall, args.backoff, 0).Some? ==>
      var p := ProcessFrom(args, search, FirstListed(listCall, args.backoff, 0).value, answers, dir, 0);
      result == Processed(p.outcomes) && dirOut == p.dir
  {
    var listing, sleepcount, sleeps := ListLogFiles(args.backoff, listCall);
    if listing.None? {
      return ListingFailed, dir;
    }
    var outcomes;
    outcomes, dirOut := ProcessFiles(args, search, listing.value, answers, dir);
    result := Processed(outcomes);
  }

  /** The for loop over the listing, left early after a file whose download halts the run. */
  method ProcessFiles(args: Args, search: (string, string) -> bool, files: seq<LogFile>,
                      answers: nat -> seq<ChunkResponse>, dir: Directory)
    returns (outcomes: seq<FileOutcome>, dirOut: Directory)
    ensures Progress(outcomes, dirOut) == ProcessFrom(args, search, files, answers, dir, 0)
  {
    outcomes := [];
    dirOut := dir;
    ghost var whole := ProcessFrom(args, search, files, answers, dir, 0);
    var i := 0;
    while i < |files|
      invariant 0 <= i <= |files|
      invariant whole == After(outcomes, ProcessFrom(args, search, files, answers, dirOut, i))
    {
      var outcome, next := HandleFile(args, search, files[i], answers(i), dirOut);
      ProcessStep(args, search, files, answers, dirOut, i, Handled(outcome, next));
      if Stops(outcome) {
        return outcomes + [outcome], next;
      }
      AfterAfter(outcomes, [outcome], ProcessFrom(args, search, files, answers, next, i + 1));
      outcomes := outcomes + [outcome];
      dirOut := next;
      i := i + 1;
    }
    assert outcomes + [] == outcomes;
  }

  // ---------------------------------------------------------------------------------------
  // What a run over the listing guarantees.

  /** Nothing else changes: a directory entry that no remaining listed file maps to is left as
      it was (present with the same content, or absent). */
  lemma {:induction false} ProcessFrame(args: Args, search: (string, string) -> bool, files: seq<LogFile>,
                                        answers: nat -> seq<ChunkResponse>, dir: Directory, i: nat, k: string)
    requires i <= |files|
    requires forall j :: i <= j < |files| ==> Basename(files[j].name) != k
    ensures var p := ProcessFrom(args, search, files, answers, dir, i);
      (k in p.dir <==> k in dir) && (k in dir ==> p.dir[k] == dir[k])
    decreases |files| - i
  {
    if i < |files| {
      var h := Handle(args, search, files[i], answers(i), dir);
      assert (k in h.dir <==> k in dir) && (k in dir ==> h.dir[k] == dir[k]);
      if !Stops(h.outcome) {
        ProcessFrame(args, search, files, answers, h.dir, i + 1, k);
      }
    }
  }

  /** A skipped file issues no chunk request: the run is the same whatever the service would
      have answered for the files it skipped (or never reached). */
  lemma {:induction false} SkipsRequestNothing(args: Args, search: (string, string) -> bool, files: seq<LogFile>,
                                               answers: nat -> seq<ChunkResponse>, other: nat -> seq<ChunkResponse>,
                                               dir: Directory, i: nat)
    requires i <= |files|
    requires var p := ProcessFrom(args, search, files, answers, dir, i);
      forall j :: i <= j < i + |p.outcomes| && p.outcomes[j - i].Fetched? ==> other(j) == answers(j)
    ensures ProcessFrom(args, search, files, other, dir, i) == ProcessFrom(args, search, files, answers, dir, i)
    decreases |files| - i
  {
    if i < |files| {
      var p := ProcessFrom(args, search, files, answers, dir, i);
      var h := Handle(args, search, files[i], answers(i), dir);
      assert p.outcomes[0] == h.outcome;
      assert Handle(args, search, files[i], other(i), dir) == h;
      if !Stops(h.outcome) {
        var rest := ProcessFrom(args, search, files, answers, h.dir, i + 1);
        assert p.outcomes == [h.outcome] + rest.outcomes;
        forall j | i + 1 <= j < i + 1 + |rest.outcomes| && rest.outcomes[j - (i + 1)].Fetched?
          ensures other(j) == answers(j)
        {
          assert p.outcomes[j - i] == rest.outcomes[j - (i + 1)];
        }
        SkipsRequestNothing(args, search, files, answers, other, h.dir, i + 1);
      }
    }
  }

  /** A downloaded file ends up holding exactly what a fresh download from marker "0" with the
      configured line count wrote, whatever was at its destination before (unless a later listed
      file has the same basename). */
  lemma {:induction false} FetchedContent(args: Args, search: (string, string) -> bool, files: seq<LogFile>,
                                          answers: nat -> seq<ChunkResponse>, dir: Directory, i: nat, k: nat)
    requires i <= |files|
    requires var p := ProcessFrom(args, search, files, answers, dir, i);
      i <= k < i + |p.outcomes| && p.outcomes[k - i].Fetched?
    requires forall j :: k < j < |files| ==> Basename(files[j].name) != Basename(files[k].name)
    ensures var p := ProcessFrom(args, search, files, answers, dir, i);
      var dest := Basename(files[k].name);
      dest in p.dir && p.dir[dest] == Run(ChunkConfig(args), Start(ChunkConfig(args)), answers(k)).state.output
    decreases |files| - i
  {
    var p := ProcessFrom(args, search, files, answers, dir, i);
    var h := Handle(args, search, files[i], answers(i), dir);
    assert p.outcomes[0] == h.outcome;
    if k == i {
      if !Stops(h.outcome) {
        ProcessFrame(args, search, files, answers, h.dir, i + 1, Basename(files[k].name));
      }
    } else {
      var rest := ProcessFrom(args, search, files, answers, h.dir, i + 1);
      assert p.outcomes == [h.outcome] + rest.outcomes;
      assert rest.outcomes[k - (i + 1)] == p.outcomes[k - i];
      FetchedContent(args, search, files, answers, h.dir, i + 1, k);
    }
  }

  /** Two portions, the second one the last: both are written, in order. */
  lemma TwoPortions(cfg: Config)
    requires cfg.backoff > 0
    ensures var rs := [Portion(Text("abc"), Some("1"), Some(true)), Portion(Text("def"), Some("2"), Some(false))];
      var t := Run(cfg, Start(cfg), rs);
      t.state.output == "abcdef" && StatusOf(cfg, t) == Complete
  {
    var rs := [Portion(Text("abc"), Some("1"), Some(true)), Portion(Text("def"), Some("2"), Some(false))];
    assert !Truncated(rs[0].data) && !Truncated(rs[1].data);
    var s1 := Start(cfg).(output := "abc", marker := "1", chunk := 1);
    var s2 := s1.(output := "abcdef", marker := "2", chunk := 2, moreData := false);
    assert Next(cfg, Start(cfg), rs[0]) == Transition(s1, Accept);
    assert Next(cfg, s1, rs[1]) == Transition(s2, Accept);
    assert rs[1..] == [rs[1]] && rs[1..][1..] == [];
    assert Run(cfg, s1, rs[1..]) == Trace(s2, [Accept]);
  }

  /** The run described as an end-to-end example: one file fails the filter, one is present with
      the listed size, and one is fetched in two portions; only the third is written, holding the
      two portions' data in order. */
  lemma ThreeFiles(search: (string, string) -> bool, answers: nat -> seq<ChunkResponse>)
    requires !search("log", "a.txt") && search("log", "b.log") && search("log", "c.log")
    requires answers(2) == [Portion(Text("abc"), Some("1"), Some(true)), Portion(Text("def"), Some("2"), Some(false))]
    ensures var files := [LogFile("a.txt", 4), LogFile("b.log", 3), LogFile("c.log", 6)];
      ProcessFrom(Args(Some("log"), 1000, 10), search, files, answers, map["b.log" := "xyz"], 0)
        == Progress([Skipped(Filtered), Skipped(UpToDate), Fetched(Complete)],
                    map["b.log" := "xyz", "c.log" := "abcdef"])
  {
    var args := Args(Some("log"), 1000, 10);
    var files := [LogFile("a.txt", 4), LogFile("b.log", 3), LogFile("c.log", 6)];
    var dir := map["b.log" := "xyz"];
    ExampleFromSecond(args, search, files, answers, dir);
    HandleFiltered(args, search, files[0], answers(0), dir);
    ProcessStep(args, search, files, answers, dir, 0, Handled(Skipped(Filtered), dir));
  }

  lemma ExampleFromSecond(args: Args, search: (string, string) -> bool, files: seq<LogFile>,
                          answers: nat -> seq<ChunkResponse>, dir: Directory)
    requires args == Args(Some("log"), 1000, 10)
    requires files == [LogFile("a.txt", 4), LogFile("b.log", 3), LogFile("c.log", 6)]
    requires dir == map["b.log" := "xyz"]
    requires search("log", "b.log") && search("log", "c.log")
    requires answers(2) == [Portion(Text("abc"), Some("1"), Some(true)), Portion(Text("def"), Some("2"), Some(false))]
    ensures ProcessFrom(args, search, files, answers, dir, 1)
            == Progress([Skipped(UpToDate), Fetched(Complete)], map["b.log" := "xyz", "c.log" := "abcdef"])
  {
    ExampleFromThird(args, search, files, answers, dir);
    HandleUpToDate(args, search, files[1], answers(1), dir);
    ProcessStep(args, search, files, answers, dir, 1, Handled(Skipped(UpToDate), dir));
  }

  lemma ExampleFromThird(args: Args, search: (string, string) -> bool, files: seq<LogFile>,
                         answers: nat -> seq<ChunkResponse>, dir: Directory)
    requires args == Args(Some("log"), 1000, 10)
    requires files == [LogFile("a.txt", 4), LogFile("b.log", 3), LogFile("c.log", 6)]
    requires dir == map["b.log" := "xyz"]
    requires search("log", "c.log")
    requires answers(2) == [Portion(Text("abc"), Some("1"), Some(true)), Portion(Text("def"), Some("2"), Some(false))]
    ensures ProcessFrom(args, search, files, answers, dir, 2)
            == Progress([Fetched(Complete)], map["b.log" := "xyz", "c.log" := "abcdef"])
  {
    var dir' := map["b.log" := "xyz", "c.log" := "abcdef"];
    HandleFetched(args, search, files[2], answers(2), dir);
    ProcessStep(args, search, files, answers, dir, 2, Handled(Fetched(Complete), dir'));
    assert ProcessFrom(args, search, files, answers, dir', 3) == Progress([], dir');
  }

  lemma HandleFiltered(args: Args, search: (string, string) -> bool, file: LogFile,
                       rs: seq<ChunkResponse>, dir: Directory)
    requires args.pattern == Some("log") && file.name == "a.txt" && !search("log", "a.txt")
    ensures Handle(args, search, file, rs, dir) == Handled(Skipped(Filtered), dir)
  {
  }

  lemma HandleUpToDate(args: Args, search: (string, string) -> bool, file: LogFile,
                       rs: seq<ChunkResponse>, dir: Directory)
    requires args.pattern == Some("log") && file == LogFile("b.log", 3) && search("log", "b.log")
    requires dir == map["b.log" := "xyz"]
    ensures Handle(args, search, file, rs, dir) == Handled(Skipped(UpToDate), dir)
  {
    BasenameOfPlainName("b.log");
  }

  lemma HandleFetched(args: Args, search: (string, string) -> bool, file: LogFile,
                      rs: seq<ChunkResponse>, dir: Directory)
    requires args == Args(Some("log"), 1000, 10) && file == LogFile("c.log", 6) && search("log", "c.log")
    requires dir == map["b.log" := "xyz"]
    requires rs == [Portion(Text("abc"), Some("1"), Some(true)), Portion(Text("def"), Some("2"), Some(false))]
    ensures Handle(args, search, file, rs, dir)
            == Handled(Fetched(Complete), map["b.log" := "xyz", "c.log" := "abcdef"])
  {
    BasenameOfPlainName("c.log");
    assert "c.log" !in dir;
    TwoPortions(ChunkConfig(args));
    assert dir["c.log" := "abcdef"] == map["b.log" := "xyz", "c.log" := "abcdef"];
  }
}
