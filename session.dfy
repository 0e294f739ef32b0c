/** The download of one file as the script runs it: the loop variables of one `with open` block,
    updated in place iteration by iteration, with the file's content as an append-only field. */
module Sessions {
  import opened Remote
  import opened Backoff
  import opened Chunks

  class Session {
    const cfg: Config
    var marker: string
    var lines: int
    var sleepcount: nat
    var moreData: bool
    var chunk: nat
    /** The bytes written to the destination file so far. */
    var output: string
    /** The durations passed to time.sleep so far. */
    ghost var sleeps: seq<nat>
    /** The durations slept since the last answered call. */
    ghost var recent: seq<nat>

    function Snapshot(): State
      reads this
    {
      State(marker, lines, sleepcount, moreData, chunk, output)
    }

    /** The counter stays within the ceiling, the line count has not grown and keeps its floor,
        and the sleeps since the last answered call are the 2^k schedule of the failures counted. */
    ghost predicate Valid()
      reads this
    {
      && sleepcount <= cfg.backoff
      && lines <= cfg.lines
      && LinesFloor(cfg, lines)
      && recent == Schedule(sleepcount)
    }

    /** A new download: marker "0", the configured line count, data pending, an empty file. */
    constructor (cfg: Config)
      ensures Valid() && this.cfg == cfg
      ensures Snapshot() == Start(cfg) && sleeps == []
    {
      this.cfg := cfg;
      marker, lines, sleepcount, moreData, chunk, output := "0", cfg.lines, 0, true, 0, [];
      sleeps, recent := [], [];
    }

    /** One iteration of the loop body on the service's answer r. */
    method Step(r: ChunkResponse) returns (e: Effect)
      requires Valid() && Loops(cfg, Snapshot())
      modifies this
      ensures Valid()
      ensures Transition(Snapshot(), e) == Next(cfg, old(Snapshot()), r)
      ensures sleeps == old(sleeps) + (if e.Sleep? then [e.seconds] else [])
      // A failed call sleeps 2^k, counts the failure and changes nothing else.
      ensures r.ChunkFailure? ==>
        && e == Sleep(Pow2(old(sleepcount))) && sleepcount == old(sleepcount) + 1
        && marker == old(marker) && lines == old(lines) && moreData == old(moreData)
        && chunk == old(chunk) && output == old(output)
      // Any answered call resets the failure counter.
      ensures r.Portion? ==> sleepcount == 0
      // KeyError on a missing Marker/AdditionalDataPending key, or on `del` of a missing LogFileData.
      ensures e == Crash <==> r.Portion? && (r.marker.None? || r.pending.None? || r.data.Missing?)
      // A truncated portion above the floor: 10 lines fewer, same marker, nothing written.
      ensures e == Shrink <==>
        r.Portion? && r.marker.Some? && r.pending.Some? && Truncated(r.data) && 10 * old(lines) > cfg.lines
      ensures e == Shrink ==>
        && lines == old(lines) - 10 && marker == old(marker) && moreData == old(moreData)
        && chunk == old(chunk) && output == old(output)
      // An accepted portion: its data appended, its marker and pending flag taken, one more chunk.
      ensures e == Accept ==>
        && r.Portion? && r.marker.Some? && r.pending.Some?
        && output == old(output) + Written(r.data) && marker == r.marker.value
        && moreData == r.pending.value && chunk == old(chunk) + 1 && lines == old(lines)
    {
      if r.ChunkFailure? {
        var sleeptime := Pow2(sleepcount);
        sleeps, recent := sleeps + [sleeptime], recent + [sleeptime];
        ScheduleGrows(sleepcount);
        sleepcount := sleepcount + 1;
        return Sleep(sleeptime);
      }
      sleepcount, recent := 0, [];
      if r.pending.None? || r.marker.None? {
        return Crash;
      }
      if r.data.Text? {
        if EndsWith(r.data.text, TruncationSentinel) {
          if 10 * lines > cfg.lines {
            lines := lines - 10;
            return Shrink;
          }
        }
        output := output + r.data.text;
      }
      moreData := r.pending == Some(true);
      if r.marker.Some? {
        marker := r.marker.value;
      }
      chunk := chunk + 1;
      if r.data.Missing? {
        return Crash;
      }
      return Accept;
    }

    /** The loop of one file fed with the answers rs; returns the effect of each iteration. */
    method Download(rs: seq<ChunkResponse>) returns (effects: seq<Effect>)
      requires Valid()
      modifies this
      ensures Valid()
      ensures Trace(Snapshot(), effects) == Run(cfg, old(Snapshot()), rs)
      ensures sleeps == old(sleeps) + Slept(effects)
    {
      effects := [];
      var i := 0;
      ghost var s0 := Snapshot();
      ghost var sleeps0 := sleeps;
      while i < |rs| && moreData && sleepcount < cfg.backoff
        invariant 0 <= i <= |rs|
        invariant Valid()
        invariant Run(cfg, s0, rs) == Then(effects, Run(cfg, Snapshot(), rs[i..]))
        invariant sleeps == sleeps0 + Slept(effects)
      {
        ghost var before := Snapshot();
        var e := Step(rs[i]);
        RunAdvance(cfg, s0, rs, i, effects, before, Snapshot(), e);
        SleptAppend(effects, e);
        effects := effects + [e];
        if e == Crash {
          return;
        }
        i := i + 1;
      }
      assert effects + [] == effects;
    }
  }

  /** The `with open` block for one file: a fresh session run on the answers rs. Returns how the
      download ended, the bytes the file holds afterwards and the effect of each iteration. */
  method DownloadFile(cfg: Config, rs: seq<ChunkResponse>) returns (status: Status, written: string, effects: seq<Effect>)
    ensures Trace(Run(cfg, Start(cfg), rs).state, effects) == Run(cfg, Start(cfg), rs)
    ensures written == Run(cfg, Start(cfg), rs).state.output
    ensures status == StatusOf(cfg, Run(cfg, Start(cfg), rs))
  {
    var session := new Session(cfg);
    effects := session.Download(rs);
    written := session.output;
    if effects != [] && effects[|effects| - 1] == Crash {
      status := Crashed;
    } else if session.sleepcount == cfg.backoff {
      status := TooManyErrors;
    } else if !session.moreData {
      status := Complete;
    } else {
      status := Unanswered;
    }
  }
}
