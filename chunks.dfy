/** The chunked download of one log file: a loop that requests portions at the current marker,
    backs off on failures, shrinks the requested line count when a portion comes back truncated,
    and otherwise appends the portion to the output file and follows the service's marker. */
module Chunks {
  import opened Remote
  import opened Backoff

  /** The two settings the loop reads: the initial line count (-l) and the ceiling (-b). */
  datatype Config = Config(lines: int, backoff: nat)

  /** The loop's variables, and the bytes written to the output file so far. */
  datatype State = State(marker: string, lines: int, sleepcount: nat, moreData: bool,
                         chunk: nat, output: string)

  /** What one iteration did: slept after a failed call, shrank the line count and retried,
      accepted a portion, or raised KeyError on a portion that lacked a key. */
  datatype Effect = Sleep(seconds: nat) | Shrink | Accept | Crash

  datatype Transition = Transition(state: State, effect: Effect)

  /** The state every file's download starts from. */
  function Start(cfg: Config): State {
    State("0", cfg.lines, 0, true, 0, [])
  }

  /** The loop condition: more data pending and the failure counter below the ceiling. */
  predicate Loops(cfg: Config, s: State) {
    s.moreData && s.sleepcount < cfg.backoff
  }

  /** The truncation test on the line count: lines > 0.1 * initial, in integers. */
  predicate CanShrink(cfg: Config, lines: int) {
    10 * lines > cfg.lines
  }

  /** One iteration of the loop on answer r. */
  function Next(cfg: Config, s: State, r: ChunkResponse): Transition {
    match r
    case ChunkFailure =>
      Transition(s.(sleepcount := s.sleepcount + 1), Sleep(Pow2(s.sleepcount)))
    case Portion(data, marker, pending) =>
      var reset := s.(sleepcount := 0);
      if marker.None? || pending.None? then
        Transition(reset, Crash)
      else if Truncated(data) && CanShrink(cfg, s.lines) then
        Transition(reset.(lines := s.lines - 10), Shrink)
      else
        var advanced := reset.(output := s.output + Written(data),
                               moreData := pending == Some(true),
                               marker := if marker.Some? then marker.value else s.marker,
                               chunk := s.chunk + 1);
        Transition(advanced, if data.Missing? then Crash else Accept)
  }

  /** The end of a run: the final state and the effect of each iteration, in order. */
  datatype Trace = Trace(state: State, effects: seq<Effect>)

  /** The loop fed with the answers rs, one per iteration, from state s. It stops when the loop
      condition fails, after a KeyError, or when the answers run out. */
  function Run(cfg: Config, s: State, rs: seq<ChunkResponse>): (t: Trace)
    ensures |t.effects| <= |rs|
    decreases |rs|
  {
    if rs == [] || !Loops(cfg, s) then Trace(s, [])
    else
      var n := Next(cfg, s, rs[0]);
      if n.effect == Crash then Trace(n.state, [Crash])
      else
        var rest := Run(cfg, n.state, rs[1..]);
        Trace(rest.state, [n.effect] + rest.effects)
  }

  /** How a file's download ended. Unanswered: the answers ran out while the loop would go on. */
  datatype Status = Complete | TooManyErrors | Crashed | Unanswered

  function StatusOf(cfg: Config, t: Trace): Status {
    if t.effects != [] && t.effects[|t.effects| - 1] == Crash then Crashed
    else if t.state.sleepcount == cfg.backoff then TooManyErrors
    else if !t.state.moreData then Complete
    else Unanswered
  }

  // ---------------------------------------------------------------------------------------
  // Reference definitions the lemmas below relate Run to.

  /** The concatenated data of the answers whose iteration accepted them. */
  function Accepted(rs: seq<ChunkResponse>, effects: seq<Effect>): string
    requires |effects| <= |rs|
    decreases |effects|
  {
    if effects == [] then []
    else (if effects[0] == Accept && rs[0].Portion? then Written(rs[0].data) else []) + Accepted(rs[1..], effects[1..])
  }

  /** The marker after the answers: the Marker of the last accepted answer that has one. */
  function LastMarker(marker: string, rs: seq<ChunkResponse>, effects: seq<Effect>): string
    requires |effects| <= |rs|
    decreases |effects|
  {
    if effects == [] then marker
    else
      var m := if effects[0] == Accept && rs[0].Portion? && rs[0].marker.Some?
               then rs[0].marker.value else marker;
      LastMarker(m, rs[1..], effects[1..])
  }

  function Shrinks(effects: seq<Effect>): nat {
    if effects == [] then 0 else (if effects[0] == Shrink then 1 else 0) + Shrinks(effects[1..])
  }

  /** The durations slept by the iterations with these effects, in order. */
  function Slept(effects: seq<Effect>): seq<nat> {
    if effects == [] then [] else (if effects[0].Sleep? then [effects[0].seconds] else []) + Slept(effects[1..])
  }

  /** One more iteration adds its sleep, if any, at the end. */
  lemma {:induction false} SleptAppend(effects: seq<Effect>, e: Effect)
    ensures Slept(effects + [e]) == Slept(effects) + (if e.Sleep? then [e.seconds] else [])
  {
    if effects != [] {
      assert (effects + [e])[1..] == effects[1..] + [e];
      SleptAppend(effects[1..], e);
    } else {
      assert [e][1..] == [];
    }
  }

  /** The number of failures in a row just before position i of effects; start is the count
      already pending when effects began. */
  function Streak(start: nat, effects: seq<Effect>, i: nat): nat
    requires i <= |effects|
  {
    if i == 0 then start
    else if effects[i - 1].Sleep? then Streak(start, effects, i - 1) + 1
    else 0
  }

  /** A run that follows the iterations already done. */
  function Then(done: seq<Effect>, t: Trace): Trace {
    Trace(t.state, done + t.effects)
  }

  /** Run one iteration at a time. */
  lemma RunUnfold(cfg: Config, s: State, rs: seq<ChunkResponse>)
    requires rs != [] && Loops(cfg, s)
    ensures var n := Next(cfg, s, rs[0]);
      Run(cfg, s, rs) == if n.effect == Crash then Trace(n.state, [Crash])
                         else Then([n.effect], Run(cfg, n.state, rs[1..]))
  {
  }

  lemma ThenThen(done: seq<Effect>, more: seq<Effect>, t: Trace)
    ensures Then(done, Then(more, t)) == Then(done + more, t)
  {
    assert done + (more + t.effects) == (done + more) + t.effects;
  }

  /** A run resumed after i answers, advanced by the iteration on the next answer. */
  lemma RunAdvance(cfg: Config, s0: State, rs: seq<ChunkResponse>, i: nat, done: seq<Effect>,
                   before: State, after: State, e: Effect)
    requires i < |rs| && Loops(cfg, before)
    requires Run(cfg, s0, rs) == Then(done, Run(cfg, before, rs[i..]))
    requires Transition(after, e) == Next(cfg, before, rs[i])
    ensures e != Crash ==> Run(cfg, s0, rs) == Then(done + [e], Run(cfg, after, rs[i + 1..]))
    ensures e == Crash ==> Run(cfg, s0, rs) == Trace(after, done + [e])
  {
    assert rs[i..][0] == rs[i] && rs[i..][1..] == rs[i + 1..];
    RunUnfold(cfg, before, rs[i..]);
    if e != Crash {
      ThenThen(done, [e], Run(cfg, after, rs[i + 1..]));
    }
  }

  /** The effect at position i, if a sleep, sleeps 2^k for the k failures in a row before it. */
  predicate SleepOnSchedule(start: nat, effects: seq<Effect>, i: nat)
    requires i < |effects|
  {
    effects[i].Sleep? ==> effects[i].seconds == Pow2(Streak(start, effects, i))
  }

  /** The line count never falls below this bound: lines > initial/10 - 10 once it has shrunk. */
  predicate LinesFloor(cfg: Config, lines: int) {
    lines == cfg.lines || 10 * lines > cfg.lines - 100
  }

  // ---------------------------------------------------------------------------------------
  // What a run guarantees.

  /** Shifting the start of a streak computation by one effect. */
  lemma {:induction false} StreakShift(start: nat, e: Effect, rest: seq<Effect>, i: nat)
    requires i <= |rest|
    ensures Streak(start, [e] + rest, i + 1) == Streak(if e.Sleep? then start + 1 else 0, rest, i)
  {
    var es := [e] + rest;
    assert es[..] == es;
    if i > 0 {
      assert es[i] == rest[i - 1];
      StreakShift(start, e, rest, i - 1);
    }
  }

  /** Backoff schedule of the chunk loop: the sleep after a failure is 2^k where k is the number of
      failures in a row before it, and the counter ends equal to the failures since the last
      answered call (any answered call resets it to 0). */
  lemma {:induction false} RunSleeps(cfg: Config, s: State, rs: seq<ChunkResponse>)
    ensures var t := Run(cfg, s, rs);
      && (forall i :: 0 <= i < |t.effects| ==> SleepOnSchedule(s.sleepcount, t.effects, i))
      && t.state.sleepcount == Streak(s.sleepcount, t.effects, |t.effects|)
    decreases |rs|
  {
    var t := Run(cfg, s, rs);
    if rs == [] || !Loops(cfg, s) {
    } else {
      var n := Next(cfg, s, rs[0]);
      if n.effect == Crash {
        assert t.effects == [Crash];
      } else {
        var rest := Run(cfg, n.state, rs[1..]);
        RunSleeps(cfg, n.state, rs[1..]);
        SleepsAfterStep(s, n, rest);
      }
    }
  }

  /** The inductive step of RunSleeps: one non-KeyError iteration followed by a run with the
      schedule property has the property too. */
  lemma SleepsAfterStep(s: State, n: Transition, rest: Trace)
    requires n.effect != Crash
    requires n.effect.Sleep? ==> n.effect.seconds == Pow2(s.sleepcount)
    requires n.state.sleepcount == if n.effect.Sleep? then s.sleepcount + 1 else 0
    requires forall i :: 0 <= i < |rest.effects| ==> SleepOnSchedule(n.state.sleepcount, rest.effects, i)
    requires rest.state.sleepcount == Streak(n.state.sleepcount, rest.effects, |rest.effects|)
    ensures var es := [n.effect] + rest.effects;
      && (forall i :: 0 <= i < |es| ==> SleepOnSchedule(s.sleepcount, es, i))
      && rest.state.sleepcount == Streak(s.sleepcount, es, |es|)
  {
    var es := [n.effect] + rest.effects;
    forall i | 0 <= i < |es|
      ensures SleepOnSchedule(s.sleepcount, es, i)
    {
      if i > 0 {
        assert SleepOnSchedule(n.state.sleepcount, rest.effects, i - 1);
        assert es[i] == rest.effects[i - 1];
        StreakShift(s.sleepcount, n.effect, rest.effects, i - 1);
      }
    }
    StreakShift(s.sleepcount, n.effect, rest.effects, |rest.effects|);
  }

  /** Output content: the file holds, after what it held, the data of every accepted answer in
      the order of the answers; failed, shrunk and data-less answers add nothing. */
  lemma {:induction false} RunOutput(cfg: Config, s: State, rs: seq<ChunkResponse>)
    ensures var t := Run(cfg, s, rs); t.state.output == s.output + Accepted(rs, t.effects)
    decreases |rs|
  {
    var t := Run(cfg, s, rs);
    if rs == [] || !Loops(cfg, s) {
    } else {
      var n := Next(cfg, s, rs[0]);
      if n.effect == Crash {
        assert Accepted(rs, t.effects) == [];
        assert n.state.output == s.output;
      } else {
        var rest := Run(cfg, n.state, rs[1..]);
        RunOutput(cfg, n.state, rs[1..]);
        assert t.effects == [n.effect] + rest.effects;
        assert t.effects[1..] == rest.effects;
        var w := if n.effect == Accept && rs[0].Portion? then Written(rs[0].data) else [];
        assert n.state.output == s.output + w;
        assert Accepted(rs, t.effects) == w + Accepted(rs[1..], rest.effects);
      }
    }
  }

  /** Marker forwarding: a run without KeyError ends at the Marker of the last accepted answer,
      or at the marker it started from when no accepted answer carried one. */
  lemma {:induction false} RunMarker(cfg: Config, s: State, rs: seq<ChunkResponse>)
    ensures var t := Run(cfg, s, rs);
      Crash !in t.effects ==> t.state.marker == LastMarker(s.marker, rs, t.effects)
    decreases |rs|
  {
    var t := Run(cfg, s, rs);
    if rs == [] || !Loops(cfg, s) {
    } else {
      var n := Next(cfg, s, rs[0]);
      if n.effect != Crash {
        var rest := Run(cfg, n.state, rs[1..]);
        RunMarker(cfg, n.state, rs[1..]);
        assert t.effects == [n.effect] + rest.effects;
        assert t.effects[1..] == rest.effects;
        assert n.state.marker == if n.effect == Accept && rs[0].Portion? && rs[0].marker.Some?
                                 then rs[0].marker.value else s.marker;
      }
    }
  }

  /** The line count only moves by shrinks of exactly 10, so it never increases, and it keeps
      the floor lines > initial/10 - 10 (a shrink needs lines > initial/10 beforehand). */
  lemma {:induction false} RunLines(cfg: Config, s: State, rs: seq<ChunkResponse>)
    ensures var t := Run(cfg, s, rs);
      && t.state.lines == s.lines - 10 * Shrinks(t.effects)
      && (LinesFloor(cfg, s.lines) ==> LinesFloor(cfg, t.state.lines))
    decreases |rs|
  {
    var t := Run(cfg, s, rs);
    if rs == [] || !Loops(cfg, s) {
    } else {
      var n := Next(cfg, s, rs[0]);
      if n.effect == Crash {
        assert t.effects == [Crash];
        assert Shrinks(t.effects) == 0 + Shrinks([]);
      } else {
        var rest := Run(cfg, n.state, rs[1..]);
        RunLines(cfg, n.state, rs[1..]);
        assert t.effects == [n.effect] + rest.effects;
        assert t.effects[1..] == rest.effects;
        if n.effect == Shrink {
          assert CanShrink(cfg, s.lines) && n.state.lines == s.lines - 10;
        } else {
          assert n.state.lines == s.lines;
        }
      }
    }
  }

  /** With an initial line count that is a non-negative multiple of 100 the line count never drops
      below a tenth of it (for 100 the smallest request is 10 lines). */
  lemma RoundFloor(cfg: Config, rs: seq<ChunkResponse>)
    requires cfg.lines >= 0 && cfg.lines % 100 == 0
    ensures 10 * Run(cfg, Start(cfg), rs).state.lines >= cfg.lines
  {
    var t := Run(cfg, Start(cfg), rs);
    RunLines(cfg, Start(cfg), rs);
    var c := Shrinks(t.effects);
    var m := cfg.lines / 100;
    assert cfg.lines == 100 * m;
    if t.state.lines != cfg.lines {
      assert 10 * (100 * m - 10 * c) > 100 * m - 100;
      assert c <= 9 * m;
    }
  }

  /** The tenth is not a strict floor: from 105 lines ten truncated portions bring the request
      down to 5 lines, and the eleventh truncated portion is then written as it is. */
  lemma NoStrictTenthFloor()
    ensures var cfg := Config(105, 10);
      var cut := Portion(Text(TruncationSentinel), Some("1"), Some(false));
      var t := Run(cfg, Start(cfg), seq(11, _ => cut));
      t.state.lines == 5 && t.state.output == TruncationSentinel && !t.state.moreData
  {
    var cfg := Config(105, 10);
    var cut := Portion(Text(TruncationSentinel), Some("1"), Some(false));
    var rs := seq(11, _ => cut);
    SentinelIsTruncated();
    var s := Start(cfg);
    var k := 0;
    while k < 10
      invariant 0 <= k <= 10
      invariant s == Start(cfg).(lines := 105 - 10 * k)
      invariant Run(cfg, Start(cfg), rs).state == Run(cfg, s, rs[k..]).state
    {
      var here := rs[k..];
      assert here[0] == cut && here[1..] == rs[k + 1..];
      assert CanShrink(cfg, s.lines);
      assert Next(cfg, s, cut) == Transition(s.(lines := s.lines - 10), Shrink);
      s := s.(lines := s.lines - 10);
      k := k + 1;
    }
    var last := rs[10..];
    assert last == [cut] && last[1..] == [];
    assert !CanShrink(cfg, s.lines);
  }

  /** Below 20 initial lines the request can reach zero or less: from 10 lines one truncated
      portion leaves the loop going on with a request for 0 lines. */
  lemma SmallCountReachesZero()
    ensures var cfg := Config(10, 10);
      var cut := Portion(Text(TruncationSentinel), Some("1"), Some(true));
      var t := Run(cfg, Start(cfg), [cut]);
      t.effects == [Shrink] && t.state.lines == 0 && Loops(cfg, t.state)
  {
    var cfg := Config(10, 10);
    var cut := Portion(Text(TruncationSentinel), Some("1"), Some(true));
    SentinelIsTruncated();
    var s0 := Start(cfg);
    assert Next(cfg, s0, cut) == Transition(s0.(lines := 0), Shrink);
    assert [cut][1..] == [];
  }

  lemma SentinelIsTruncated()
    ensures Truncated(Text(TruncationSentinel))
  {
    assert TruncationSentinel[|TruncationSentinel| - |TruncationSentinel|..] == TruncationSentinel;
  }

  /** A truncated second portion with 1000 initial lines: the retry asks for 990 lines and the
      truncated text is not written. */
  lemma TruncatedSecondPortion()
    ensures var cfg := Config(1000, 10);
      var first := Portion(Text("line 1\n"), Some("1"), Some(true));
      var cut := Portion(Text(TruncationSentinel), Some("2"), Some(true));
      var t := Run(cfg, Start(cfg), [first, cut]);
      t.effects == [Accept, Shrink] && t.state.lines == 990 && t.state.output == "line 1\n"
      && t.state.marker == "1"
  {
    var cfg := Config(1000, 10);
    var first := Portion(Text("line 1\n"), Some("1"), Some(true));
    var cut := Portion(Text(TruncationSentinel), Some("2"), Some(true));
    SentinelIsTruncated();
    assert !Truncated(first.data);
    var rs := [first, cut];
    var s0 := Start(cfg);
    var s1 := s0.(output := "line 1\n", marker := "1", chunk := 1);
    var s2 := s1.(lines := 990);
    assert Next(cfg, s0, first) == Transition(s1, Accept);
    assert Next(cfg, s1, cut) == Transition(s2, Shrink);
    assert rs[1..] == [cut] && rs[1..][1..] == [];
    assert Run(cfg, s1, [cut]) == Trace(s2, [Shrink]);
  }

  /** The loop ends only as the source's loop does: a run that leaves answers unused stopped on
      the loop condition or on a KeyError; a KeyError is always the last effect; and the failure
      counter never passes the ceiling. */
  lemma {:induction false} RunStops(cfg: Config, s: State, rs: seq<ChunkResponse>)
    requires s.sleepcount <= cfg.backoff
    ensures var t := Run(cfg, s, rs);
      && t.state.sleepcount <= cfg.backoff
      && (forall i :: 0 <= i < |t.effects| - 1 ==> t.effects[i] != Crash)
      && (|t.effects| < |rs| ==> !Loops(cfg, t.state) || (t.effects != [] && t.effects[|t.effects| - 1] == Crash))
    decreases |rs|
  {
    var t := Run(cfg, s, rs);
    if rs == [] || !Loops(cfg, s) {
    } else {
      var n := Next(cfg, s, rs[0]);
      if n.effect != Crash {
        var rest := Run(cfg, n.state, rs[1..]);
        RunStops(cfg, n.state, rs[1..]);
        assert t.effects == [n.effect] + rest.effects;
        forall i | 0 <= i < |t.effects| - 1 ensures t.effects[i] != Crash {
          if i > 0 { assert t.effects[i] == rest.effects[i - 1]; }
        }
      }
    }
  }
}
