/** The module-level state of the line handler as one value, the effect of
    one input on it, and what holds after any sequence of inputs
    (index.js:45-53, 75-87, 89-149). The JavaScript event loop runs the DNS
    callback and the line handler one at a time, so their interleaving is a
    sequence of `Input`s. */
module Aggregate {
  import opened Probe
  import opened Graph

  /** The `let` variables of index.js:45-53 and `dnsLookupStatus` (index.js:73). */
  datatype Stats = Stats(
    latencySum: real,
    responseNum: nat,
    numTimeouts: nat,
    numOffline: nat,
    numOnline: nat,
    maxTimeOnline: nat,
    currentTimeOnline: nat,
    graph: seq<Latency>,
    tick: nat,
    dns: DnsStatus)

  /** One thing the event loop delivers: a line, already turned into an
      event, or the completion of a DNS lookup. */
  datatype Input = Line(event: Event) | Lookup(failed: bool, hasAddress: bool)

  /** The state at start-up: all counters 0, an empty graph, the countdown
      at `GRAPH_TICK` and no DNS result yet. */
  function Initial(graphTick: nat): (s: Stats)
    ensures Valid(s, graphTick)
    ensures s.dns == Pending && Reachable(s.dns)
  {
    Stats(0.0, 0, 0, 0, 0, 0, 0, [], graphTick, Pending)
  }

  /** What every reachable state satisfies. */
  predicate Valid(s: Stats, graphTick: nat) {
    && Bounded(s.graph)
    && s.tick <= graphTick
    && s.numOnline + s.numOffline == s.responseNum + s.numTimeouts
    && s.numTimeouts <= s.numOffline
    && s.currentTimeOnline <= s.maxTimeOnline
    && 0.0 <= s.latencySum
  }

  /** The value a recognised event sends to `push_to_graph`: the response
      time, or `MAX_GRAPH_VALUE` for a timeout (index.js:108, 136). */
  function GraphSample(e: Event): Latency {
    if e.Response? then e.time else MAX_GRAPH_VALUE
  }

  /** One input. A DNS completion only replaces `dnsLookupStatus`; an
      unrecognised line changes nothing; a recognised line updates the
      counters, gates its sample into the graph and updates the streak
      (index.js:76-86, 97-149). */
  function Step(s: Stats, input: Input, graphTick: nat): (r: Stats)
    ensures input.Line? ==> r.dns == s.dns
    ensures input.Lookup? ==> r.dns != Pending
    ensures r.responseNum + r.numTimeouts - s.responseNum - s.numTimeouts
         == r.numOnline + r.numOffline - s.numOnline - s.numOffline
    ensures r.responseNum + r.numTimeouts <= s.responseNum + s.numTimeouts + 1
    ensures r.maxTimeOnline >= s.maxTimeOnline
  {
    match input
    case Lookup(failed, hasAddress) => s.(dns := AfterLookup(failed, hasAddress))
    case Line(e) =>
      match Classify(e, s.dns)
      case None => s
      case Some(v) => AdvanceStreak(Count(s, e, v.online, graphTick), v.online)
  }

  /** The counter and graph updates for a recognised event `e` whose
      verdict is `online` (index.js:103-118 for a response, 128-136 for a
      timeout). */
  function Count(s: Stats, e: Event, online: bool, graphTick: nat): (r: Stats)
    requires !e.Unrecognized?
    ensures r.numOnline + r.numOffline == s.numOnline + s.numOffline + 1
    ensures r.responseNum + r.numTimeouts == s.responseNum + s.numTimeouts + 1
    ensures r.currentTimeOnline == s.currentTimeOnline && r.maxTimeOnline == s.maxTimeOnline
    ensures r.dns == s.dns
  {
    var g := Gate(Gated(s.graph, s.tick), graphTick, GraphSample(e));
    s.(latencySum := if e.Response? then s.latencySum + e.time else s.latencySum,
       responseNum := if e.Response? then s.responseNum + 1 else s.responseNum,
       numTimeouts := if e.Timeout? then s.numTimeouts + 1 else s.numTimeouts,
       numOffline := if online then s.numOffline else s.numOffline + 1,
       numOnline := if online then s.numOnline + 1 else s.numOnline,
       graph := g.graph,
       tick := g.tick)
  }

  /** The streak update after a verdict (index.js:141-149). */
  function AdvanceStreak(s: Stats, online: bool): (r: Stats)
    ensures r.maxTimeOnline >= s.maxTimeOnline && r.maxTimeOnline >= r.currentTimeOnline
    ensures r.maxTimeOnline == s.maxTimeOnline || r.maxTimeOnline == r.currentTimeOnline
    ensures r.(currentTimeOnline := s.currentTimeOnline, maxTimeOnline := s.maxTimeOnline) == s
  {
    var current := if online then s.currentTimeOnline + 1 else 0;
    s.(currentTimeOnline := current,
       maxTimeOnline := if current > s.maxTimeOnline then current else s.maxTimeOnline)
  }

  /** An unrecognised line leaves every counter, the graph, the countdown
      and the streak as they were (index.js:137-138). */
  lemma UnrecognizedChangesNothing(s: Stats, graphTick: nat)
    ensures Step(s, Line(Unrecognized), graphTick) == s
  {
  }

  /** A DNS completion changes nothing but the reachability signal. */
  lemma LookupOnlySetsDns(s: Stats, failed: bool, hasAddress: bool, graphTick: nat)
    ensures Step(s, Lookup(failed, hasAddress), graphTick) == s.(dns := AfterLookup(failed, hasAddress))
  {
  }

  /** A response adds one to `responseNum` and its time to `latencySum`; a
      timeout adds one to `numTimeouts` and one to `numOffline`; every
      recognised line adds one to exactly one of `numOnline` and
      `numOffline`, as its verdict says, and sends its sample through the
      gate. */
  lemma RecognizedLineEffect(s: Stats, e: Event, graphTick: nat)
    requires !e.Unrecognized?
    ensures var s' := Step(s, Line(e), graphTick);
      && (e.Response? ==> s'.responseNum == s.responseNum + 1 && s'.latencySum == s.latencySum + e.time
                          && s'.numTimeouts == s.numTimeouts)
      && (e.Timeout? ==> s'.numTimeouts == s.numTimeouts + 1 && s'.numOffline == s.numOffline + 1
                         && s'.responseNum == s.responseNum && s'.latencySum == s.latencySum)
      && (Classify(e, s.dns).value.online ==> s'.numOnline == s.numOnline + 1 && s'.numOffline == s.numOffline)
      && (!Classify(e, s.dns).value.online ==> s'.numOnline == s.numOnline && s'.numOffline == s.numOffline + 1)
      && Gated(s'.graph, s'.tick) == Gate(Gated(s.graph, s.tick), graphTick, GraphSample(e))
      && s'.dns == s.dns
  {
  }

  /** The streak: an online verdict extends the current run and raises the
      maximum to it; an offline verdict ends the run (index.js:141-149). */
  lemma StreakEffect(s: Stats, e: Event, graphTick: nat)
    requires !e.Unrecognized?
    ensures var s' := Step(s, Line(e), graphTick);
      && (Classify(e, s.dns).value.online ==> s'.currentTimeOnline == s.currentTimeOnline + 1)
      && (!Classify(e, s.dns).value.online ==> s'.currentTimeOnline == 0)
      && s'.maxTimeOnline >= s.maxTimeOnline
      && s'.maxTimeOnline >= s'.currentTimeOnline
      && (s'.maxTimeOnline == s.maxTimeOnline || s'.maxTimeOnline == s'.currentTimeOnline)
  {
  }

  /** Every input keeps the state valid. */
  lemma StepPreservesValid(s: Stats, input: Input, graphTick: nat)
    requires Valid(s, graphTick)
    ensures Valid(Step(s, input, graphTick), graphTick)
  {
  }

  /** The state after the inputs `ins`, in order. */
  function Run(s: Stats, ins: seq<Input>, graphTick: nat): Stats
    decreases |ins|
  {
    if ins == [] then s else Step(Run(s, ins[..|ins| - 1], graphTick), ins[|ins| - 1], graphTick)
  }

  /** Whether an input is a recognised line. */
  predicate IsRecognized(input: Input) {
    input.Line? && !input.event.Unrecognized?
  }

  /** The number of recognised lines, responses and timeouts among `ins`. */
  function Recognized(ins: seq<Input>): nat
    decreases |ins|
  {
    if ins == [] then 0
    else Recognized(ins[..|ins| - 1]) + (if IsRecognized(ins[|ins| - 1]) then 1 else 0)
  }

  function CountResponses(ins: seq<Input>): nat
    decreases |ins|
  {
    if ins == [] then 0
    else CountResponses(ins[..|ins| - 1]) + (if ins[|ins| - 1].Line? && ins[|ins| - 1].event.Response? then 1 else 0)
  }

  function CountTimeouts(ins: seq<Input>): nat
    decreases |ins|
  {
    if ins == [] then 0
    else CountTimeouts(ins[..|ins| - 1]) + (if ins[|ins| - 1].Line? && ins[|ins| - 1].event.Timeout? then 1 else 0)
  }

  /** The sum of the response times among `ins`. */
  function ResponseTotal(ins: seq<Input>): real
    decreases |ins|
  {
    if ins == [] then 0.0
    else ResponseTotal(ins[..|ins| - 1])
         + (if ins[|ins| - 1].Line? && ins[|ins| - 1].event.Response? then ins[|ins| - 1].event.time as real else 0.0)
  }

  /** Counter conservation over any sequence of inputs: `responseNum` and
      `numTimeouts` grow by the responses and timeouts seen, `latencySum`
      by the response times, and `numOnline + numOffline` by the recognised
      lines, which are exactly the responses and the timeouts. */
  lemma {:induction false} RunCounts(s: Stats, ins: seq<Input>, graphTick: nat)
    ensures var r := Run(s, ins, graphTick);
      && r.responseNum == s.responseNum + CountResponses(ins)
      && r.numTimeouts == s.numTimeouts + CountTimeouts(ins)
      && r.latencySum == s.latencySum + ResponseTotal(ins)
      && r.numOnline + r.numOffline == s.numOnline + s.numOffline + Recognized(ins)
      && Recognized(ins) == CountResponses(ins) + CountTimeouts(ins)
    decreases |ins|
  {
    if ins != [] {
      RunCounts(s, ins[..|ins| - 1], graphTick);
    }
  }

  /** From start-up, `numOnline + numOffline` equals the number of
      recognised lines and equals `responseNum + numTimeouts`. */
  lemma OnlinePlusOfflineIsRecognizedLines(ins: seq<Input>, graphTick: nat)
    ensures var r := Run(Initial(graphTick), ins, graphTick);
      && r.numOnline + r.numOffline == Recognized(ins)
      && r.numOnline + r.numOffline == r.responseNum + r.numTimeouts
  {
    RunCounts(Initial(graphTick), ins, graphTick);
  }

  /** Every sequence of inputs keeps the state valid: the graph stays
      bounded, the countdown stays in `[0, graphTick]`, timeouts never
      outnumber offline verdicts, and the maximum streak is at least the
      current one. */
  lemma {:induction false} RunPreservesValid(s: Stats, ins: seq<Input>, graphTick: nat)
    requires Valid(s, graphTick)
    ensures Valid(Run(s, ins, graphTick), graphTick)
    decreases |ins|
  {
    if ins != [] {
      RunPreservesValid(s, ins[..|ins| - 1], graphTick);
      StepPreservesValid(Run(s, ins[..|ins| - 1], graphTick), ins[|ins| - 1], graphTick);
    }
  }

  /** `maxTimeOnline` never decreases: it is at least as large after any
      longer prefix of the inputs. */
  lemma {:induction false} MaxStreakNeverDecreases(s: Stats, ins: seq<Input>, k: nat, graphTick: nat)
    requires k <= |ins|
    ensures Run(s, ins[..k], graphTick).maxTimeOnline <= Run(s, ins, graphTick).maxTimeOnline
    decreases |ins|
  {
    if k < |ins| {
      var p := ins[..|ins| - 1];
      assert p[..k] == ins[..k];
      MaxStreakNeverDecreases(s, p, k, graphTick);
      var x := ins[|ins| - 1];
      if x.Line? && !x.event.Unrecognized? {
        StreakEffect(Run(s, p, graphTick), x.event, graphTick);
      }
    } else {
      assert ins[..k] == ins;
    }
  }

  /** The graph samples of the recognised lines among `ins`, in order. */
  function Samples(ins: seq<Input>): seq<Latency>
    decreases |ins|
  {
    if ins == [] then []
    else
      var x := ins[|ins| - 1];
      Samples(ins[..|ins| - 1]) + (if IsRecognized(x) then [GraphSample(x.event)] else [])
  }

  /** The graph and the countdown after any inputs are the gate run over the
      samples of the recognised lines. */
  lemma {:induction false} RunGraphIsGateRun(s: Stats, ins: seq<Input>, graphTick: nat)
    ensures var r := Run(s, ins, graphTick);
      Gated(r.graph, r.tick) == GateRun(Gated(s.graph, s.tick), graphTick, Samples(ins))
    decreases |ins|
  {
    if ins != [] {
      var p, x := ins[..|ins| - 1], ins[|ins| - 1];
      RunGraphIsGateRun(s, p, graphTick);
      if IsRecognized(x) {
        GateRunSnoc(Gated(s.graph, s.tick), graphTick, Samples(p), GraphSample(x.event));
      } else {
        assert Samples(ins) == Samples(p) + [] == Samples(p);
        assert x.Line? ==> Classify(x.event, Run(s, p, graphTick).dns).None?;
        assert Run(s, ins, graphTick).graph == Run(s, p, graphTick).graph;
        assert Run(s, ins, graphTick).tick == Run(s, p, graphTick).tick;
      }
    }
  }

  /** From start-up the graph holds the most recent `GRAPH_MAX` of the
      samples that passed the gate, and their number is the number of
      recognised lines divided by `graphTick + 1`, rounded down. */
  lemma GraphAfterRun(ins: seq<Input>, graphTick: nat)
    ensures var r := Run(Initial(graphTick), ins, graphTick);
      var passed := Selected(graphTick, graphTick, Samples(ins));
      && r.graph == Recent(passed)
      && |passed| == |Samples(ins)| / (graphTick + 1)
      && |Samples(ins)| == Recognized(ins)
  {
    RunGraphIsGateRun(Initial(graphTick), ins, graphTick);
    GateRunKeepsRecent(Gated([], graphTick), graphTick, Samples(ins));
    SelectedCount(graphTick, graphTick, Samples(ins));
    SamplesCount(ins);
    assert [] + Selected(graphTick, graphTick, Samples(ins)) == Selected(graphTick, graphTick, Samples(ins));
  }

  lemma {:induction false} SamplesCount(ins: seq<Input>)
    ensures |Samples(ins)| == Recognized(ins)
    decreases |ins|
  {
    if ins != [] {
      SamplesCount(ins[..|ins| - 1]);
    }
  }

  /** The online verdicts of the recognised lines among `ins`, in order,
      each taken against the DNS status current at its line. */
  function Verdicts(s: Stats, ins: seq<Input>, graphTick: nat): seq<bool>
    decreases |ins|
  {
    if ins == [] then []
    else
      var p, x := ins[..|ins| - 1], ins[|ins| - 1];
      Verdicts(s, p, graphTick)
      + (if IsRecognized(x) then [Classify(x.event, Run(s, p, graphTick).dns).value.online] else [])
  }

  /** Positions `i` up to `j` of `f` are all online verdicts. */
  predicate OnlineRun(f: seq<bool>, i: int, j: int) {
    0 <= i <= j <= |f| && forall k :: i <= k < j ==> f[k]
  }

  /** `current` is the length of the run of online verdicts at the end of
      `f`, and `longest` the length of the longest run of online verdicts
      anywhere in `f`. */
  ghost predicate DescribesStreaks(f: seq<bool>, current: nat, longest: nat) {
    && OnlineRun(f, |f| - current, |f|)
    && (current < |f| ==> !f[|f| - current - 1])
    && (forall i, j :: OnlineRun(f, i, j) ==> j - i <= longest)
    && (exists i, j :: OnlineRun(f, i, j) && j - i == longest)
  }

  /** The streak update of index.js:141-149 keeps the description true when
      one more verdict arrives. */
  lemma StreakUpdateDescribes(f: seq<bool>, current: nat, longest: nat, b: bool)
    requires DescribesStreaks(f, current, longest)
    ensures var current' := if b then current + 1 else 0;
      DescribesStreaks(f + [b], current', if current' > longest then current' else longest)
  {
    var f' := f + [b];
    var current' := if b then current + 1 else 0;
    var longest' := if current' > longest then current' else longest;
    var w, w' :| OnlineRun(f, w, w') && w' - w == longest;
    assert OnlineRun(f', w, w');
    if b {
      assert OnlineRun(f', |f'| - current', |f'|);
      assert current < |f| ==> !f'[|f| - current - 1];
    } else {
      assert !f'[|f'| - 1];
    }
    forall i, j | OnlineRun(f', i, j) ensures j - i <= longest' {
      if j <= |f| {
        assert OnlineRun(f, i, j) by {
          forall k | i <= k < j ensures f[k] { assert f'[k] == f[k]; }
        }
      }
    }
  }

  /** The streak counters mean what their names say: from a state with no
      streak, after any inputs, `currentTimeOnline` is the length of the run
      of online verdicts at the end, and `maxTimeOnline` the length of the
      longest run of online verdicts. */
  lemma {:induction false} StreaksAreOnlineRuns(s: Stats, ins: seq<Input>, graphTick: nat)
    requires s.currentTimeOnline == 0 && s.maxTimeOnline == 0
    ensures var r := Run(s, ins, graphTick);
      DescribesStreaks(Verdicts(s, ins, graphTick), r.currentTimeOnline, r.maxTimeOnline)
    decreases |ins|
  {
    if ins == [] {
      assert OnlineRun([], 0, 0);
    } else {
      var p, x := ins[..|ins| - 1], ins[|ins| - 1];
      StreaksAreOnlineRuns(s, p, graphTick);
      var rp := Run(s, p, graphTick);
      if IsRecognized(x) {
        var b := Classify(x.event, rp.dns).value.online;
        StreakUpdateDescribes(Verdicts(s, p, graphTick), rp.currentTimeOnline, rp.maxTimeOnline, b);
      } else {
        assert Verdicts(s, ins, graphTick) == Verdicts(s, p, graphTick) + [] == Verdicts(s, p, graphTick);
        assert x.Line? ==> Classify(x.event, rp.dns).None?;
        var r := Run(s, ins, graphTick);
        assert r.currentTimeOnline == rp.currentTimeOnline && r.maxTimeOnline == rp.maxTimeOnline;
      }
    }
  }

  const EXAMPLE_INPUTS: seq<Input> :=
    [Lookup(false, true), Line(Response(42.0)), Line(Timeout), Line(Response(250.0))]

  /** The states after each input of the example, one step at a time. */
  lemma ExampleStep1()
    ensures Step(Initial(0), EXAMPLE_INPUTS[0], 0) == Stats(0.0, 0, 0, 0, 0, 0, 0, [], 0, Resolved)
  {
  }
  lemma ExampleStep2()
    ensures Step(Stats(0.0, 0, 0, 0, 0, 0, 0, [], 0, Resolved), EXAMPLE_INPUTS[1], 0)
         == Stats(42.0, 1, 0, 0, 1, 1, 1, [42.0], 0, Resolved)
  {
    assert Pushed([], 42.0) == [42.0];
  }
  lemma ExampleStep3()
    ensures Step(Stats(42.0, 1, 0, 0, 1, 1, 1, [42.0], 0, Resolved), EXAMPLE_INPUTS[2], 0)
         == Stats(42.0, 1, 1, 1, 1, 1, 0, [42.0, MAX_GRAPH_VALUE], 0, Resolved)
  {
    assert Pushed([42.0], MAX_GRAPH_VALUE) == [42.0, MAX_GRAPH_VALUE];
  }
  lemma ExampleStep4()
    ensures Step(Stats(42.0, 1, 1, 1, 1, 1, 0, [42.0, MAX_GRAPH_VALUE], 0, Resolved), EXAMPLE_INPUTS[3], 0)
         == Stats(292.0, 2, 1, 2, 1, 1, 0, [42.0, MAX_GRAPH_VALUE, 250.0], 0, Resolved)
  {
    assert Pushed([42.0, MAX_GRAPH_VALUE], 250.0) == [42.0, MAX_GRAPH_VALUE, 250.0];
  }

  /** Four inputs in a row, one step at a time. */
  lemma RunFour(s: Stats, ins: seq<Input>, graphTick: nat, s1: Stats, s2: Stats, s3: Stats, s4: Stats)
    requires |ins| == 4
    requires Step(s, ins[0], graphTick) == s1 && Step(s1, ins[1], graphTick) == s2
    requires Step(s2, ins[2], graphTick) == s3 && Step(s3, ins[3], graphTick) == s4
    ensures Run(s, ins, graphTick) == s4
  {
    assert ins[..1][..0] == [];
    assert Run(s, ins[..1], graphTick) == s1;
    assert ins[..2][..1] == ins[..1];
    assert Run(s, ins[..2], graphTick) == s2;
    assert ins[..3][..2] == ins[..2];
    assert Run(s, ins[..3], graphTick) == s3;
    assert ins[..3] == ins[..|ins| - 1];
  }

  /** The worked example: with DNS resolved, a 42 ms reply, a timeout and a
      250 ms reply give two responses, one timeout, one online and two
      offline verdicts, a latency sum of 292 and a streak that has ended. */
  lemma ThreeLineExample()
    ensures var r := Run(Initial(0), EXAMPLE_INPUTS, 0);
      && r.responseNum == 2 && r.numTimeouts == 1
      && r.numOffline == 2 && r.numOnline == 1
      && r.latencySum == 292.0
      && r.graph == [42.0, MAX_GRAPH_VALUE, 250.0]
      && r.currentTimeOnline == 0 && r.maxTimeOnline == 1
  {
    ExampleStep1(); ExampleStep2(); ExampleStep3(); ExampleStep4();
    RunFour(Initial(0), EXAMPLE_INPUTS, 0,
      Stats(0.0, 0, 0, 0, 0, 0, 0, [], 0, Resolved),
      Stats(42.0, 1, 0, 0, 1, 1, 1, [42.0], 0, Resolved),
      Stats(42.0, 1, 1, 1, 1, 1, 0, [42.0, MAX_GRAPH_VALUE], 0, Resolved),
      Stats(292.0, 2, 1, 2, 1, 1, 0, [42.0, MAX_GRAPH_VALUE, 250.0], 0, Resolved));
  }
}
