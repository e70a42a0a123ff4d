/** The latency graph buffer: `push_to_graph` with its decimation countdown
    (index.js:8-10, 52-71) and the jitter numerator, the `reduce` over the
    buffer (index.js:153). */
module Graph {
  import opened Probe

  /** Capacity of the graph (index.js:8). */
  const GRAPH_MAX: nat := 180
  /** Largest value stored in the graph (index.js:10). */
  const MAX_GRAPH_VALUE: Latency := 300.0

  /** What every graph the handler builds satisfies: at most `GRAPH_MAX`
      samples, none above `MAX_GRAPH_VALUE`. */
  predicate Bounded(buf: seq<Latency>) {
    |buf| <= GRAPH_MAX && forall i :: 0 <= i < |buf| ==> buf[i] <= MAX_GRAPH_VALUE
  }

  /** The value pushed for a latency: `MAX_GRAPH_VALUE` above it, the
      latency itself otherwise, that is, their minimum. */
  function Clamp(latency: Latency): (v: Latency)
    ensures v <= MAX_GRAPH_VALUE && v <= latency
    ensures v == latency || v == MAX_GRAPH_VALUE
  {
    if latency > MAX_GRAPH_VALUE then MAX_GRAPH_VALUE else latency
  }

  /** The last `GRAPH_MAX` entries of `s` (all of `s` when shorter). */
  function Recent(s: seq<Latency>): (r: seq<Latency>)
    ensures |r| <= GRAPH_MAX && |r| <= |s|
    ensures |r| == GRAPH_MAX || |r| == |s|
    ensures r == s[|s| - |r|..]
  {
    if |s| <= GRAPH_MAX then s else s[|s| - GRAPH_MAX..]
  }

  /** Trimming to the most recent entries and then appending and trimming
      again is the same as appending and trimming once. */
  lemma RecentAppend(a: seq<Latency>, b: seq<Latency>)
    ensures Recent(Recent(a) + b) == Recent(a + b)
  {
    if |a| > GRAPH_MAX {
      var ra := Recent(a);
      var lhs, rhs := Recent(ra + b), Recent(a + b);
      assert |lhs| == |rhs| == GRAPH_MAX;
      forall k | 0 <= k < GRAPH_MAX ensures lhs[k] == rhs[k] {
        var j := |b| + k;
        assert lhs[k] == (ra + b)[j];
        assert rhs[k] == (a + b)[|a| - GRAPH_MAX + j];
        if j < GRAPH_MAX {
          assert (ra + b)[j] == ra[j] == a[|a| - GRAPH_MAX + j];
        } else {
          assert (ra + b)[j] == b[j - GRAPH_MAX];
        }
      }
    }
  }

  /** The push branch of `push_to_graph`: drop the oldest sample when the
      buffer is full, then append the clamped latency. The result is the
      most recent `GRAPH_MAX` samples of the old buffer and the new one. */
  function Pushed(buf: seq<Latency>, latency: Latency): (r: seq<Latency>)
    ensures |r| >= 1
    ensures |buf| <= GRAPH_MAX ==> r == Recent(buf + [Clamp(latency)])
    ensures |buf| <= GRAPH_MAX ==> |r| == if |buf| < GRAPH_MAX then |buf| + 1 else GRAPH_MAX
    ensures Bounded(buf) ==> Bounded(r)
    ensures r[|r| - 1] == Clamp(latency)
  {
    (if |buf| >= GRAPH_MAX then buf[1..] else buf) + [Clamp(latency)]
  }

  /** The graph together with the countdown `lastGraphTick`. */
  datatype Gated = Gated(graph: seq<Latency>, tick: nat)

  /** `push_to_graph`: at a countdown of 0 the sample is pushed and the
      countdown restarts at `graphTick` (`GRAPH_TICK`); otherwise the sample
      is dropped and the countdown decreases. */
  function Gate(g: Gated, graphTick: nat, latency: Latency): (r: Gated)
    ensures g.tick != 0 ==> r.graph == g.graph && r.tick == g.tick - 1
    ensures g.tick == 0 ==> r.tick == graphTick
    ensures g.tick == 0 && |g.graph| <= GRAPH_MAX ==> r.graph == Recent(g.graph + [Clamp(latency)])
    ensures g.tick <= graphTick ==> r.tick <= graphTick
    ensures Bounded(g.graph) ==> Bounded(r.graph)
  {
    if g.tick == 0 then Gated(Pushed(g.graph, latency), graphTick)
    else Gated(g.graph, g.tick - 1)
  }

  /** The gate applied to each sample of `vs` in turn. */
  function GateRun(g: Gated, graphTick: nat, vs: seq<Latency>): (r: Gated)
    ensures g.tick <= graphTick ==> r.tick <= graphTick
    ensures Bounded(g.graph) ==> Bounded(r.graph)
    decreases |vs|
  {
    if vs == [] then g else GateRun(Gate(g, graphTick, vs[0]), graphTick, vs[1..])
  }

  /** The clamped samples that pass the gate, in order, when the countdown
      starts at `tick`. */
  function Selected(tick: nat, graphTick: nat, vs: seq<Latency>): seq<Latency>
    decreases |vs|
  {
    if vs == [] then []
    else if tick == 0 then [Clamp(vs[0])] + Selected(graphTick, graphTick, vs[1..])
    else Selected(tick - 1, graphTick, vs[1..])
  }

  /** Gating one more sample extends a run by one step. */
  lemma {:induction false} GateRunSnoc(g: Gated, graphTick: nat, vs: seq<Latency>, v: Latency)
    ensures GateRun(g, graphTick, vs + [v]) == Gate(GateRun(g, graphTick, vs), graphTick, v)
    decreases |vs|
  {
    if vs == [] {
      assert [v][1..] == [];
    } else {
      assert (vs + [v])[1..] == vs[1..] + [v];
      GateRunSnoc(Gate(g, graphTick, vs[0]), graphTick, vs[1..], v);
    }
  }

  /** One gate step, seen through `Recent`: the pushed sample, if any, is
      simply appended. */
  lemma GateStepRecent(g: Gated, graphTick: nat, v: Latency, rest: seq<Latency>)
    requires |g.graph| <= GRAPH_MAX
    ensures Recent(Gate(g, graphTick, v).graph + rest)
         == Recent(g.graph + ((if g.tick == 0 then [Clamp(v)] else []) + rest))
  {
    if g.tick == 0 {
      RecentAppend(g.graph + [Clamp(v)], rest);
      assert g.graph + [Clamp(v)] + rest == g.graph + ([Clamp(v)] + rest);
    } else {
      assert [] + rest == rest;
    }
  }

  /** After any run of samples the graph holds exactly the most recent
      `GRAPH_MAX` of the old graph followed by the samples the gate let
      through. */
  lemma {:induction false} GateRunKeepsRecent(g: Gated, graphTick: nat, vs: seq<Latency>)
    requires |g.graph| <= GRAPH_MAX && g.tick <= graphTick
    ensures GateRun(g, graphTick, vs).graph == Recent(g.graph + Selected(g.tick, graphTick, vs))
    decreases |vs|
  {
    if vs == [] {
      assert g.graph + [] == g.graph;
    } else {
      var g' := Gate(g, graphTick, vs[0]);
      GateRunKeepsRecent(g', graphTick, vs[1..]);
      var rest := Selected(g'.tick, graphTick, vs[1..]);
      assert Selected(g.tick, graphTick, vs) == (if g.tick == 0 then [Clamp(vs[0])] else []) + rest;
      GateStepRecent(g, graphTick, vs[0], rest);
    }
  }

  /** The countdown goes down by one per sample and wraps from 0 to
      `graphTick`: after `k` samples it is `(tick - k) mod (graphTick + 1)`. */
  lemma {:induction false} GateRunCountdown(g: Gated, graphTick: nat, vs: seq<Latency>)
    requires g.tick <= graphTick
    ensures GateRun(g, graphTick, vs).tick == (g.tick - |vs|) % (graphTick + 1)
    decreases |vs|
  {
    if vs == [] {
      DivUnique(g.tick, graphTick + 1, 0, g.tick);
    } else {
      var g' := Gate(g, graphTick, vs[0]);
      GateRunCountdown(g', graphTick, vs[1..]);
      if g.tick == 0 {
        ModShift(g.tick - |vs|, graphTick + 1);
      }
    }
  }

  lemma {:induction false} MulAtLeast(a: nat, d: nat)
    requires a >= 1
    ensures a * d >= d
    decreases a
  {
    if a > 1 {
      MulAtLeast(a - 1, d);
      assert a * d == (a - 1) * d + d;
    }
  }

  /** A quotient and a remainder are determined by any decomposition with
      a remainder in range. */
  lemma DivUnique(y: int, d: nat, q: int, r: int)
    requires d > 0 && 0 <= r < d && y == q * d + r
    ensures y / d == q && y % d == r
  {
    var q', r' := y / d, y % d;
    assert y == q' * d + r';
    assert (q' - q) * d == r - r' by {
      assert q' * d - q * d == (q' - q) * d;
    }
    if q' > q {
      MulAtLeast(q' - q, d);
    } else if q' < q {
      assert (q - q') * d == r' - r;
      MulAtLeast(q - q', d);
    }
  }

  /** Adding the modulus does not change a remainder. */
  lemma ModShift(x: int, d: nat)
    requires d > 0
    ensures (x + d) % d == x % d
  {
    var q, r := x / d, x % d;
    assert x + d == (q + 1) * d + r;
    DivUnique(x + d, d, q + 1, r);
  }

  /** Adding `d + 1` to a numerator adds one to its quotient by `d + 1`. */
  lemma DivStep(x: nat, d: nat)
    ensures (x + d + 1) / (d + 1) == x / (d + 1) + 1
  {
    var q, r := x / (d + 1), x % (d + 1);
    assert x + d + 1 == (q + 1) * (d + 1) + r;
    DivUnique(x + d + 1, d + 1, q + 1, r);
  }

  /** Decimation: starting from a countdown of `tick`, the gate lets
      `(k + graphTick - tick) / (graphTick + 1)` of `k` samples through. From
      the initial countdown `graphTick` that is every `(graphTick + 1)`-th
      sample, the first one being sample number `graphTick + 1`. */
  lemma {:induction false} SelectedCount(tick: nat, graphTick: nat, vs: seq<Latency>)
    requires tick <= graphTick
    ensures |Selected(tick, graphTick, vs)| == (|vs| + graphTick - tick) / (graphTick + 1)
    ensures tick == graphTick ==> |Selected(tick, graphTick, vs)| == |vs| / (graphTick + 1)
    decreases |vs|
  {
    if vs != [] {
      if tick == 0 {
        SelectedCount(graphTick, graphTick, vs[1..]);
        DivStep(|vs| - 1, graphTick);
      } else {
        SelectedCount(tick - 1, graphTick, vs[1..]);
      }
    }
  }

  /** The samples `vs`, each clamped. */
  function ClampAll(vs: seq<Latency>): (r: seq<Latency>)
    ensures |r| == |vs|
    ensures forall i :: 0 <= i < |vs| ==> r[i] == Clamp(vs[i])
  {
    if vs == [] then [] else [Clamp(vs[0])] + ClampAll(vs[1..])
  }

  /** With `GRAPH_TICK = 0`, as index.js:9 sets it, every sample is pushed:
      from an empty graph, the graph holds the clamped last `GRAPH_MAX`
      samples, and exactly `GRAPH_MAX` of them once that many have come. */
  lemma {:induction false} NoDecimationKeepsLastSamples(vs: seq<Latency>)
    ensures GateRun(Gated([], 0), 0, vs).graph == Recent(ClampAll(vs))
    ensures |vs| >= GRAPH_MAX ==> |GateRun(Gated([], 0), 0, vs).graph| == GRAPH_MAX
  {
    GateRunKeepsRecent(Gated([], 0), 0, vs);
    SelectedAllAtTickZero(vs);
    assert [] + ClampAll(vs) == ClampAll(vs);
  }

  lemma {:induction false} SelectedAllAtTickZero(vs: seq<Latency>)
    ensures Selected(0, 0, vs) == ClampAll(vs)
    decreases |vs|
  {
    if vs != [] {
      SelectedAllAtTickZero(vs[1..]);
    }
  }

  function Abs(x: real): real {
    if x < 0.0 then -x else x
  }

  /** The fold of index.js:153 from index `i` on, with accumulator `acc`:
      it resets to 0 at index 0 and then adds each neighbour distance. From
      any index past the first, it adds the neighbour distances from
      `a[i - 1]` on. */
  function JitterReduce(a: seq<real>, i: nat, acc: real): (r: real)
    requires i <= |a|
    ensures 1 <= i ==> r == acc + Variation(a[i - 1..])
    decreases |a| - i
  {
    if i == |a| then acc
    else
      var r := JitterReduce(a, i + 1, if i == 0 then 0.0 else acc + Abs(a[i] - a[i - 1]));
      assert 1 <= i ==> a[i - 1..][1..] == a[i..];
      r
  }

  /** The jitter numerator, the whole fold started at 0: the sum of
      `|a[i] - a[i-1]|` over `i >= 1`, so never negative and 0 for fewer
      than two samples. */
  function Jitter(a: seq<real>): (j: real)
    ensures j == Variation(a)
    ensures 0.0 <= j
    ensures |a| < 2 ==> j == 0.0
  {
    var j := JitterReduce(a, 0, 0.0);
    assert |a| > 0 ==> a[0..] == a;
    j
  }

  /** Reference definition: the sum of the distances between neighbouring
      samples, taken from the front. */
  function Variation(a: seq<real>): (v: real)
    ensures 0.0 <= v
    ensures |a| < 2 ==> v == 0.0
    decreases |a|
  {
    if |a| < 2 then 0.0 else Abs(a[1] - a[0]) + Variation(a[1..])
  }

  lemma {:induction false} VariationSnoc(a: seq<real>, x: real)
    requires |a| >= 1
    ensures Variation(a + [x]) == Variation(a) + Abs(x - a[|a| - 1])
    decreases |a|
  {
    if |a| >= 2 {
      assert (a + [x])[1..] == a[1..] + [x];
      VariationSnoc(a[1..], x);
    }
  }

  /** Pushing at the open gate changes the jitter numerator by the distance
      from the previous newest sample to the new one, less the distance
      between the two oldest samples when the oldest is evicted. */
  lemma JitterAfterPush(buf: seq<Latency>, latency: Latency)
    requires 1 <= |buf| <= GRAPH_MAX
    ensures Jitter(Pushed(buf, latency)) ==
      Jitter(buf) + Abs(Clamp(latency) as real - buf[|buf| - 1] as real)
      - (if |buf| == GRAPH_MAX then Abs(buf[1] as real - buf[0] as real) else 0.0)
  {
    if |buf| == GRAPH_MAX {
      VariationSnoc(buf[1..], Clamp(latency));
    } else {
      VariationSnoc(buf, Clamp(latency));
    }
  }

  /** A bounded graph of `n` samples has a jitter numerator of at most
      `(n - 1) * MAX_GRAPH_VALUE`. */
  lemma {:induction false} JitterBound(a: seq<Latency>)
    requires Bounded(a) && |a| >= 1
    ensures Jitter(a) <= (|a| - 1) as real * MAX_GRAPH_VALUE
    decreases |a|
  {
    if |a| >= 2 {
      assert Bounded(a[1..]);
      JitterBound(a[1..]);
    }
  }
}
