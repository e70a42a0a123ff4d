/** The module-level variables of index.js and the three pieces of code that
    update them in place: `push_to_graph` (index.js:55-71), the DNS lookup
    callback (index.js:76-86) and the `line` handler (index.js:89-149). Each
    method is specified by a function on the abstract state: the callback
    and the handler by `Aggregate.Step`, `push_to_graph` by `Graph.Gate`,
    and the parts of the handler by `Aggregate.Count` and
    `Aggregate.AdvanceStreak`. */
module PingMonitor {
  import opened Probe
  import opened Graph
  import opened Aggregate

  class Monitor {
    /** `GRAPH_TICK` (index.js:9), a parameter of the model. */
    const graphTick: nat

    var latencySum: real
    var responseNum: nat
    var numTimeouts: nat
    var numOffline: nat
    var numOnline: nat
    var maxTimeOnline: nat
    var currentTimeOnline: nat
    var latencyGraph: seq<Latency>
    var lastGraphTick: nat
    var dnsLookupStatus: DnsStatus

    /** The abstract value of all the variables. */
    function State(): Stats
      reads this
    {
      Stats(latencySum, responseNum, numTimeouts, numOffline, numOnline,
            maxTimeOnline, currentTimeOnline, latencyGraph, lastGraphTick, dnsLookupStatus)
    }

    ghost predicate Valid()
      reads this
    {
      Aggregate.Valid(State(), graphTick)
    }

    /** The initial values of index.js:45-53 and 73. */
    constructor (graphTick: nat)
      ensures this.graphTick == graphTick
      ensures State() == Initial(graphTick)
      ensures Valid()
    {
      this.graphTick := graphTick;
      latencySum := 0.0;
      responseNum, numTimeouts, numOffline, numOnline := 0, 0, 0, 0;
      maxTimeOnline, currentTimeOnline := 0, 0;
      latencyGraph := [];
      lastGraphTick := graphTick;
      dnsLookupStatus := Pending;
    }

    /** `push_to_graph`: touches only the graph and the countdown. It is
        called only from the two branches of the `line` handler, so it keeps
        the graph part of `Valid()` and leaves the rest to `OnLine`. */
    method PushToGraph(latency: Latency)
      modifies this`latencyGraph, this`lastGraphTick
      ensures Gated(latencyGraph, lastGraphTick) == Gate(Gated(old(latencyGraph), old(lastGraphTick)), graphTick, latency)
      ensures Bounded(old(latencyGraph)) ==> Bounded(latencyGraph)
      ensures old(lastGraphTick) <= graphTick ==> lastGraphTick <= graphTick
    {
      if lastGraphTick == 0 {
        if |latencyGraph| >= GRAPH_MAX {
          latencyGraph := latencyGraph[1..];
        }
        if latency > MAX_GRAPH_VALUE {
          latencyGraph := latencyGraph + [MAX_GRAPH_VALUE];
        } else {
          latencyGraph := latencyGraph + [latency];
        }
        lastGraphTick := graphTick;
      } else {
        lastGraphTick := lastGraphTick - 1;
      }
    }

    /** The `dns.lookup` callback: `dnsLookupStatus` becomes `true` exactly
        when there is no error and the address is truthy. */
    method DnsLookupDone(failed: bool, hasAddress: bool)
      requires Valid()
      modifies this`dnsLookupStatus
      ensures Valid()
      ensures State() == Step(old(State()), Lookup(failed, hasAddress), graphTick)
      ensures dnsLookupStatus == Resolved <==> !failed && hasAddress
      ensures dnsLookupStatus != Pending
    {
      dnsLookupStatus := Resolved;
      if failed {
        dnsLookupStatus := Unresolved;
      }
      if !hasAddress {
        dnsLookupStatus := Unresolved;
      }
    }

    /** The start of the response branch (index.js:103-108): count the
        response, add its time and gate it into the graph. A step inside
        `OnLine` only. */
    method CountResponse(time: Latency)
      modifies this`responseNum, this`latencySum, this`latencyGraph, this`lastGraphTick
      ensures Gated(latencyGraph, lastGraphTick) == Gate(Gated(old(latencyGraph), old(lastGraphTick)), graphTick, time)
      ensures responseNum == old(responseNum) + 1 && latencySum == old(latencySum) + time
    {
      responseNum := responseNum + 1;
      latencySum := latencySum + time;
      PushToGraph(time);
    }

    /** The classification of a response (index.js:112-126): one of
        `numOffline` and `numOnline` grows, as the verdict says. A step
        inside `OnLine` only. */
    method ClassifyResponse(time: Latency) returns (isOnline: bool, latencyLevel: Severity)
      modifies this`numOffline, this`numOnline
      ensures Some(Verdict(isOnline, latencyLevel)) == Classify(Response(time), dnsLookupStatus)
      ensures numOnline == (if isOnline then old(numOnline) + 1 else old(numOnline))
      ensures numOffline == (if isOnline then old(numOffline) else old(numOffline) + 1)
    {
      if time > TIMEOUT_LATENCY_MIN || dnsLookupStatus == Unresolved {
        numOffline := numOffline + 1;
        isOnline := false;
      } else {
        isOnline := true;
        numOnline := numOnline + 1;
      }
      if time > TIMEOUT_LATENCY_MIN {
        latencyLevel := Error;
      } else if time > LATENCY_WARN {
        latencyLevel := Warning;
      } else {
        latencyLevel := Ok;
      }
    }

    /** The response branch of the `line` handler up to the streak
        (index.js:97-126). A step inside `OnLine` only. */
    method RecordResponse(time: Latency) returns (isOnline: bool, latencyLevel: Severity)
      modifies this`responseNum, this`latencySum, this`latencyGraph, this`lastGraphTick,
               this`numOffline, this`numOnline
      ensures Some(Verdict(isOnline, latencyLevel)) == Classify(Response(time), dnsLookupStatus)
      ensures State() == Count(old(State()), Response(time), isOnline, graphTick)
    {
      CountResponse(time);
      isOnline, latencyLevel := ClassifyResponse(time);
    }

    /** The timeout branch of the `line` handler (index.js:127-136), a step
        inside `OnLine` only. */
    method RecordTimeout()
      modifies this`numTimeouts, this`numOffline, this`latencyGraph, this`lastGraphTick
      ensures State() == Count(old(State()), Timeout, false, graphTick)
    {
      numTimeouts := numTimeouts + 1;
      numOffline := numOffline + 1;
      PushToGraph(MAX_GRAPH_VALUE);
    }

    /** The streak update at the end of the `line` handler (index.js:141-149),
        a step inside `OnLine` only. */
    method UpdateStreak(isOnline: bool)
      modifies this`currentTimeOnline, this`maxTimeOnline
      ensures State() == AdvanceStreak(old(State()), isOnline)
      ensures maxTimeOnline >= old(maxTimeOnline) && maxTimeOnline >= currentTimeOnline
    {
      if isOnline {
        currentTimeOnline := currentTimeOnline + 1;
        if currentTimeOnline > maxTimeOnline {
          maxTimeOnline := currentTimeOnline;
        }
      } else {
        currentTimeOnline := 0;
      }
    }

    /** The `line` handler. `responseMatch` is what the response pattern
        captured as the time, if it matched; the timeout pattern is applied
        to `line` itself. Returns the verdict shown for the line (`isOnline`
        and `latencyLevel`), or `None` when the handler returns early. */
    method OnLine(responseMatch: Option<Latency>, line: string) returns (shown: Option<Verdict>)
      requires Valid()
      modifies this
      ensures State() == Step(old(State()), Line(LineEvent(responseMatch, line)), graphTick)
      ensures Valid()
      ensures shown == Classify(LineEvent(responseMatch, line), old(dnsLookupStatus))
    {
      ghost var before := State();
      ghost var e := LineEvent(responseMatch, line);
      StepPreservesValid(before, Line(e), graphTick);
      var timeoutMatch := TimeoutPatternMatches(line);
      var isOnline := false;
      var latencyLevel := Ok;

      if responseMatch.Some? {
        isOnline, latencyLevel := RecordResponse(responseMatch.value);
      } else if timeoutMatch {
        RecordTimeout();
        latencyLevel := Error;
        isOnline := false;
      } else {
        return None;
      }
      ghost var counted := State();
      assert counted == Count(before, e, isOnline, graphTick);

      UpdateStreak(isOnline);
      shown := Some(Verdict(isOnline, latencyLevel));
      assert State() == AdvanceStreak(counted, isOnline);
    }
  }
}
