# ping-analyzer, modelled in Dafny

ping-analyzer reads the output of the system `ping` tool line by line and
keeps running statistics. It counts:

- responses and timeouts;
- the online and offline verdicts;
- the current and the longest run of online verdicts;
- the sum of the latencies.

It keeps a decimated history buffer of at most 180 latency samples and
derives a jitter figure from it. A DNS lookup repeats in the background,
and a failed lookup turns every response into an offline verdict, however
fast the response is.

The model covers that core, all of it in `index.js`:

- `probe.dfy` (module `Probe`) holds:
  - what one line means: a response with its time, a timeout, or a line
    that is skipped;
  - the active timeout pattern, read as the character class it is;
  - the DNS status: the initial array value, `true` or `false`;
  - the classification of an event into an online verdict and a severity,
    using the thresholds 100 and 101 ms.
- `graph.dfy` (module `Graph`) holds `push_to_graph` on values:
  - the decimation gate and its countdown;
  - clamping to 300;
  - eviction of the oldest sample at 180 entries;
  - the jitter fold `reduce`, proved equal to a reference sum of
    neighbour distances.
- `aggregate.dfy` (module `Aggregate`) holds:
  - all module-level variables as one value `Stats`;
  - the effect `Step` of one input on it, where an input is a line or the
    completion of a DNS lookup;
  - the state `Run` after any sequence of inputs;
  - the lemmas about `Step` and `Run`: counter conservation, preserved
    invariants, what the graph holds, and what the streak counters mean.

  The JavaScript event loop runs the DNS callback and the line handler one
  at a time, so any interleaving of the two is a sequence of inputs.
- `monitor.dfy` (module `PingMonitor`) holds the class `Monitor`:
  - its fields are the module-level `let` variables;
  - its methods update those fields in place, and each is proved to leave
    exactly the state a function on values gives:
    - `DnsLookupDone` (the DNS callback) and `OnLine` (the `line` handler)
      match `Aggregate.Step`;
    - `PushToGraph` (`push_to_graph`) matches `Graph.Gate` on the graph and
      the countdown;
    - `RecordResponse` and `RecordTimeout` (the two branches of the
      handler) match `Aggregate.Count`, and `RecordResponse` is built from
      `CountResponse` and `ClassifyResponse`;
    - `UpdateStreak` (the end of the handler) matches
      `Aggregate.AdvanceStreak`.
  - `OnLine` and `DnsLookupDone` keep the invariant `Valid()`. The other
    methods are steps inside `OnLine`, which restores it after the last
    one.

## Behaviour of index.js worth knowing

- **Decimation.** `lastGraphTick` starts at `GRAPH_TICK` (`index.js:53`).
  So of the first `k` recognised lines, `k / (GRAPH_TICK + 1)` rounded down
  reach the graph; the count is rounded down, not up. The first sample
  pushed is sample number `GRAPH_TICK + 1`. `Graph.SelectedCount` and
  `Aggregate.GraphAfterRun` state this. With `GRAPH_TICK = 0`, as shipped,
  every sample is pushed.
- **Initial DNS status.** `dnsLookupStatus` starts as the array
  `[false, undefined, undefined]` (`index.js:73`). The only test the
  classification makes of it is `=== false` (`index.js:112`), and the array
  fails that test. So until the first lookup
  completes, the host counts as reachable.
  `Probe.ReachabilityOverridesLatency` states this.
- **The timeout pattern.** `/.*[(timeout)|(failure)|(timed out)].*/`
  (`index.js:26`) is a single bracketed character class. It matches any
  line that contains one of 15 characters: `( ) | space t i m e o u f a l r d`.
  It does not look for the three words. As a result:
  - the banner line `Pinging google.com [...] with 32 bytes of data:`
    counts as a timeout (`Probe.HeaderLineCountsAsTimeout`);
  - a reply line also matches, and only the order of the two tests makes it
    a response (`Probe.ReplyLineMatchesBothPatterns`).

  The model keeps this behaviour, because it is what the program does.

## Model

| member | source | states |
|---|---|---|
| Probe.AfterLookup | index.js:76-86 | the DNS status after a lookup is never the initial value, and it is `true` exactly when there is no error and the address is truthy |
| Probe.Reachable | index.js:112 | the test `dnsLookupStatus === false` treats the initial array and `true` as reachable: only `false` is unreachable |
| Probe.Classify | index.js:112-133 | a timeout is offline with severity `error`; a response is online iff its time is at most 101 and the DNS status is not `false`; its severity is `error` iff time > 101, `warning` iff 100 < time <= 101, `ok` iff time <= 100; an unrecognised line gets no verdict |
| Probe.OnlineIsNeverError | index.js:112-126 | an online verdict never has severity `error` and needs a response with reachable DNS; conversely, a response with reachable DNS and a severity below `error` is online |
| Probe.ReachabilityOverridesLatency | index.js:73-126 | a fast response is offline after a failed lookup, and online before any lookup and after a successful one |
| Probe.TimeoutClassIsPatternText | index.js:26 | the set of characters the timeout pattern accepts is exactly the set of characters written between its brackets |
| Probe.TimeoutPatternMatches | index.js:26 | the unanchored timeout pattern matches a line iff some character of the line is in the class |
| Probe.LineEvent | index.js:90-139 | a response match always gives a response, even when the timeout pattern also matches; otherwise a timeout match gives a timeout; the line is skipped iff neither pattern matches |
| Probe.ReplyLineMatchesBothPatterns | index.js:25-30 | a Windows reply line carrying `time=12ms` matches the timeout pattern too, and is still handled as a response of 12 ms |
| Probe.HeaderLineCountsAsTimeout | index.js:26 | `Request timed out.` is a timeout, and so is the ping banner line |
| Probe.DigitsOnlyLineIsUnrecognized | index.js:26 | a bare dotted address and the empty line match neither pattern and are skipped |
| Graph.Clamp | index.js:61-65 | the value pushed is at most 300 and at most the latency, and it is either the latency or 300 |
| Graph.Pushed | index.js:57-65 | a push onto a buffer of at most 180 entries gives the last 180 entries of the buffer followed by the clamped value: FIFO eviction of the oldest entry; the length grows by one up to 180; every entry stays in [0, 300]; the newest entry is the clamped value |
| Graph.Gate | index.js:55-71 | at a countdown above 0 the graph is unchanged and the countdown drops by one; at 0 the countdown restarts at GRAPH_TICK and, for a buffer of at most 180 entries, the graph becomes the last 180 entries of the buffer followed by the clamped sample; the countdown stays in [0, GRAPH_TICK] and the buffer stays bounded |
| Graph.GateRun | index.js:55-71 | repeated calls of `push_to_graph` keep the countdown in [0, GRAPH_TICK] and the buffer bounded |
| Graph.GateRunKeepsRecent | index.js:55-71 | after any run of samples, the graph is the most recent 180 entries of the old graph followed by the clamped samples the gate let through, and the countdown stays in [0, GRAPH_TICK] |
| Graph.GateRunCountdown | index.js:53-71 | after `k` samples, the countdown is `(t - k) mod (GRAPH_TICK + 1)` for a start value `t`: it drops by one per sample and wraps from 0 to GRAPH_TICK |
| Graph.SelectedCount | index.js:53-71 | from a countdown of `t`, `(k + GRAPH_TICK - t) / (GRAPH_TICK + 1)` of `k` samples pass the gate; from the initial countdown that is `k / (GRAPH_TICK + 1)`, rounded down |
| Graph.NoDecimationKeepsLastSamples | index.js:9-71 | with `GRAPH_TICK = 0`, starting from an empty graph, the graph is the last 180 clamped samples, and holds exactly 180 once 180 have arrived |
| Graph.Variation | index.js:153 | the reference sum of neighbour distances is never negative, and is 0 for fewer than two samples |
| Graph.JitterReduce | index.js:153 | from any index `i >= 1`, the fold adds to its accumulator the sum of the neighbour distances from `a[i-1]` on |
| Graph.Jitter | index.js:153 | the whole `reduce`, started at 0, equals the sum of `abs(a[i] - a[i-1])` for i >= 1 (the reference `Variation`), so the jitter numerator is never negative and is 0 for fewer than two samples |
| Graph.JitterAfterPush | index.js:57-65 | a push adds the distance from the previous newest entry to the new one, and removes the distance between the two oldest entries when the oldest is evicted |
| Graph.JitterBound | index.js:153 | a bounded graph of `n` entries has a jitter numerator of at most `(n - 1) * 300` |
| Aggregate.Initial | index.js:45-73 | the start-up state satisfies the invariant, and its DNS status is the initial array, which counts as reachable |
| Aggregate.Step | index.js:76-149 | one input: a line leaves the DNS status alone and a lookup sets it to `true` or `false`; responses + timeouts and online + offline grow by the same amount, at most one; the maximum streak never decreases (each branch in detail: the four lemmas below) |
| Aggregate.Count | index.js:103-136 | a recognised line adds one to online + offline and one to responses + timeouts, and leaves the streak and the DNS status alone (in detail: `RecognizedLineEffect`) |
| Aggregate.AdvanceStreak | index.js:141-149 | the streak update changes only the two streak counters; the maximum never decreases, is at least the current streak, and changes only to equal it (in detail: `StreakEffect`) |
| Aggregate.UnrecognizedChangesNothing | index.js:137-138 | a line that matches neither pattern leaves every counter, the graph, the countdown, the streak and the DNS status unchanged |
| Aggregate.LookupOnlySetsDns | index.js:76-86 | a lookup completion changes only the DNS status |
| Aggregate.RecognizedLineEffect | index.js:103-136 | a response increments `responseNum` and adds its time to `latencySum`; a timeout increments `numTimeouts` and `numOffline`; each recognised line increments exactly one of `numOnline` and `numOffline`, as its verdict says, and passes its sample (300 for a timeout) through the gate |
| Aggregate.StreakEffect | index.js:141-149 | an online verdict extends the current streak by one and an offline one resets it to 0; the maximum never decreases, is at least the current streak, and changes only to equal it |
| Aggregate.StepPreservesValid | index.js:45-149 | each input keeps the invariant: the graph is bounded; the countdown is in [0, GRAPH_TICK]; online + offline = responses + timeouts; timeouts <= offline; current streak <= maximum; the latency sum is >= 0 |
| Aggregate.RunPreservesValid | index.js:45-149 | the same invariant holds after any sequence of inputs |
| Aggregate.RunCounts | index.js:103-136 | over any inputs: `responseNum` grows by the number of responses, `numTimeouts` by the number of timeouts, `latencySum` by the sum of the response times, and `numOnline + numOffline` by the number of recognised lines, which is responses plus timeouts |
| Aggregate.OnlinePlusOfflineIsRecognizedLines | index.js:112-133 | from start-up, `numOnline + numOffline` is the number of recognised lines and equals `responseNum + numTimeouts` |
| Aggregate.MaxStreakNeverDecreases | index.js:141-149 | `maxTimeOnline` after a prefix of the inputs is at most its value after all of them |
| Aggregate.RunGraphIsGateRun | index.js:108-136 | the graph and countdown after any inputs are the gate run over the samples of the recognised lines, in order |
| Aggregate.GraphAfterRun | index.js:53-71 | from start-up, the graph is the most recent 180 of the samples that passed the gate; that number is the count of recognised lines divided by `GRAPH_TICK + 1`, rounded down |
| Aggregate.StreakUpdateDescribes | index.js:141-149 | the streak update keeps "current = length of the final online run, maximum = length of the longest online run" true when one more verdict arrives |
| Aggregate.StreaksAreOnlineRuns | index.js:141-149 | from a zero streak, after any inputs, `currentTimeOnline` is the length of the final run of online verdicts and `maxTimeOnline` the length of the longest run |
| Aggregate.ThreeLineExample | index.js:89-149 | a successful lookup, then a 42 ms reply, a timeout and a 250 ms reply give 2 responses, 1 timeout, 1 online, 2 offline, sum 292, graph [42, 300, 250], current streak 0, maximum 1 |
| PingMonitor.Monitor.constructor | index.js:45-73 | all counters start at 0, the graph is empty, the countdown starts at GRAPH_TICK, the DNS status is the initial value, and the invariant holds |
| PingMonitor.Monitor.PushToGraph | index.js:55-71 | the in-place shift/push gives exactly the `Gate` result on the graph and countdown, and keeps both bounds |
| PingMonitor.Monitor.DnsLookupDone | index.js:76-86 | the callback gives exactly the `Step` of a lookup, keeps the invariant, and sets `true` iff there is no error and the address is truthy |
| PingMonitor.Monitor.CountResponse | index.js:103-108 | one more response, its time added to the sum, and the graph and countdown exactly as `Gate` gives them |
| PingMonitor.Monitor.ClassifyResponse | index.js:112-126 | returns the verdict `Classify` gives, and adds one to `numOnline` or `numOffline` as that verdict says |
| PingMonitor.Monitor.RecordResponse | index.js:97-126 | the response branch returns the verdict `Classify` gives and leaves the counter and graph update `Count` gives |
| PingMonitor.Monitor.RecordTimeout | index.js:127-136 | the timeout branch leaves the counter and graph update of an offline timeout with sample 300 |
| PingMonitor.Monitor.UpdateStreak | index.js:141-149 | the streak update gives `AdvanceStreak`; the maximum never decreases and stays at least the current streak |
| PingMonitor.Monitor.OnLine | index.js:89-149 | the handler gives exactly `Step` of the line's event, keeps the invariant, and reports the verdict `Classify` gives, or none when it returns early |

## Left out

- Reading standard input (`readline`, `index.js:38-43`): the handler takes the line as an argument. The response pattern is abstracted. The handler receives the time that `RE_PING_RESPONSE` captured (`Option<Latency>`), or none when it does not match. The timeout pattern is modelled exactly.
- The response pattern's other captures (`ip`, `bytes`, `ttl`, `index.js:98-101`): they are computed but never used.
- `parseFloat`: a captured time is taken to be a non-negative real. A capture that parses to `NaN`, such as one made only of dots, is not modelled.
- The Unix patterns (`index.js:22-23`): they are defined but never selected.
- `setInterval` and `dns.lookup` (`index.js:75-87`): the timing and the network are not modelled. Each completion of the callback is an input carrying whether it failed and whether the address is truthy.
- Rendering (`index.js:151-177`) is not modelled: `console`, `chalk`, `asciichart`, `toFixed`, and the divisions by `responseNum` and by `numOnline + numOffline`. This includes `Math.min`/`Math.max` of an empty graph. Of the rendering code, only the jitter numerator (the `reduce` of `index.js:153`) is modelled. The status line also tests `dnsLookupStatus` for truthiness (`index.js:163`), so it shows "Using DNS" for the initial array before any lookup completes. The colour `switch` (`index.js:165-177`) switches on `'off' || latencyLevel`, which is always `'off'`, so it prints nothing.
- `lastLatency` (`index.js:94, 106, 132`): a display string only.
- `latencyGraph`: a JavaScript array updated by `shift` and `push`, modelled as a sequence field that the methods reassign. No other code holds a reference to it, so no aliasing is lost.
- Floating point: latencies are exact reals, so `latencySum` has no rounding.
