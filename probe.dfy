/** Events extracted from one line of ping output, the DNS reachability
    signal, and the classification of an event into an online verdict and
    a severity level (index.js:19-30, 73-86, 89-139). */
module Probe {

  /** A round-trip time in milliseconds, as `parseFloat` reads it from the
      `time=` capture; the capture is made of digits and dots only, so a
      well-formed value is never negative. */
  type Latency = r: real | 0.0 <= r

  /** The literal 100 that separates `ok` from `warning` (index.js:122). */
  const LATENCY_WARN: real := 100.0
  /** Minimum latency considered unusable (index.js:20). */
  const TIMEOUT_LATENCY_MIN: real := 101.0

  datatype Option<T> = None | Some(value: T)

  /** What one input line means to the handler: a response with its time,
      a timeout, or a line that is skipped. */
  datatype Event = Response(time: Latency) | Timeout | Unrecognized

  /** The value of `dnsLookupStatus`. It starts as an array literal
      (`Pending`), which is not `=== false`; the DNS callback then sets it to
      `true` (`Resolved`) or `false` (`Unresolved`). */
  datatype DnsStatus = Pending | Resolved | Unresolved

  datatype Severity = Ok | Warning | Error

  /** The handler's two locals `isOnline` and `latencyLevel`. */
  datatype Verdict = Verdict(online: bool, level: Severity)

  /** The DNS callback: it sets `true`, then `false` on an error, then
      `false` again when the address is falsy, so the last assignment that
      runs decides. */
  function AfterLookup(failed: bool, hasAddress: bool): (d: DnsStatus)
    ensures d != Pending
    ensures d == Resolved <==> !failed && hasAddress
  {
    if failed || !hasAddress then Unresolved else Resolved
  }

  /** The test `dnsLookupStatus === false` fails for `true` and for the
      initial array, so only a failed lookup makes the host unreachable. */
  predicate Reachable(d: DnsStatus)
    ensures Reachable(d) <==> d == Pending || d == Resolved
  {
    d != Unresolved
  }

  /** The verdict shown for an event, or `None` when the handler returns
      early without classifying. */
  function Classify(e: Event, dns: DnsStatus): (v: Option<Verdict>)
    ensures v.None? <==> e.Unrecognized?
    ensures e.Timeout? ==> v == Some(Verdict(false, Error))
    ensures e.Response? ==> (v.value.online <==> e.time <= TIMEOUT_LATENCY_MIN && dns != Unresolved)
    ensures e.Response? ==> (v.value.level == Error <==> TIMEOUT_LATENCY_MIN < e.time)
    ensures e.Response? ==> (v.value.level == Warning <==> LATENCY_WARN < e.time <= TIMEOUT_LATENCY_MIN)
    ensures e.Response? ==> (v.value.level == Ok <==> e.time <= LATENCY_WARN)
  {
    match e
    case Unrecognized => None
    case Timeout => Some(Verdict(false, Error))
    case Response(time) =>
      var online := !(time > TIMEOUT_LATENCY_MIN || !Reachable(dns));
      var level := if time > TIMEOUT_LATENCY_MIN then Error
                   else if time > LATENCY_WARN then Warning
                   else Ok;
      Some(Verdict(online, level))
  }

  /** An event is classified online only with a severity below `error`, and
      an online verdict needs a reachable DNS signal. */
  lemma OnlineIsNeverError(e: Event, dns: DnsStatus)
    requires !e.Unrecognized?
    ensures Classify(e, dns).value.online ==> Classify(e, dns).value.level != Error
    ensures Classify(e, dns).value.online ==> e.Response? && Reachable(dns)
    ensures e.Response? && Reachable(dns) && Classify(e, dns).value.level != Error ==> Classify(e, dns).value.online
  {
  }

  /** A fast response with a failed DNS lookup is offline; before the first
      lookup completes, the same response is online. */
  lemma ReachabilityOverridesLatency(t: Latency)
    requires t <= LATENCY_WARN
    ensures Classify(Response(t), Unresolved) == Some(Verdict(false, Ok))
    ensures Classify(Response(t), Pending) == Some(Verdict(true, Ok))
    ensures Classify(Response(t), Resolved) == Some(Verdict(true, Ok))
  {
  }

  // The body of the active timeout pattern (index.js:26, selected at
  // index.js:30): `.*`, then this text inside one pair of brackets, then
  // `.*`. The brackets make it a single character class, so the pattern
  // matches any one character of this text, not the three words.
  const TIMEOUT_CLASS_TEXT: string := "(timeout)|(failure)|(timed out)"

  /** The fifteen distinct characters of that text. */
  const TIMEOUT_CLASS: set<char> := {'(', ')', '|', ' ', 't', 'i', 'm', 'e', 'o', 'u', 'f', 'a', 'l', 'r', 'd'}

  /** The class is exactly the set of characters written between the
      brackets of the pattern. */
  lemma TimeoutClassIsPatternText()
    ensures TIMEOUT_CLASS == set c | c in TIMEOUT_CLASS_TEXT
  {
    var t := TIMEOUT_CLASS_TEXT;
    assert t[0] == '(' && t[1] == 't' && t[2] == 'i' && t[3] == 'm' && t[4] == 'e';
    assert t[5] == 'o' && t[6] == 'u' && t[8] == ')' && t[9] == '|' && t[11] == 'f';
    assert t[12] == 'a' && t[14] == 'l' && t[16] == 'r' && t[25] == 'd' && t[26] == ' ';
  }

  /** `RE_TIMEOUT_RESPONSE.exec(line)` is truthy. Both `.*` may match the
      empty string and the pattern is not anchored, so it matches exactly
      when some character of the line is in the class. */
  function TimeoutPatternMatches(line: string): (m: bool)
    ensures m <==> exists i :: 0 <= i < |line| && line[i] in TIMEOUT_CLASS
  {
    if line == [] then false
    else if line[0] in TIMEOUT_CLASS then true
    else
      var rest := TimeoutPatternMatches(line[1..]);
      assert forall i :: 1 <= i < |line| ==> line[i] == line[1..][i - 1];
      rest
  }

  /** The line handler's dispatch: the response match is tested first and
      wins even when the timeout pattern also matches (index.js:97, 127).
      `responseMatch` is the time captured by the response pattern, or
      `None` when it does not match. */
  function LineEvent(responseMatch: Option<Latency>, line: string): (e: Event)
    ensures responseMatch.Some? ==> e == Response(responseMatch.value)
    ensures responseMatch.None? && TimeoutPatternMatches(line) ==> e == Timeout
    ensures e == Unrecognized <==> responseMatch.None? && !(exists i :: 0 <= i < |line| && line[i] in TIMEOUT_CLASS)
  {
    if responseMatch.Some? then Response(responseMatch.value)
    else if TimeoutPatternMatches(line) then Timeout
    else Unrecognized
  }

  /** A reply line as the Windows ping tool prints it. */
  const REPLY_LINE: string := "Reply from 8.8.8.8: " + "bytes=32 time=12ms TTL=117"
  /** The header line the Windows ping tool prints before the first reply. */
  const HEADER_LINE: string := "Pinging google.com " + "[142.250.72.14] with 32 bytes of data:"

  /** A reply line matches the timeout pattern as well, so only the order
      of the two tests makes it a response, with the 12 ms that the response
      pattern captures from `time=12ms`. */
  lemma ReplyLineMatchesBothPatterns()
    ensures TimeoutPatternMatches(REPLY_LINE)
    ensures LineEvent(Some(12.0), REPLY_LINE) == Response(12.0)
  {
    assert REPLY_LINE[1] == 'e';
  }

  /** The real timeout line is recognised, and so is the header line. */
  lemma HeaderLineCountsAsTimeout()
    ensures LineEvent(None, "Request timed out.") == Timeout
    ensures LineEvent(None, HEADER_LINE) == Timeout
  {
    var timedOut := "Request timed out.";
    assert timedOut[1] == 'e';
    assert HEADER_LINE[1] == 'i';
  }

  /** A line without characters of the class, such as a bare address, and
      the empty line are skipped. */
  lemma DigitsOnlyLineIsUnrecognized()
    ensures LineEvent(None, "8.8.8.8") == Unrecognized
    ensures LineEvent(None, "") == Unrecognized
  {
    var line := "8.8.8.8";
    assert '8' !in TIMEOUT_CLASS && '.' !in TIMEOUT_CLASS;
    forall i | 0 <= i < |line| ensures line[i] !in TIMEOUT_CLASS {
      assert line[i] == '8' || line[i] == '.';
    }
  }
}
