/**
 * The check-evaluate-report cycle of the watchdog (CSCanary/Program.cs).
 *
 * Each protocol has an internal and an external target. A cycle probes the
 * internal target; only when that fails does it probe the external target and
 * report both results, as one line written to the console and appended to the
 * log. Probes are oracles passed in by the caller, the timestamp is a string
 * passed in, and the console, the log file and the probes made are recorded as
 * sequences.
 */
module CSCanary {
  import opened Wrappers
  import opened Report
  import opened Interval

  /** Which of a protocol's two targets a probe was aimed at. */
  datatype Role = Internal | External

  /** The settings LoadConfig reads from config.xml. */
  datatype Config = Config(
    internalURL: string, externalURL: string,
    internalIP: string, externalIP: string,
    pingCheckIntervalSeconds: Int32, httpCheckIntervalSeconds: Int32)

  /** A protocol's two targets. */
  datatype Targets = Targets(internal: string, external: string)

  /** Ping checks the two IP addresses, HTTP the two URLs. */
  function TargetsOf(c: Config, p: Protocol): (t: Targets)
    ensures p == Ping ==> t.internal == c.internalIP && t.external == c.externalIP
    ensures p == Http ==> t.internal == c.internalURL && t.external == c.externalURL
  {
    match p
    case Ping => Targets(c.internalIP, c.externalIP)
    case Http => Targets(c.internalURL, c.externalURL)
  }

  /** One call of IsPingable or IsContactable, with the answer it gave. */
  datatype ProbeCall = ProbeCall(protocol: Protocol, role: Role, address: string, ok: bool)

  /** What one cycle does: the probes it makes, in order, and the lines it reports. */
  datatype CycleOutcome = CycleOutcome(calls: seq<ProbeCall>, lines: seq<string>)

  /**
   * One cycle of CheckPing or CheckHttp, given the probe oracle and the time
   * the report would carry.
   */
  function Cycle(p: Protocol, t: Targets, probe: string -> bool, time: string): (o: CycleOutcome)
    // the internal target is always probed, and first
    ensures 1 <= |o.calls| <= 2 && o.calls[0] == ProbeCall(p, Internal, t.internal, probe(t.internal))
    // the external target is probed exactly when the internal probe failed, and after it
    ensures |o.calls| == 2 <==> !probe(t.internal)
    ensures |o.calls| == 2 ==> o.calls[1] == ProbeCall(p, External, t.external, probe(t.external))
    // silence on success, exactly one line on failure
    ensures o.lines == [] <==> probe(t.internal)
    ensures |o.lines| == |o.calls| - 1
    // the line reports this protocol, this time, a failed internal probe and the external result
    ensures forall line <- o.lines ::
      ParseStatusLine(line) == Some(StatusReport(time, p, false, probe(t.external)))
  {
    var canInternal := probe(t.internal);
    if canInternal then
      CycleOutcome([ProbeCall(p, Internal, t.internal, true)], [])
    else
      var canExternal := probe(t.external);
      var report := StatusReport(time, p, false, canExternal);
      ParseStatusLineRoundTrip(report);
      CycleOutcome(
        [ProbeCall(p, Internal, t.internal, false), ProbeCall(p, External, t.external, canExternal)],
        [StatusLine(report)])
  }

  /** Number of internal probes in a trace that failed. */
  function FailedInternalProbes(trace: seq<ProbeCall>): nat
  {
    if trace == [] then 0
    else (if trace[0].role == Internal && !trace[0].ok then 1 else 0) + FailedInternalProbes(trace[1 ..])
  }

  lemma {:induction false} FailedInternalProbesAppend(a: seq<ProbeCall>, b: seq<ProbeCall>)
    ensures FailedInternalProbes(a + b) == FailedInternalProbes(a) + FailedInternalProbes(b)
  {
    if a == [] {
      assert a + b == b;
    } else {
      assert (a + b)[0] == a[0];
      assert (a + b)[1 ..] == a[1 ..] + b;
      FailedInternalProbesAppend(a[1 ..], b);
    }
  }

  /**
   * The probe order a run of whole cycles leaves: every external probe comes
   * right after a failed internal probe of the same protocol, and every failed
   * internal probe is followed by that external probe.
   */
  ghost predicate FallbackOrder(trace: seq<ProbeCall>)
  {
    (forall k | 0 <= k < |trace| && trace[k].role == External ::
      0 < k && trace[k - 1].role == Internal && !trace[k - 1].ok
      && trace[k - 1].protocol == trace[k].protocol)
    && (forall k | 0 <= k < |trace| && trace[k].role == Internal && !trace[k].ok ::
      k + 1 < |trace| && trace[k + 1].role == External && trace[k + 1].protocol == trace[k].protocol)
  }

  /**
   * What holds of the log, the console and the probe trace after any number of
   * cycles: lines already in the log are kept, the console shows exactly the
   * lines appended, each of them reports a failed internal probe, there is one
   * per failed internal probe, and probes follow the fallback order.
   */
  ghost predicate Consistent(initialLog: seq<string>, log: seq<string>, console: seq<string>, trace: seq<ProbeCall>)
  {
    |initialLog| <= |log| && log[.. |initialLog|] == initialLog
    && console == log[|initialLog| ..]
    && (forall k | |initialLog| <= k < |log| :: IsFailureLine(log[k]))
    && |log| - |initialLog| == FailedInternalProbes(trace)
    && FallbackOrder(trace)
  }

  /** A whole cycle keeps the log, the console and the trace consistent. */
  lemma CyclePreservesConsistent(
    initialLog: seq<string>, log: seq<string>, console: seq<string>, trace: seq<ProbeCall>,
    p: Protocol, t: Targets, probe: string -> bool, time: string)
    requires Consistent(initialLog, log, console, trace)
    ensures var o := Cycle(p, t, probe, time);
      Consistent(initialLog, log + o.lines, console + o.lines, trace + o.calls)
  {
    var o := Cycle(p, t, probe, time);
    var log', trace' := log + o.lines, trace + o.calls;
    FailedInternalProbesAppend(trace, o.calls);
    if o.lines != [] {
      assert FailedInternalProbes(o.calls) == 1 by {
        var rest := o.calls[1 ..];
        assert rest[0].role == External && rest[1 ..] == [];
        assert FailedInternalProbes(rest) == 0;
      }
      assert IsFailureLine(log'[|log|]);
    } else {
      assert FailedInternalProbes(o.calls) == 0 by {
        assert o.calls[1 ..] == [];
      }
    }
    assert log'[.. |initialLog|] == log[.. |initialLog|];
    assert log'[|initialLog| ..] == log[|initialLog| ..] + o.lines;
    forall k | |initialLog| <= k < |log'|
      ensures IsFailureLine(log'[k])
    {
      if k < |log| { assert log'[k] == log[k]; }
    }
    forall k | 0 <= k < |trace'| && trace'[k].role == External
      ensures 0 < k && trace'[k - 1].role == Internal && !trace'[k - 1].ok
        && trace'[k - 1].protocol == trace'[k].protocol
    {
      if k < |trace| { assert trace'[k] == trace[k] && trace'[k - 1] == trace[k - 1]; }
    }
    forall k | 0 <= k < |trace'| && trace'[k].role == Internal && !trace'[k].ok
      ensures k + 1 < |trace'| && trace'[k + 1].role == External
        && trace'[k + 1].protocol == trace'[k].protocol
    {
      if k < |trace| { assert trace'[k] == trace[k] && trace'[k + 1] == trace[k + 1]; }
    }
  }

  /** The program's state: its configuration, the log file, the console and the probes made so far. */
  class Program {
    const config: Config
    /** The timer intervals Main derives from the configuration, wrap-around included. */
    const pingIntervalMillis: Int32
    const httpIntervalMillis: Int32
    /** The log file's lines before this process started; the file is only ever appended to. */
    ghost const initialLog: seq<string>
    var log: seq<string>
    var console: seq<string>
    var trace: seq<ProbeCall>

    ghost predicate Valid()
      reads this
    {
      Consistent(initialLog, log, console, trace)
    }

    constructor (config: Config, existingLog: seq<string>)
      ensures Valid()
      ensures this.config == config && log == existingLog && console == [] && trace == []
      ensures pingIntervalMillis == SecondsToMillisAsWritten(config.pingCheckIntervalSeconds)
      ensures httpIntervalMillis == SecondsToMillisAsWritten(config.httpCheckIntervalSeconds)
      // where the product fits, the intervals are the intended ones
      ensures SecondsToMillis(config.pingCheckIntervalSeconds).Some? ==>
        pingIntervalMillis == SecondsToMillis(config.pingCheckIntervalSeconds).value
      ensures SecondsToMillis(config.httpCheckIntervalSeconds).Some? ==>
        httpIntervalMillis == SecondsToMillis(config.httpCheckIntervalSeconds).value
    {
      this.config := config;
      pingIntervalMillis := SecondsToMillisAsWritten(config.pingCheckIntervalSeconds);
      httpIntervalMillis := SecondsToMillisAsWritten(config.httpCheckIntervalSeconds);
      initialLog := existingLog;
      log := existingLog;
      console := [];
      trace := [];
    }

    /** IsPingable / IsContactable: asks the oracle and records the call. */
    method Probe(p: Protocol, role: Role, address: string, probe: string -> bool) returns (ok: bool)
      modifies this`trace
      ensures ok == probe(address)
      ensures trace == old(trace) + [ProbeCall(p, role, address, ok)]
    {
      ok := probe(address);
      trace := trace + [ProbeCall(p, role, address, ok)];
    }

    /** Appends one line to the log; earlier lines are left as they were. */
    method LogMessage(message: string)
      modifies this`log
      ensures log == old(log) + [message]
      ensures log[.. |old(log)|] == old(log) && log[|old(log)|] == message
    {
      log := log + [message];
    }

    /** Writes the PING status line to the console and appends it to the log. */
    method PrintPingStatus(canPingInternal: bool, canPingExternal: bool, time: string)
      modifies this`console, this`log
      ensures var line := StatusLine(StatusReport(time, Ping, canPingInternal, canPingExternal));
        console == old(console) + [line] && log == old(log) + [line]
    {
      var message := StatusLine(StatusReport(time, Ping, canPingInternal, canPingExternal));
      console := console + [message];
      LogMessage(message);
    }

    /** Writes the HTTP status line to the console and appends it to the log. */
    method PrintHttpStatus(canHttpInternal: bool, canHttpExternal: bool, time: string)
      modifies this`console, this`log
      ensures var line := StatusLine(StatusReport(time, Http, canHttpInternal, canHttpExternal));
        console == old(console) + [line] && log == old(log) + [line]
    {
      var message := StatusLine(StatusReport(time, Http, canHttpInternal, canHttpExternal));
      console := console + [message];
      LogMessage(message);
    }

    /** One ping cycle: probe the internal IP, and only if that fails the external IP, and report. */
    method CheckPing(pingable: string -> bool, time: string)
      requires Valid()
      modifies this`trace, this`console, this`log
      ensures Valid()
      ensures var o := Cycle(Ping, TargetsOf(config, Ping), pingable, time);
        trace == old(trace) + o.calls && log == old(log) + o.lines && console == old(console) + o.lines
    {
      ghost var o := Cycle(Ping, TargetsOf(config, Ping), pingable, time);
      CyclePreservesConsistent(initialLog, log, console, trace, Ping, TargetsOf(config, Ping), pingable, time);
      var canPingInternal := Probe(Ping, Internal, config.internalIP, pingable);
      if !canPingInternal {
        var canPingExternal := Probe(Ping, External, config.externalIP, pingable);
        PrintPingStatus(canPingInternal, canPingExternal, time);
      }
      assert trace == old(trace) + o.calls && log == old(log) + o.lines && console == old(console) + o.lines;
    }

    /** One HTTP cycle: probe the internal URL, and only if that fails the external URL, and report. */
    method CheckHttp(contactable: string -> bool, time: string)
      requires Valid()
      modifies this`trace, this`console, this`log
      ensures Valid()
      ensures var o := Cycle(Http, TargetsOf(config, Http), contactable, time);
        trace == old(trace) + o.calls && log == old(log) + o.lines && console == old(console) + o.lines
    {
      ghost var o := Cycle(Http, TargetsOf(config, Http), contactable, time);
      CyclePreservesConsistent(initialLog, log, console, trace, Http, TargetsOf(config, Http), contactable, time);
      var canHttpInternal := Probe(Http, Internal, config.internalURL, contactable);
      if !canHttpInternal {
        var canHttpExternal := Probe(Http, External, config.externalURL, contactable);
        PrintHttpStatus(canHttpInternal, canHttpExternal, time);
      }
      assert trace == old(trace) + o.calls && log == old(log) + o.lines && console == old(console) + o.lines;
    }

    /** The two checks Main runs at startup, before the timers first fire: ping, then HTTP. */
    method RunStartupChecks(pingable: string -> bool, contactable: string -> bool, pingTime: string, httpTime: string)
      requires Valid()
      modifies this`trace, this`console, this`log
      ensures Valid()
      ensures var ping := Cycle(Ping, TargetsOf(config, Ping), pingable, pingTime);
        var http := Cycle(Http, TargetsOf(config, Http), contactable, httpTime);
        trace == old(trace) + ping.calls + http.calls
        && log == old(log) + ping.lines + http.lines
        && console == old(console) + ping.lines + http.lines
    {
      CheckPing(pingable, pingTime);
      CheckHttp(contactable, httpTime);
    }
  }
}
