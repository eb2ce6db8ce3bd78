/**
 * The status line the watchdog writes when a protocol's internal check fails
 * (PrintPingStatus, PrintHttpStatus and GetPassedText in CSCanary/Program.cs),
 * and its inverse: a parser that recovers the report from a line.
 */
module Report {
  import opened Wrappers

  /** The two protocols the watchdog checks. */
  datatype Protocol = Ping | Http

  /** What one status line says: when, for which protocol, and the two probe results. */
  datatype StatusReport = StatusReport(time: string, protocol: Protocol, internal: bool, external: bool)

  /** `sub` occurs in `s` starting at index `k`. */
  predicate OccursAt(s: string, sub: string, k: nat)
  {
    k + |sub| <= |s| && s[k .. k + |sub|] == sub
  }

  /** Reads a word written by PassedText back as the boolean it stands for. */
  function ParsePassedText(s: string): (r: Option<bool>)
    ensures r.Some? <==> s == "passed" || s == "failed"
    ensures r == Some(true) <==> s == "passed"
  {
    if s == "passed" then Some(true)
    else if s == "failed" then Some(false)
    else None
  }

  /** GetPassedText: a connection result as the word the log uses for it. */
  function PassedText(canConnect: bool): (r: string)
    ensures r == "passed" || r == "failed"
    ensures canConnect <==> r == "passed"
    ensures ParsePassedText(r) == Some(canConnect)
  {
    if canConnect then "passed" else "failed"
  }

  /** The text between the timestamp and the internal result, as each Print*Status writes it. */
  function Lead(p: Protocol): (r: string)
    ensures |r| == 20
  {
    match p
    case Ping => " - [PING] Internal: "
    case Http => " - [HTTP] Internal: "
  }

  function ParseLead(s: string): (r: Option<Protocol>)
    ensures r.Some? ==> Lead(r.value) == s
  {
    if s == Lead(Ping) then Some(Ping)
    else if s == Lead(Http) then Some(Http)
    else None
  }

  /** The text between the internal and the external result. */
  const Middle: string := " | External: "

  /**
   * The fixed-length part of a status line after the timestamp:
   * |Lead| + |"passed"| + |Middle| + |"passed"|.
   */
  const SuffixLength: nat := 45

  /** The line PrintPingStatus / PrintHttpStatus write to the console and the log. */
  function StatusLine(r: StatusReport): (line: string)
    ensures |line| == |r.time| + SuffixLength
    ensures line[.. |r.time|] == r.time
  {
    r.time + Lead(r.protocol) + PassedText(r.internal) + Middle + PassedText(r.external)
  }

  /**
   * Recovers the report from a status line. The part after the timestamp has
   * a fixed length, so the timestamp is whatever precedes it, whatever
   * characters it holds.
   */
  function ParseStatusLine(line: string): (r: Option<StatusReport>)
    ensures r.Some? ==> StatusLine(r.value) == line
  {
    if |line| < SuffixLength then None
    else
      var n := |line| - SuffixLength;
      var protocol := ParseLead(line[n .. n + 20]);
      var internal := ParsePassedText(line[n + 20 .. n + 26]);
      var external := ParsePassedText(line[n + 39 ..]);
      if protocol.Some? && internal.Some? && line[n + 26 .. n + 39] == Middle && external.Some? then
        var r := StatusReport(line[.. n], protocol.value, internal.value, external.value);
        assert StatusLine(r) == line by {
          Split5(line, n, n + 20, n + 26, n + 39);
        }
        Some(r)
      else None
  }

  /** A sequence is the concatenation of its slices at four cut points. */
  lemma Split5(s: string, i: nat, j: nat, k: nat, l: nat)
    requires i <= j <= k <= l <= |s|
    ensures s == s[.. i] + s[i .. j] + s[j .. k] + s[k .. l] + s[l ..]
  {
  }

  /** Slicing a five-part concatenation at the part boundaries gives the parts back. */
  lemma Slices5(a: string, b: string, c: string, d: string, e: string)
    ensures var s := a + b + c + d + e;
      var i, j, k, l := |a|, |a| + |b|, |a| + |b| + |c|, |a| + |b| + |c| + |d|;
      s[.. i] == a && s[i .. j] == b && s[j .. k] == c && s[k .. l] == d && s[l ..] == e
  {
  }

  /** Every status line parses back to the report it was built from. */
  lemma {:induction false} ParseStatusLineRoundTrip(r: StatusReport)
    ensures ParseStatusLine(StatusLine(r)) == Some(r)
  {
    Slices5(r.time, Lead(r.protocol), PassedText(r.internal), Middle, PassedText(r.external));
    match r.protocol
    case Ping =>
    case Http => assert Lead(Http) != Lead(Ping) by { assert Lead(Http)[4] != Lead(Ping)[4]; }
  }

  /** Two different reports never produce the same line. */
  lemma StatusLineInjective(a: StatusReport, b: StatusReport)
    ensures StatusLine(a) == StatusLine(b) ==> a == b
  {
    ParseStatusLineRoundTrip(a);
    ParseStatusLineRoundTrip(b);
  }

  /** The PING line is the literal format of PrintPingStatus. */
  lemma PingLineFormat(time: string, internal: bool, external: bool)
    ensures StatusLine(StatusReport(time, Ping, internal, external))
         == "" + time + " - [PING] Internal: " + PassedText(internal) + " | External: " + PassedText(external)
  {
  }

  /** The HTTP line is the literal format of PrintHttpStatus. */
  lemma HttpLineFormat(time: string, internal: bool, external: bool)
    ensures StatusLine(StatusReport(time, Http, internal, external))
         == "" + time + " - [HTTP] Internal: " + PassedText(internal) + " | External: " + PassedText(external)
  {
  }

  /** A line that reports a failed internal check. */
  predicate IsFailureLine(line: string)
  {
    var r := ParseStatusLine(line);
    r.Some? && !r.value.internal
  }

  /** A line built from a report is a failure line exactly when the internal check failed. */
  lemma FailureLineIff(r: StatusReport)
    ensures IsFailureLine(StatusLine(r)) <==> !r.internal
  {
    ParseStatusLineRoundTrip(r);
  }

  /** A failure line carries the text "Internal: failed", right after the protocol label. */
  lemma FailureLineSaysInternalFailed(line: string)
    requires IsFailureLine(line)
    ensures OccursAt(line, "Internal: failed", |line| - SuffixLength + 10)
  {
    var r := ParseStatusLine(line).value;
    var n := |r.time|;
    Slices5(r.time, Lead(r.protocol), PassedText(r.internal), Middle, PassedText(r.external));
    assert line[n + 10 .. n + 20] == "Internal: " by {
      assert line[n + 10 .. n + 20] == Lead(r.protocol)[10 ..];
    }
    assert line[n + 10 .. n + 26] == line[n + 10 .. n + 20] + line[n + 20 .. n + 26];
  }
}
