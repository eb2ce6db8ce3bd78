# CSCanary check-evaluate-report cycle, in Dafny

CSCanary is a watchdog. For each of two protocols, ICMP ping and HTTP, it has an
internal and an external target. A timer runs one cycle per protocol:

- It probes the internal target.
- If that probe fails, it probes the external target.
- It then reports both results in one line of the form
  `<time> - [PING|HTTP] Internal: <passed|failed> | External: <passed|failed>`.
- It writes that line to the console and appends it to `log.txt`.
- A successful internal probe produces no output at all.

This project models that cycle and proves its properties:

- `Report.dfy` (module `Report`) holds `GetPassedText` and the status line. It also holds a parser that
  recovers the report from a line. That parser is the line format's inverse.
- `Interval.dfy` (module `Interval`) holds the conversion of the configured seconds into timer
  milliseconds in `Main`. It models C#'s unchecked 32-bit `int` multiplication.
- `CSCanary.dfy` (module `CSCanary`) holds the class `Program`. Its fields are:
  - the configuration;
  - the log file, as a sequence of lines;
  - the console, as a sequence of lines;
  - a trace of every probe made.

  Its methods `CheckPing`, `CheckHttp`, `PrintPingStatus`, `PrintHttpStatus` and `LogMessage`
  change that state the way the C# methods do. Each check method is proved against the
  specification function `Cycle`. A class invariant holds after any number of cycles:
  - the earlier log lines are kept;
  - the console shows exactly the appended lines;
  - every appended line reports a failed internal probe;
  - there is one line per failed internal probe;
  - every external probe directly follows a failed internal probe of the same protocol.
- `Wrappers.dfy` holds an `Option` type.

The probes `IsPingable` and `IsContactable` are oracles. Each one is a function from address to
`bool` that the caller passes in. The timestamp from `GetCurrentTime` is also a string the caller
passes in.

## Model

| member | source | states |
|---|---|---|
| `Report.PassedText` | CSCanary/Program.cs:220-223 | The result is `"passed"` or `"failed"`. It is `"passed"` exactly when the connection succeeded. `ParsePassedText` reads it back to the same boolean. |
| `Report.ParsePassedText` | CSCanary/Program.cs:220-223 | Inverse of `GetPassedText`. It succeeds exactly on the two words, and `"passed"` reads as `true`. |
| `Report.StatusLine` | CSCanary/Program.cs:164 | The status line is 45 characters longer than its timestamp, whatever the protocol and results. It starts with the timestamp unchanged. |
| `Report.ParseStatusLine` | CSCanary/Program.cs:152 | Any line the parser accepts is exactly the status line of the report it returns. |
| `Report.ParseStatusLineRoundTrip` | CSCanary/Program.cs:164 | Every status line parses back to the time, protocol and both results it was built from, for any timestamp text. |
| `Report.StatusLineInjective` | CSCanary/Program.cs:148-169 | Two different reports never give the same line. So a log line determines the time, protocol and both results. |
| `Report.PingLineFormat` | CSCanary/Program.cs:164 | The PING line is the literal concatenation of line 164: the empty string, the time, the text before the internal result with `[PING]`, `GetPassedText(i)`, the text before the external result, and `GetPassedText(e)`. |
| `Report.HttpLineFormat` | CSCanary/Program.cs:152 | The HTTP line is the literal concatenation of line 152, the same as the PING line but with `[HTTP]`. |
| `Report.FailureLineIff` | CSCanary/Program.cs:120-126 | A status line is a failure line exactly when its internal result is `false`. |
| `Report.FailureLineSaysInternalFailed` | CSCanary/Program.cs:137-143 | Every failure line contains the text `Internal: failed`, right after the protocol label. |
| `Interval.Wrap` | CSCanary/Program.cs:41-42 | The result is a 32-bit value congruent to its input modulo 2^32. It is the input itself when the input fits. |
| `Interval.SecondsToMillisAsWritten` | CSCanary/Program.cs:40-42 | The source's `seconds * 1000` in unchecked `int` arithmetic. It equals the true product when the product fits, and is congruent to it modulo 2^32 otherwise. |
| `Interval.IntervalOverflowExample` | CSCanary/Program.cs:40-42 | A configured 4294968 seconds becomes a 704 ms timer interval, which is not 4294968 × 1000. |
| `Interval.AsWrittenWrongOnOverflow` | CSCanary/Program.cs:41-42 | Whenever the product leaves the `int` range, the computed interval differs from seconds × 1000. |
| `Interval.SecondsToMillis` | CSCanary/Program.cs:40-42 | Corrected conversion. It gives an interval exactly when seconds × 1000 fits in an `int`. That interval is a whole number of seconds, equal to the configured seconds, and agrees with the source where the source is right. |
| `CSCanary.TargetsOf` | CSCanary/Program.cs:114-145 | The ping cycle probes `internalIP` and `externalIP`. The HTTP cycle probes `internalURL` and `externalURL`. |
| `CSCanary.Cycle` | CSCanary/Program.cs:114-145 | The internal target is probed first. The external target is probed exactly when the internal probe failed, and only once, after it. There are no lines on success and exactly one line on failure. That line parses to this cycle's time, its protocol, internal `failed` and the external result. |
| `CSCanary.FailedInternalProbesAppend` | CSCanary/Program.cs:117-143 | The count of failed internal probes is additive over concatenated traces. |
| `CSCanary.CyclePreservesConsistent` | CSCanary/Program.cs:114-178 | After one more whole cycle these all still hold: the earlier log is unchanged, the console equals the appended lines, every appended line is a failure line, there is one line per failed internal probe, and external probes come only directly after a failed internal probe. |
| `CSCanary.Program.constructor` | CSCanary/Program.cs:20-42 | The program starts with the given configuration, the existing log file, an empty console and no probes made. Its timer intervals are the configured seconds × 1000 as lines 41-42 compute them, wrap-around included, and equal the intended product whenever that fits in an `int`. The invariant holds. |
| `CSCanary.Program.Probe` | CSCanary/Program.cs:187-217 | A probe returns the oracle's answer for the address. It appends exactly that call to the trace. |
| `CSCanary.Program.LogMessage` | CSCanary/Program.cs:172-178 | The new log is the old log followed by the message. Earlier lines are unchanged. |
| `CSCanary.Program.PrintPingStatus` | CSCanary/Program.cs:160-169 | It appends the PING status line to the console and the same line to the log, and nothing else. |
| `CSCanary.Program.PrintHttpStatus` | CSCanary/Program.cs:148-157 | It appends the HTTP status line to the console and the same line to the log, and nothing else. |
| `CSCanary.Program.CheckPing` | CSCanary/Program.cs:114-128 | The trace, the log and the console grow by exactly the probes and lines of `Cycle` for ping. The class invariant is kept. |
| `CSCanary.Program.CheckHttp` | CSCanary/Program.cs:131-145 | The same as `CheckPing`, for HTTP. |
| `CSCanary.Program.RunStartupChecks` | CSCanary/Program.cs:56-58 | The startup checks run one ping cycle and then one HTTP cycle, in that order. The invariant is kept. |

## Left out

- Timer scheduling (`System.Timers.Timer`) and the `while (true);` idle loop in `Main` (lines 44-54 and 61) are concurrency and liveness, not stated. The two timers may fire concurrently. The model treats each cycle as one atomic step, so it does not capture lines from concurrent cycles interleaving in the log.
- The start-up banner written by `Main` (lines 36-37) is not modelled. The console sequence therefore holds only status lines.
- `LoadConfig` (lines 65-111) is not modelled, because it is XML parsing and `Environment.Exit`. The configuration is a parameter of the constructor.
- `GetCurrentTime` (lines 181-184) is not modelled, because it reads the clock and formats the time in .NET. The timestamp is an opaque string parameter. Its `yyyy-M-d hh:mm` format and its 12-hour clock without AM/PM are therefore not modelled.
- The bodies of `IsPingable` and `IsContactable` (lines 187-217) are network library calls. The model replaces each with an oracle `string -> bool` given per cycle. This has four consequences:
  - `Ping.Send` exceptions that `IsPingable` does not catch are not modelled.
  - Exceptions that `IsContactable` does not catch are not modelled. `catch (WebException)` at line 198 catches none of them. `WebRequest.Create` at line 195 can throw `UriFormatException` or `NotSupportedException`. The `(HttpWebRequest)` cast can throw `InvalidCastException` for a scheme other than HTTP.
  - In .NET, `GetResponse` throws `WebException` for an HTTP error status, so `IsContactable` reports `false` for a 4xx/5xx answer. The model leaves that to the oracle.
  - Within one cycle, an oracle gives the same answer for the same address.
- The file handle, `File.AppendText` failures and console I/O are not modelled. Both outputs are sequences of lines.
- The `Timer.Interval` setter's own checks are not modelled. It rejects a value that is not positive.
- E-mail notification and alert throttling are not modelled, because `CSCanary/Program.cs` has none.

## Findings

| source | as written | input that shows it | evidently intended | confidence | as-written member | corrected member |
|---|---|---|---|---|---|---|
| CSCanary/Program.cs:41-42 | `_pingCheckIntervalSeconds * millisPerSecond` is computed in unchecked 32-bit `int` and wraps around. | `pingCheckInterval` = 4294968 seconds gives a 704 ms interval. 2147484 seconds gives a negative one. | The timer interval equals the configured seconds × 1000. An interval that does not fit should be rejected. | not executed; low severity, because only intervals over about 24.8 days overflow | `Interval.SecondsToMillisAsWritten`, `Interval.IntervalOverflowExample` | `Interval.SecondsToMillis` |
