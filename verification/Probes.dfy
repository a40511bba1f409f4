// Probe tasks and probe results: what a policy asks the agent to measure and
// what one measurement yields. The two lanes of the source (ping tasks and
// website monitors) share one task type; the definition says which lane a
// task belongs to.
module Probes {

  datatype Definition =
    | Ping(kind: string, target: string)
    | Website(configRevision: string, url: string, verb: string, statusMin: int, statusMax: int, timeoutSec: int)

  datatype Task = Task(id: int, intervalSec: int, definition: Definition)

  datatype Outcome =
    | Latency(milliseconds: real)
    | Verdict(configRevision: string, ok: bool, latencyMs: int)

  datatype Result = Result(id: int, outcome: Outcome)

  const DEFAULT_PING_INTERVAL_SEC := 120

  // Times are nanoseconds; 0 is Go's zero time, which precedes every clock reading.
  const SECOND := 1_000_000_000

  function Lower(c: char): char {
    if 'A' <= c <= 'Z' then ((c as int) + 32) as char else c
  }

  // Case folding as far as protocol names use it.
  function Fold(s: string): string {
    seq(|s|, i requires 0 <= i < |s| => Lower(s[i]))
  }

  predicate SamePingProbe(a: Definition, b: Definition)
    requires a.Ping? && b.Ping?
  {
    Fold(a.kind) == Fold(b.kind) && a.target == b.target
  }

  predicate SameWebsiteProbe(a: Definition, b: Definition)
    requires a.Website? && b.Website?
  {
    && a.configRevision == b.configRevision && a.url == b.url && Fold(a.verb) == Fold(b.verb)
    && a.statusMin == b.statusMin && a.statusMax == b.statusMax && a.timeoutSec == b.timeoutSec
  }

  predicate SameProbe(a: Definition, b: Definition) {
    || (a.Ping? && b.Ping? && SamePingProbe(a, b))
    || (a.Website? && b.Website? && SameWebsiteProbe(a, b))
  }

  function Interval(task: Task): nat {
    (if task.intervalSec < 1 then DEFAULT_PING_INTERVAL_SEC else task.intervalSec) * SECOND
  }

  // What an execution of a probe may return: any latency, or any verdict that
  // is stamped with the configuration revision of the task it ran.
  predicate Answers(outcome: Outcome, definition: Definition) {
    match definition
    case Ping(_, _) => outcome.Latency?
    case Website(revision, _, _, _, _, _) => outcome.Verdict? && outcome.configRevision == revision
  }
}
