/** Reported usage: legacy counters and metrics merged into one normalized usage map. */
module Intake {
  import opened Results
  import opened Meters
  import opened Metering
  import opened Charging

  type Int64 = x: int | -0x8000_0000_0000_0000 <= x < 0x8000_0000_0000_0000

  datatype Reported = Reported(input: Int64, output: Int64, cached: Int64, reasoning: Int64, metrics: Usage)

  function UsageFromLegacy(input: int, output: int, cached: int, reasoning: int): Usage {
    map[Plain(InputTokens) := input as real, Plain(OutputTokens) := output as real,
        Plain(CachedInputTokens) := cached as real, Plain(ReasoningTokens) := reasoning as real]
  }

  /** A counter completes a metric that is missing or zero; a non-zero metric wins. */
  function Completed(u: Usage, m: Meter, counter: int): Usage {
    if counter > 0 && (Plain(m) !in u || u[Plain(m)] == 0.0) then u[Plain(m) := counter as real] else u
  }

  function Merged(r: Reported): Usage {
    Completed(Completed(Completed(Completed(r.metrics,
      InputTokens, r.input), OutputTokens, r.output), CachedInputTokens, r.cached), ReasoningTokens, r.reasoning)
  }

  /** A metric as a counter, zero when it is not a 64-bit integer. */
  function CounterOf(u: Usage, m: Meter): Int64 {
    var q := if Plain(m) in u then u[Plain(m)] else 0.0;
    if 0.0 <= q && q.Floor as real == q && q.Floor < 0x8000_0000_0000_0000 then q.Floor else 0
  }

  function Updated(counter: Int64, u: Usage, m: Meter): Int64 {
    if CounterOf(u, m) > 0 then CounterOf(u, m) else counter
  }

  function AtMost(x: Int64, y: Int64): Int64 { if x > y then y else x }

  function NormalizeUsage(r: Reported): Reported {
    var normalized := NormalizedUsage(Merged(r));
    var r' := if normalized.Ok? && normalized.value != map[] then
                var u := normalized.value;
                Reported(Updated(r.input, u, InputTokens), Updated(r.output, u, OutputTokens),
                         Updated(r.cached, u, CachedInputTokens), Updated(r.reasoning, u, ReasoningTokens), u)
              else r;
    r'.(cached := AtMost(r'.cached, r'.input), reasoning := AtMost(r'.reasoning, r'.output))
  }

  function UsageMetricsFor(r: Reported): Usage {
    var n := NormalizeUsage(r);
    if n.metrics != map[] then n.metrics else UsageFromLegacy(n.input, n.output, n.cached, n.reasoning)
  }

  /** The usage a settlement starts from; the report is normalized twice and its metrics again. */
  function SettlementMetrics(r: Reported): Result<Usage> {
    if r.input < 0 || r.output < 0 || r.cached < 0 || r.reasoning < 0 then Err(InvalidRequest)
    else match NormalizedUsage(UsageMetricsFor(NormalizeUsage(r)))
      case Err(_) => Err(InvalidRequest)
      case Ok(u) => Ok(u)
  }
}
