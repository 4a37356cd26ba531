/** Usage maps: overlapping provider meters made disjoint before anything is priced. */
module Metering {
  import opened Meters
  import opened Rounding
  import opened Sums

  type Usage = map<Code, real>

  /** rationalValue(usage[code]): a missing or negative entry reads as zero. */
  function Quantity(u: Usage, c: Code): real {
    if c in u && u[c] >= 0.0 then u[c] else 0.0
  }

  function Held(u: Usage): Meter -> real {
    m => Quantity(u, Plain(m))
  }

  function TotalOf(u: Usage, ms: seq<Meter>): real { SumBy(ms, Held(u)) }

  /** What validMeteredDecimal guarantees of the entries: thirty fraction digits, no sign. */
  ghost predicate Sound(u: Usage) {
    forall c :: c in u ==> 0.0 <= u[c] && OnGrid(u[c])
  }

  // ----- the two in-place passes, as functions of the map

  function Ensured(u: Usage, parent: Meter): Usage {
    var total := TotalOf(u, SubMeters(parent));
    if Plain(parent) !in u && total > 0.0 then u[Plain(parent) := Round30(total)] else u
  }

  function Min(x: real, y: real): real { if x <= y then x else y }

  // The size of the map in these measures keeps constant lists from being unfolded in proofs.

  function ClampedTo(u: Usage, ms: seq<Meter>, remaining: real): Usage
    decreases |ms|, |u|
  {
    if ms == [] then u
    else
      var value := Min(Quantity(u, Plain(ms[0])), remaining);
      var u' := if Plain(ms[0]) in u then u[Plain(ms[0]) := Round30(value)] else u;
      ClampedTo(u', ms[1..], remaining - value)
  }

  function Clamped(u: Usage, parent: Meter): Usage {
    ClampedTo(u, SubMeters(parent), Quantity(u, Plain(parent)))
  }

  /** Details before totals: a total may be the sum of totals filled in just before. */
  const BOTTOM_UP := [InputAudioTokens, InputImageTokens, InputVideoTokens, InputTokens, OutputTokens]

  /** Totals before details: a detail that was cut back limits its own details in turn. */
  const TOP_DOWN := [InputTokens, InputAudioTokens, InputImageTokens, InputVideoTokens, OutputTokens]

  function EnsureAll(u: Usage, ps: seq<Meter>): Usage
    decreases |ps|, |u|
  {
    if ps == [] then u else EnsureAll(Ensured(u, ps[0]), ps[1..])
  }

  function ClampAll(u: Usage, ps: seq<Meter>): Usage
    decreases |ps|, |u|
  {
    if ps == [] then u else ClampAll(Clamped(u, ps[0]), ps[1..])
  }

  function Normalized(u: Usage): Usage { ClampAll(EnsureAll(u, BOTTOM_UP), TOP_DOWN) }

  /** Every meter holds at least what its sub-meters hold together. */
  ghost predicate Disjoint(u: Usage) {
    forall m {:trigger TotalOf(u, SubMeters(m))} :: TotalOf(u, SubMeters(m)) <= Quantity(u, Plain(m))
  }

  /** The quantity billed under a code: its own less that of its sub-meters. */
  function EffectiveQuantity(c: Code, u: Usage): real {
    if c.suffixes == [] && SubMeters(c.stem) != [] then
      var rest := Quantity(u, c) - TotalOf(u, SubMeters(c.stem));
      if rest < 0.0 then 0.0 else Round30(rest)
    else Quantity(u, c)
  }

  // ----- the passes themselves

  class UsageMap {
    var metrics: Usage

    constructor (u: Usage)
      ensures metrics == u
    {
      metrics := u;
    }

    method EnsureParentMetric(parent: Meter, children: seq<Meter>)
      requires children == SubMeters(parent)
      modifies this
      ensures metrics == Ensured(old(metrics), parent)
    {
      hide SubMeters, Round30;
      if Plain(parent) in metrics { return; }
      var total := 0.0;
      for i := 0 to |children|
        invariant metrics == old(metrics)
        invariant total + TotalOf(metrics, children[i..]) == TotalOf(metrics, children)
      {
        total := total + Quantity(metrics, Plain(children[i]));
        assert children[i..][1..] == children[i + 1..];
      }
      if total > 0.0 {
        metrics := metrics[Plain(parent) := Round30(total)];
      }
    }

    method LimitChildrenToParent(parent: Meter, children: seq<Meter>)
      requires children == SubMeters(parent)
      modifies this
      ensures metrics == Clamped(old(metrics), parent)
    {
      hide SubMeters, Round30;
      var remaining := Quantity(metrics, Plain(parent));
      for i := 0 to |children|
        invariant ClampedTo(metrics, children[i..], remaining) == Clamped(old(metrics), parent)
      {
        var code := Plain(children[i]);
        var value := Quantity(metrics, code);
        if value > remaining {
          value := remaining;
        }
        if code in metrics {
          metrics := metrics[code := Round30(value)];
        }
        remaining := remaining - value;
        assert children[i..][1..] == children[i + 1..];
      }
    }

    method NormalizeRelationships()
      modifies this
      ensures metrics == Normalized(old(metrics))
    {
      for i := 0 to |BOTTOM_UP|
        invariant EnsureAll(metrics, BOTTOM_UP[i..]) == EnsureAll(old(metrics), BOTTOM_UP)
      {
        EnsureParentMetric(BOTTOM_UP[i], SubMeters(BOTTOM_UP[i]));
        assert BOTTOM_UP[i..][1..] == BOTTOM_UP[i + 1..];
      }
      ghost var filled := metrics;
      for i := 0 to |TOP_DOWN|
        invariant ClampAll(metrics, TOP_DOWN[i..]) == ClampAll(filled, TOP_DOWN)
      {
        LimitChildrenToParent(TOP_DOWN[i], SubMeters(TOP_DOWN[i]));
        assert TOP_DOWN[i..][1..] == TOP_DOWN[i + 1..];
      }
    }
  }
}
