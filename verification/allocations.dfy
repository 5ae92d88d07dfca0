/** Risk buckets, the three named risk tolerances and the target-allocation
    table shared by `AgentOrchestrator.__init__` and
    `PortfolioOptimizer.optimize_allocation`. */
module Allocations {
  import opened Wrappers
  import Text

  /** The `LOW` / `MODERATE` / `HIGH` risk level of a protocol or bucket. */
  datatype RiskBucket = Low | Moderate | High {
    /** Position in the allocation dictionaries' iteration order. */
    function Rank(): nat {
      match this
      case Low => 0
      case Moderate => 1
      case High => 2
    }
  }

  datatype Tolerance = Conservative | ModerateTolerance | Aggressive

  /** Looks a tolerance tag up case-insensitively; None for unknown tags. */
  function ParseTolerance(tag: string): (r: Option<Tolerance>)
    ensures r == Some(Conservative) <==> Text.Lower(tag) == "conservative"
    ensures r == Some(ModerateTolerance) <==> Text.Lower(tag) == "moderate"
    ensures r == Some(Aggressive) <==> Text.Lower(tag) == "aggressive"
  {
    var t := Text.Lower(tag);
    if t == "conservative" then Some(Conservative)
    else if t == "moderate" then Some(ModerateTolerance)
    else if t == "aggressive" then Some(Aggressive)
    else None
  }

  /** Fractions of portfolio value per risk bucket. */
  datatype Allocation = Allocation(low: real, moderate: real, high: real) {
    function Get(b: RiskBucket): real {
      match b
      case Low => low
      case Moderate => moderate
      case High => high
    }

    function Total(): real {
      low + moderate + high
    }

    ghost predicate Valid() {
      0.0 <= low && 0.0 <= moderate && 0.0 <= high && Total() == 1.0
    }
  }

  function Table(t: Tolerance): (a: Allocation)
    ensures a.Valid()
  {
    match t
    case Conservative => Allocation(0.80, 0.20, 0.00)
    case ModerateTolerance => Allocation(0.50, 0.40, 0.10)
    case Aggressive => Allocation(0.30, 0.40, 0.30)
  }

  /** `{...}.get(tolerance.lower(), moderate row)`: unknown tags fall back
      to the moderate row. */
  function AllocationFor(tag: string): (a: Allocation)
    ensures a.Valid()
    ensures Text.Lower(tag) == "conservative" ==> a == Allocation(0.80, 0.20, 0.00)
    ensures Text.Lower(tag) == "aggressive" ==> a == Allocation(0.30, 0.40, 0.30)
    ensures Text.Lower(tag) != "conservative" && Text.Lower(tag) != "aggressive"
            ==> a == Allocation(0.50, 0.40, 0.10)
  {
    Table(ParseTolerance(tag).GetOr(ModerateTolerance))
  }

  /** The look-up ignores letter case. */
  lemma AllocationForIgnoresCase(tag: string)
    ensures AllocationFor(Text.Lower(tag)) == AllocationFor(tag)
  {
    Text.LowerIdempotent(tag);
  }

  lemma AllocationForExamples()
    ensures AllocationFor("Aggressive") == Allocation(0.30, 0.40, 0.30)
    ensures AllocationFor("CONSERVATIVE") == Allocation(0.80, 0.20, 0.00)
    ensures AllocationFor("reckless") == Allocation(0.50, 0.40, 0.10)
  {
    assert Text.Lower("Aggressive") == "aggressive";
    assert Text.Lower("CONSERVATIVE") == "conservative";
    assert Text.Lower("reckless") == "reckless";
  }
}
