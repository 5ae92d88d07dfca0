/** The alert dictionaries agents hand to the orchestrator's callback,
    as a typed record. */
module Alerts {
  import opened Allocations

  datatype Priority = LowPriority | Medium | HighPriority | Critical {
    /** The string stored under the `priority` key. */
    function Name(): string {
      match this
      case LowPriority => "LOW"
      case Medium => "MEDIUM"
      case HighPriority => "HIGH"
      case Critical => "CRITICAL"
    }

    /** `priority in ['HIGH', 'CRITICAL']`, the SMS gate. */
    predicate IsUrgent() {
      this == HighPriority || this == Critical
    }
  }

  /** The alert `type`, with the numbers its title and message are
      formatted from. */
  datatype AlertKind =
    | IdleAsset(asset: string, daysIdle: int, valueUsd: real, potentialMonthly: real)
    | ApySpike(protocol: string, currentApy: real, previousApy: real)
    | RiskAlert
    | Rebalance(bucket: RiskBucket, drift: real)
    | Harvest(totalUsd: real, protocolCount: nat)
    | PriceMovement(asset: string, change: real, price: real)
  {
    /** The string stored under the `type` key. */
    function TypeName(): string {
      match this
      case IdleAsset(_, _, _, _) => "IDLE_ASSET"
      case ApySpike(_, _, _) => "APY_SPIKE"
      case RiskAlert => "RISK_ALERT"
      case Rebalance(_, _) => "REBALANCE"
      case Harvest(_, _) => "HARVEST"
      case PriceMovement(_, _, _) => "PRICE_MOVEMENT"
    }
  }

  /** One alert. `title` and `message` carry the risk monitor's text
      verbatim; the other agents format theirs from `kind`'s numbers, which
      is not modelled, and leave them empty. */
  datatype Alert = Alert(kind: AlertKind, priority: Priority, title: string,
                         message: string, action: string)
}
