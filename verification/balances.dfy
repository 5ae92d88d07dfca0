/** The balance records the DeFi helpers take as input. */
module Balances {

  /** One wallet holding: asset code, amount held and its USD value. */
  datatype Balance = Balance(asset: string, balance: real, valueUsd: real)

  /** `sum(b['value_usd'] for b in balances)`. */
  function TotalValue(balances: seq<Balance>): real {
    if balances == [] then 0.0 else balances[0].valueUsd + TotalValue(balances[1..])
  }

  lemma {:induction false} TotalValueNonNegative(balances: seq<Balance>)
    requires forall i :: 0 <= i < |balances| ==> balances[i].valueUsd >= 0.0
    ensures TotalValue(balances) >= 0.0
  {
    if balances != [] {
      TotalValueNonNegative(balances[1..]);
    }
  }
}
