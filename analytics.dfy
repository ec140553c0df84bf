/** Platform-wide statistics (`analytics.rs`). */
module Analytics {

  import opened Types
  import opened Storage

  /** The value one stored property contributes to the value locked. */
  function ValueOf(p: Property): nat
  {
    p.totalValue
  }

  /** The sum of `total_value` over every stored property. */
  function TotalValueLocked(properties: map<nat, Property>): nat
  {
    SumOf(properties, ValueOf)
  }

  /** Listing a new property adds its whole `total_value` to the value locked. */
  lemma TotalValueLockedGrows(properties: map<nat, Property>, id: nat, p: Property)
    requires id !in properties
    ensures TotalValueLocked(properties[id := p]) == TotalValueLocked(properties) + p.totalValue
  {
    SumOfInsert(properties, id, p, ValueOf);
  }

  /**
   * `get_platform_analytics`: the sizes of the property, investment and user
   * stores, the value locked, and zero for the four figures the source never
   * computes. It reads the stores and writes none.
   */
  function GetPlatformAnalytics(properties: map<nat, Property>, investments: map<nat, Investment>,
                                users: map<Principal, UserProfile>): (s: PlatformStats)
    requires TotalValueLocked(properties) <= MaxU64
    ensures s.totalProperties == |properties| && s.totalInvestments == |investments|
    ensures s.totalUsers == |users|
    ensures s.totalValueLocked == TotalValueLocked(properties)
    ensures s.totalTradingVolume == 0 && s.activeOrders == 0
    ensures s.totalDividendsPaid == 0 && s.platformFeeCollected == 0
  {
    PlatformStats(|properties|, |investments|, |users|, TotalValueLocked(properties), 0, 0, 0, 0)
  }

  /** The value locked is zero exactly when every stored property has a `total_value` of zero. */
  lemma NothingLockedWithoutValue(properties: map<nat, Property>)
    ensures TotalValueLocked(properties) == 0 <==> forall k :: k in properties ==> properties[k].totalValue == 0
  {
    if TotalValueLocked(properties) > 0 {
      SumOfPositive(properties, ValueOf);
    }
  }
}
