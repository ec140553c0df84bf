/** Primary investment in a listed property (`investment.rs`). */
module Investments {

  import opened Wrappers
  import opened Types
  import opened Storage
  import opened Utils

  /** The tokens of property `pid` that one investment record accounts for. */
  function TokensOf(pid: nat): Investment -> nat
  {
    (inv: Investment) => if inv.propertyId == pid then inv.tokenAmount else 0
  }

  /** The tokens of property `pid` recorded in the investment store, over all investors. */
  function TokensIssued(investments: map<nat, Investment>, pid: nat): nat
  {
    SumOf(investments, TokensOf(pid))
  }

  /**
   * `invest_in_property`: the gates are tried in this order: authentication, KYC,
   * the property exists, it is Active, and the request does not exceed
   * `available_tokens` (asking for exactly all of them is allowed). A Confirmed
   * record is stored under a fresh id. The property itself is not touched:
   * `available_tokens` never goes down, so the tokens issued for a property grow
   * with every investment.
   */
  method InvestInProperty(c: Canister, caller: Principal, now: nat, payload: InvestmentPayload)
    returns (r: Result<Investment>)
    requires c.Valid()
    // the multiplication and `get_next_id` run only once every gate has passed
    requires && caller != Anonymous && ValidateKyc(c.users, caller).Ok?
             && payload.propertyId in c.properties
             && c.properties[payload.propertyId].status.Active?
             && payload.tokenAmount <= c.properties[payload.propertyId].availableTokens
             ==>
             && c.LastId() < MaxU64
             && Cost(payload.tokenAmount, c.properties[payload.propertyId].pricePerToken) <= MaxU64
    modifies c`idCounter, c`investments
    ensures c.Valid()
    ensures caller == Anonymous ==> r == Err("Authentication required")
    ensures caller != Anonymous && ValidateKyc(c.users, caller).Err? ==>
              r == Err(ValidateKyc(c.users, caller).error)
    ensures caller != Anonymous && ValidateKyc(c.users, caller).Ok? ==>
              && (payload.propertyId !in c.properties ==> r == Err("Property not found"))
              && (payload.propertyId in c.properties
                  && !c.properties[payload.propertyId].status.Active? ==>
                    r == Err("Property is not available for investment"))
              && (payload.propertyId in c.properties
                  && c.properties[payload.propertyId].status.Active?
                  && payload.tokenAmount > c.properties[payload.propertyId].availableTokens ==>
                    r == Err("Insufficient tokens available"))
    ensures r.Err? ==> c.idCounter == old(c.idCounter) && c.investments == old(c.investments)
    ensures r.Ok? <==>
              && caller != Anonymous && ValidateKyc(c.users, caller).Ok?
              && payload.propertyId in c.properties
              && c.properties[payload.propertyId].status.Active?
              && payload.tokenAmount <= c.properties[payload.propertyId].availableTokens
    ensures r.Ok? ==>
      && var inv := r.value;
      && inv.id == old(c.LastId()) + 1 && c.LastId() == inv.id && inv.id !in old(c.investments)
      && inv == Investment(inv.id, caller, payload.propertyId, payload.tokenAmount,
                           Cost(payload.tokenAmount, c.properties[payload.propertyId].pricePerToken),
                           now, InvestmentStatus.Confirmed)
      && c.investments == old(c.investments)[inv.id := inv]
    ensures r.Ok? ==>
      TokensIssued(c.investments, payload.propertyId)
        == old(TokensIssued(c.investments, payload.propertyId)) + payload.tokenAmount
  {
    var auth := IsAuthenticated(caller);
    if auth.Err? {
      return Err(auth.error);
    }
    var kyc := ValidateKyc(c.users, caller);
    if kyc.Err? {
      return Err(kyc.error);
    }
    if payload.propertyId !in c.properties {
      return Err("Property not found");
    }
    var property := c.properties[payload.propertyId];
    if !property.status.Active? {
      return Err("Property is not available for investment");
    }
    if payload.tokenAmount > property.availableTokens {
      return Err("Insufficient tokens available");
    }
    var investmentAmount := Cost(payload.tokenAmount, property.pricePerToken);
    var investmentId := c.NextId();
    var investment := Investment(
      investmentId, caller, payload.propertyId, payload.tokenAmount, investmentAmount,
      now, InvestmentStatus.Confirmed);
    SumOfInsert(c.investments, investmentId, investment, TokensOf(payload.propertyId));
    c.investments := c.investments[investmentId := investment];
    r := Ok(investment);
  }

  /** `get_investments_by_user`: exactly the stored investments whose investor is `user`. */
  function GetInvestmentsByUser(store: map<nat, Investment>, user: Principal): (r: seq<Investment>)
    ensures forall i :: 0 <= i < |r| ==> r[i] in store.Values && r[i].investor == user
    ensures forall id :: id in store && store[id].investor == user ==> store[id] in r
    ensures (forall k :: k in store ==> store[k].id == k) ==>
              forall i, j :: 0 <= i < j < |r| ==> r[i].id < r[j].id
  {
    var all, id, keep := Entries(store), (inv: Investment) => inv.id, (inv: Investment) => inv.investor == user;
    EntriesIncreasing(store, id);
    FilterKeepsOrder(all, keep, id);
    Filter(all, keep)
  }

  /**
   * Two investments of the whole available supply both succeed and the property
   * is unchanged afterwards: the store then records twice the available tokens
   * more than before, so the supply can be oversubscribed.
   */
  method InvestingTwiceOversubscribes(c: Canister, caller: Principal, now: nat, pid: nat)
    returns (first: Result<Investment>, second: Result<Investment>)
    requires c.Valid()
    requires c.LastId() < MaxU64 - 1
    requires caller != Anonymous && ValidateKyc(c.users, caller).Ok?
    requires pid in c.properties && c.properties[pid].status.Active?
    requires Cost(c.properties[pid].availableTokens, c.properties[pid].pricePerToken) <= MaxU64
    modifies c`idCounter, c`investments
    ensures c.Valid()
    ensures first.Ok? && second.Ok?
    ensures c.properties[pid] == old(c.properties[pid])
    ensures TokensIssued(c.investments, pid)
              == old(TokensIssued(c.investments, pid)) + 2 * c.properties[pid].availableTokens
  {
    var amount := c.properties[pid].availableTokens;
    first := InvestInProperty(c, caller, now, InvestmentPayload(pid, amount));
    second := InvestInProperty(c, caller, now, InvestmentPayload(pid, amount));
  }
}
