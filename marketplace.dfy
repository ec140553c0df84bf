/**
 * The secondary market (`marketplace.rs`): buy and sell orders, their execution,
 * the token "transfer" it performs, the sellers' and buyers' portfolios and the
 * per-property market data. `get_user_token_balance`, which `governance.rs`
 * repeats word for word, is modelled once here.
 */
module Marketplace {

  import opened Wrappers
  import opened Types
  import opened Storage
  import opened Utils
  import opened Investments

  // ---------------------------------------------------------------------------
  // Balances

  /** The tokens of property `pid` that one investment record credits to `user`. */
  function HoldingOf(user: Principal, pid: nat): Investment -> nat
  {
    (inv: Investment) => if inv.investor == user && inv.propertyId == pid then inv.tokenAmount else 0
  }

  /**
   * `get_user_token_balance`: the sum of `token_amount` over the investments of
   * `user` in property `pid` (the source wraps it in an `Ok` it never fails to
   * return). A positive balance comes from at least one such record.
   */
  function TokenBalance(investments: map<nat, Investment>, user: Principal, pid: nat): (balance: nat)
    ensures balance > 0 ==>
      exists id :: id in investments && investments[id].investor == user
                   && investments[id].propertyId == pid && investments[id].tokenAmount > 0
  {
    var b := SumOf(investments, HoldingOf(user, pid));
    if b == 0 then 0 else SumOfPositive(investments, HoldingOf(user, pid)); b
  }

  /**
   * What a trade does to the investment store: it mints a new Confirmed record
   * for the receiver and takes nothing from the sender. The receiver's balance
   * rises by `amount`, the sender's does not fall, and the tokens on record for
   * the property grow by `amount`.
   */
  lemma TradeMintsWithoutDebit(investments: map<nat, Investment>, id: nat, from: Principal,
                               to: Principal, pid: nat, amount: nat, now: nat)
    requires id !in investments
    ensures var after := investments[id := Investment(id, to, pid, amount, 0, now, InvestmentStatus.Confirmed)];
      && TokenBalance(after, to, pid) == TokenBalance(investments, to, pid) + amount
      && TokenBalance(after, from, pid) >= TokenBalance(investments, from, pid)
      && (from != to ==> TokenBalance(after, from, pid) == TokenBalance(investments, from, pid))
      && TokensIssued(after, pid) == TokensIssued(investments, pid) + amount
  {
    var inv := Investment(id, to, pid, amount, 0, now, InvestmentStatus.Confirmed);
    SumOfInsert(investments, id, inv, HoldingOf(to, pid));
    SumOfInsert(investments, id, inv, HoldingOf(from, pid));
    SumOfInsert(investments, id, inv, TokensOf(pid));
  }

  // ---------------------------------------------------------------------------
  // Portfolios

  function SaturatingSub(a: nat, b: nat): nat
  {
    if a >= b then a - b else 0
  }

  /** The tokens of `pid` in the first holding for it, 0 when there is none. */
  function HeldAmount(hs: seq<PortfolioProperty>, pid: nat): nat
  {
    if hs == [] then 0
    else if hs[0].propertyId == pid then hs[0].tokenAmount
    else HeldAmount(hs[1..], pid)
  }

  /** The tokens of `pid` in `owner`'s portfolio, 0 without a portfolio. */
  function HeldIn(portfolios: map<Principal, Portfolio>, owner: Principal, pid: nat): nat
  {
    if owner in portfolios then HeldAmount(portfolios[owner].properties, pid) else 0
  }

  /** The seller's side: the first holding of `pid`, if any, drops by `amount`, floored at 0. */
  function Debit(hs: seq<PortfolioProperty>, pid: nat, amount: nat): seq<PortfolioProperty>
  {
    if hs == [] then []
    else if hs[0].propertyId == pid then
      [hs[0].(tokenAmount := SaturatingSub(hs[0].tokenAmount, amount))] + hs[1..]
    else [hs[0]] + Debit(hs[1..], pid, amount)
  }

  /** The buyer's side: the first holding of `pid` grows by `amount`; without one a holding is appended. */
  function Credit(hs: seq<PortfolioProperty>, pid: nat, amount: nat, now: nat): seq<PortfolioProperty>
  {
    if hs == [] then [PortfolioProperty(pid, amount, 0, 0, 0, now)]
    else if hs[0].propertyId == pid then
      [hs[0].(tokenAmount := hs[0].tokenAmount + amount)] + hs[1..]
    else [hs[0]] + Credit(hs[1..], pid, amount, now)
  }

  /** The portfolio `update_portfolio_after_trade` creates for a buyer that has none. */
  function EmptyPortfolio(owner: Principal): Portfolio
  {
    Portfolio(owner, 0, 0, [], 0)
  }

  /** The sender's step: its portfolio, if it has one, is debited. */
  function AfterDebit(portfolios: map<Principal, Portfolio>, from: Principal, pid: nat, amount: nat)
    : map<Principal, Portfolio>
  {
    if from in portfolios
    then portfolios[from := portfolios[from].(properties := Debit(portfolios[from].properties, pid, amount))]
    else portfolios
  }

  /** The receiver's step: its portfolio, created if absent, is credited. */
  function AfterCredit(portfolios: map<Principal, Portfolio>, to: Principal, pid: nat, amount: nat, now: nat)
    : map<Principal, Portfolio>
  {
    var receiver := if to in portfolios then portfolios[to] else EmptyPortfolio(to);
    portfolios[to := receiver.(properties := Credit(receiver.properties, pid, amount, now))]
  }

  /**
   * The portfolio store after `update_portfolio_after_trade`: the sender's
   * portfolio is debited if it exists, then the receiver's (created if absent)
   * is read back and credited. The receiver always ends with a portfolio, and
   * nobody else's portfolio changes.
   */
  function AfterTrade(portfolios: map<Principal, Portfolio>, from: Principal, to: Principal,
                      pid: nat, amount: nat, now: nat): (after: map<Principal, Portfolio>)
    ensures after.Keys == portfolios.Keys + {to}
    ensures forall p :: p in portfolios && p != from && p != to ==> after[p] == portfolios[p]
  {
    AfterCredit(AfterDebit(portfolios, from, pid, amount), to, pid, amount, now)
  }

  lemma {:induction false} DebitHeld(hs: seq<PortfolioProperty>, pid: nat, amount: nat, q: nat)
    ensures HeldAmount(Debit(hs, pid, amount), q)
              == if q == pid then SaturatingSub(HeldAmount(hs, pid), amount) else HeldAmount(hs, q)
  {
    if hs != [] && hs[0].propertyId != pid {
      DebitHeld(hs[1..], pid, amount, q);
      assert Debit(hs, pid, amount)[1..] == Debit(hs[1..], pid, amount);
    } else if hs != [] {
      assert Debit(hs, pid, amount)[1..] == hs[1..];
    }
  }

  lemma {:induction false} CreditHeld(hs: seq<PortfolioProperty>, pid: nat, amount: nat, now: nat, q: nat)
    ensures HeldAmount(Credit(hs, pid, amount, now), q)
              == if q == pid then HeldAmount(hs, pid) + amount else HeldAmount(hs, q)
  {
    if hs == [] {
      assert Credit(hs, pid, amount, now)[1..] == [];
    } else if hs[0].propertyId != pid {
      CreditHeld(hs[1..], pid, amount, now, q);
      assert Credit(hs, pid, amount, now)[1..] == Credit(hs[1..], pid, amount, now);
    } else {
      assert Credit(hs, pid, amount, now)[1..] == hs[1..];
    }
  }

  /**
   * `update_portfolio_after_trade`, in holdings: between two different principals
   * the receiver gains exactly `amount` and the sender loses `amount`, saturating at
   * 0 (nothing when the sender has no portfolio or no holding). In a self-trade the
   * holding is first floored, then credited. Other properties' holdings do not
   * change.
   */
  lemma AfterTradeHoldings(portfolios: map<Principal, Portfolio>, from: Principal, to: Principal,
                           pid: nat, amount: nat, now: nat)
    ensures var after := AfterTrade(portfolios, from, to, pid, amount, now);
      && (forall p, q :: q != pid ==> HeldIn(after, p, q) == HeldIn(portfolios, p, q))
      && (from != to ==>
            && HeldIn(after, to, pid) == HeldIn(portfolios, to, pid) + amount
            && HeldIn(after, from, pid) == SaturatingSub(HeldIn(portfolios, from, pid), amount))
      && (from == to ==>
            HeldIn(after, to, pid) == SaturatingSub(HeldIn(portfolios, to, pid), amount) + amount)
  {
    var afterSender := AfterDebit(portfolios, from, pid, amount);
    var receiver := if to in afterSender then afterSender[to] else EmptyPortfolio(to);
    forall q ensures HeldIn(afterSender, from, q)
                       == if q == pid then SaturatingSub(HeldIn(portfolios, from, pid), amount)
                          else HeldIn(portfolios, from, q)
    {
      if from in portfolios {
        DebitHeld(portfolios[from].properties, pid, amount, q);
      }
    }
    forall q ensures HeldAmount(Credit(receiver.properties, pid, amount, now), q)
                       == if q == pid then HeldIn(afterSender, to, pid) + amount
                          else HeldIn(afterSender, to, q)
    {
      CreditHeld(receiver.properties, pid, amount, now, q);
    }
  }

  /** `portfolio.properties.iter_mut().find(|p| p.property_id == pid)`: the index of the first match, or `|hs|`. */
  method FindHolding(hs: seq<PortfolioProperty>, pid: nat) returns (i: nat)
    ensures i <= |hs|
    ensures i < |hs| ==> hs[i].propertyId == pid
    ensures forall j :: 0 <= j < i ==> hs[j].propertyId != pid
  {
    i := 0;
    while i < |hs| && hs[i].propertyId != pid
      invariant i <= |hs|
      invariant forall j :: 0 <= j < i ==> hs[j].propertyId != pid
    {
      i := i + 1;
    }
  }

  /** Debiting in place at the first match is `Debit`. */
  lemma {:induction false} DebitAt(hs: seq<PortfolioProperty>, pid: nat, amount: nat, i: nat)
    requires i <= |hs| && (i < |hs| ==> hs[i].propertyId == pid)
    requires forall j :: 0 <= j < i ==> hs[j].propertyId != pid
    ensures Debit(hs, pid, amount)
              == if i < |hs| then hs[i := hs[i].(tokenAmount := SaturatingSub(hs[i].tokenAmount, amount))]
                 else hs
  {
    if hs != [] {
      var h := hs[0].(tokenAmount := SaturatingSub(hs[0].tokenAmount, amount));
      if i == 0 {
        assert Debit(hs, pid, amount) == [h] + hs[1..];
        assert [h] + hs[1..] == hs[0 := h];
      } else {
        var tail := hs[1..];
        assert forall j :: 0 <= j < i - 1 ==> tail[j] == hs[j + 1];
        DebitAt(tail, pid, amount, i - 1);
        assert Debit(hs, pid, amount) == [hs[0]] + Debit(tail, pid, amount);
        if i < |hs| {
          var g := hs[i].(tokenAmount := SaturatingSub(hs[i].tokenAmount, amount));
          assert [hs[0]] + tail[i - 1 := g] == hs[i := g];
        } else {
          assert [hs[0]] + tail == hs;
        }
      }
    }
  }

  /** Crediting in place at the first match, or pushing a new holding, is `Credit`. */
  lemma {:induction false} CreditAt(hs: seq<PortfolioProperty>, pid: nat, amount: nat, now: nat, i: nat)
    requires i <= |hs| && (i < |hs| ==> hs[i].propertyId == pid)
    requires forall j :: 0 <= j < i ==> hs[j].propertyId != pid
    ensures Credit(hs, pid, amount, now)
              == if i < |hs| then hs[i := hs[i].(tokenAmount := hs[i].tokenAmount + amount)]
                 else hs + [PortfolioProperty(pid, amount, 0, 0, 0, now)]
  {
    if hs != [] {
      var h := hs[0].(tokenAmount := hs[0].tokenAmount + amount);
      if i == 0 {
        assert Credit(hs, pid, amount, now) == [h] + hs[1..];
        assert [h] + hs[1..] == hs[0 := h];
      } else {
        var tail := hs[1..];
        assert forall j :: 0 <= j < i - 1 ==> tail[j] == hs[j + 1];
        CreditAt(tail, pid, amount, now, i - 1);
        assert Credit(hs, pid, amount, now) == [hs[0]] + Credit(tail, pid, amount, now);
        if i < |hs| {
          var g := hs[i].(tokenAmount := hs[i].tokenAmount + amount);
          assert [hs[0]] + tail[i - 1 := g] == hs[i := g];
        } else {
          assert [hs[0]] + (tail + [PortfolioProperty(pid, amount, 0, 0, 0, now)])
                 == hs + [PortfolioProperty(pid, amount, 0, 0, 0, now)];
        }
      }
    }
  }

  /** The first half of `update_portfolio_after_trade`: the sender's holding lowered in place. */
  method DebitSender(c: Canister, from: Principal, pid: nat, amount: nat)
    requires c.Valid()
    modifies c`portfolios
    ensures c.Valid()
    ensures c.portfolios == AfterDebit(old(c.portfolios), from, pid, amount)
  {
    if from in c.portfolios {
      var portfolio := c.portfolios[from];
      var i := FindHolding(portfolio.properties, pid);
      DebitAt(portfolio.properties, pid, amount, i);
      if i < |portfolio.properties| {
        var holding := portfolio.properties[i];
        holding := holding.(tokenAmount := SaturatingSub(holding.tokenAmount, amount));
        portfolio := portfolio.(properties := portfolio.properties[i := holding]);
      }
      c.portfolios := c.portfolios[from := portfolio];
    }
  }

  /**
   * The second half of `update_portfolio_after_trade`: the receiver's portfolio,
   * created if absent, has its holding raised in place or a new holding pushed.
   */
  method CreditReceiver(c: Canister, to: Principal, pid: nat, amount: nat, now: nat)
    requires c.Valid()
    requires HeldIn(c.portfolios, to, pid) + amount <= MaxU64
    modifies c`portfolios
    ensures c.Valid()
    ensures c.portfolios == AfterCredit(old(c.portfolios), to, pid, amount, now)
  {
    var portfolio := if to in c.portfolios then c.portfolios[to] else EmptyPortfolio(to);
    var i := FindHolding(portfolio.properties, pid);
    CreditAt(portfolio.properties, pid, amount, now, i);
    if i < |portfolio.properties| {
      var holding := portfolio.properties[i];
      holding := holding.(tokenAmount := holding.tokenAmount + amount);
      portfolio := portfolio.(properties := portfolio.properties[i := holding]);
    } else {
      portfolio := portfolio.(properties := portfolio.properties + [PortfolioProperty(pid, amount, 0, 0, 0, now)]);
    }
    c.portfolios := c.portfolios[to := portfolio];
  }

  /** `update_portfolio_after_trade`: the sender's step, then the receiver's. */
  method UpdatePortfolioAfterTrade(c: Canister, from: Principal, to: Principal, pid: nat,
                                   amount: nat, now: nat)
    requires c.Valid()
    requires HeldIn(c.portfolios, to, pid) + amount <= MaxU64
    modifies c`portfolios
    ensures c.Valid()
    ensures c.portfolios == AfterTrade(old(c.portfolios), from, to, pid, amount, now)
  {
    if from in c.portfolios {
      DebitHeld(c.portfolios[from].properties, pid, amount, pid);
    }
    DebitSender(c, from, pid, amount);
    CreditReceiver(c, to, pid, amount, now);
  }

  /**
   * `transfer_tokens`: mints a Confirmed investment of `amount` for the receiver,
   * with `investment_amount` 0, under a fresh id, and updates both portfolios. No
   * investment of the sender is reduced. The source returns `Ok(())` on every path.
   */
  method TransferTokens(c: Canister, from: Principal, to: Principal, pid: nat, amount: nat, now: nat)
    requires c.Valid()
    requires c.LastId() < MaxU64
    requires pid in c.properties
    requires HeldIn(c.portfolios, to, pid) + amount <= MaxU64
    modifies c`idCounter, c`investments, c`portfolios
    ensures c.Valid()
    ensures c.LastId() == old(c.LastId()) + 1 && old(c.LastId()) + 1 !in old(c.investments)
    ensures c.investments == old(c.investments)[old(c.LastId()) + 1 :=
              Investment(old(c.LastId()) + 1, to, pid, amount, 0, now, InvestmentStatus.Confirmed)]
    ensures c.portfolios == AfterTrade(old(c.portfolios), from, to, pid, amount, now)
    ensures TokenBalance(c.investments, to, pid) == old(TokenBalance(c.investments, to, pid)) + amount
    ensures from != to ==>
              TokenBalance(c.investments, from, pid) == old(TokenBalance(c.investments, from, pid))
    ensures TokensIssued(c.investments, pid) == old(TokensIssued(c.investments, pid)) + amount
  {
    var investmentId := c.NextId();
    var investment := Investment(investmentId, to, pid, amount, 0, now, InvestmentStatus.Confirmed);
    TradeMintsWithoutDebit(c.investments, investmentId, from, to, pid, amount, now);
    c.investments := c.investments[investmentId := investment];
    UpdatePortfolioAfterTrade(c, from, to, pid, amount, now);
  }

  // ---------------------------------------------------------------------------
  // Market data

  /**
   * The record `update_market_data` leaves for the property: the stored one (or,
   * without one, a fresh one at `price` with volume and market cap 0) with
   * `current_price := price`, `trading_volume_24h += volume` and `last_updated := now`.
   */
  function UpdatedMarketData(marketData: map<nat, MarketData>, pid: nat, price: nat, volume: nat, now: nat)
    : (d: MarketData)
    ensures d.propertyId == pid && d.currentPrice == price && d.lastUpdated == now
    ensures pid in marketData ==>
              && d.tradingVolume24h == marketData[pid].tradingVolume24h + volume
              && d.marketCap == marketData[pid].marketCap
    ensures pid !in marketData ==> d.tradingVolume24h == volume && d.marketCap == 0
  {
    var before := if pid in marketData then marketData[pid] else MarketData(pid, price, 0, 0, now);
    MarketData(pid, price, before.tradingVolume24h + volume, before.marketCap, now)
  }

  /** `update_market_data`: only the property's record changes. */
  method UpdateMarketData(c: Canister, pid: nat, price: nat, volume: nat, now: nat)
    requires c.Valid()
    requires pid in c.marketData ==> c.marketData[pid].tradingVolume24h + volume <= MaxU64
    modifies c`marketData
    ensures c.Valid()
    ensures c.marketData == old(c.marketData)[pid := UpdatedMarketData(old(c.marketData), pid, price, volume, now)]
  {
    var marketData := if pid in c.marketData then c.marketData[pid] else MarketData(pid, price, 0, 0, now);
    marketData := marketData.(currentPrice := price);
    marketData := marketData.(tradingVolume24h := marketData.tradingVolume24h + volume);
    marketData := marketData.(lastUpdated := now);
    c.marketData := c.marketData[pid := marketData];
  }

  // ---------------------------------------------------------------------------
  // Orders

  /** `orders.insert(order.id, order)` for an order with an issued id about a stored property. */
  method StoreOrder(c: Canister, order: TokenOrder)
    requires c.Valid()
    requires order.id <= c.LastId() && order.propertyId in c.properties
    modifies c`orders
    ensures c.Valid()
    ensures c.orders == old(c.orders)[order.id := order]
  {
    c.orders := c.orders[order.id := order];
  }

  /**
   * Every check of `create_token_order` passes: an authenticated, verified
   * caller, a stored property and, for a Sell order, a balance of at least
   * `token_amount`.
   */
  predicate OrderAdmitted(users: map<Principal, UserProfile>, properties: map<nat, Property>,
                          investments: map<nat, Investment>, caller: Principal, payload: CreateOrderPayload)
  {
    && caller != Anonymous && ValidateKyc(users, caller).Ok?
    && payload.propertyId in properties
    && (payload.orderType.Sell? ==> TokenBalance(investments, caller, payload.propertyId) >= payload.tokenAmount)
  }

  /**
   * `create_token_order`: after the identity gates, the property must exist and a
   * Sell order needs a balance of at least `token_amount`; a Buy order is not
   * checked against anything. The caller is recorded as `seller` in both kinds.
   */
  method CreateTokenOrder(c: Canister, caller: Principal, now: nat, payload: CreateOrderPayload)
    returns (r: Result<TokenOrder>)
    requires c.Valid()
    // a Sell order's balance is summed once the property is found
    requires caller != Anonymous && ValidateKyc(c.users, caller).Ok?
             && payload.propertyId in c.properties && payload.orderType.Sell? ==>
               TokenBalance(c.investments, caller, payload.propertyId) <= MaxU64
    // the id, the expiry and the total are computed only for an accepted order
    requires OrderAdmitted(c.users, c.properties, c.investments, caller, payload) ==>
             && c.LastId() < MaxU64
             && now + HoursInNanos(payload.expiresInHours) <= MaxU64
             && Cost(payload.tokenAmount, payload.pricePerToken) <= MaxU64
    modifies c`idCounter, c`orders
    ensures c.Valid()
    ensures caller == Anonymous ==> r == Err("Authentication required")
    ensures caller != Anonymous && ValidateKyc(c.users, caller).Err? ==>
              r == Err(ValidateKyc(c.users, caller).error)
    ensures caller != Anonymous && ValidateKyc(c.users, caller).Ok? ==>
              && (payload.propertyId !in c.properties ==> r == Err("Property not found"))
              && (payload.propertyId in c.properties && payload.orderType.Sell?
                  && TokenBalance(c.investments, caller, payload.propertyId) < payload.tokenAmount ==>
                    r == Err("Insufficient token balance"))
    ensures r.Err? ==> c.idCounter == old(c.idCounter) && c.orders == old(c.orders)
    ensures r.Ok? <==> OrderAdmitted(c.users, c.properties, c.investments, caller, payload)
    ensures r.Ok? ==>
      && var o := r.value;
      && o.id == old(c.LastId()) + 1 && c.LastId() == o.id && o.id !in old(c.orders)
      && o == TokenOrder(o.id, payload.propertyId, caller, None, payload.tokenAmount,
                         payload.pricePerToken, Cost(payload.tokenAmount, payload.pricePerToken),
                         payload.orderType, OrderStatus.Active, now,
                         now + HoursInNanos(payload.expiresInHours))
      && c.orders == old(c.orders)[o.id := o]
  {
    var auth := IsAuthenticated(caller);
    if auth.Err? {
      return Err(auth.error);
    }
    var kyc := ValidateKyc(c.users, caller);
    if kyc.Err? {
      return Err(kyc.error);
    }
    if payload.propertyId !in c.properties {
      return Err("Property not found");
    }
    if payload.orderType.Sell? {
      var userTokens := TokenBalance(c.investments, caller, payload.propertyId);
      if userTokens < payload.tokenAmount {
        return Err("Insufficient token balance");
      }
    }
    var orderId := c.NextId();
    var currentTime := now;
    var expiresAt := currentTime + HoursInNanos(payload.expiresInHours);
    var order := TokenOrder(
      orderId, payload.propertyId, caller, None, payload.tokenAmount, payload.pricePerToken,
      Cost(payload.tokenAmount, payload.pricePerToken), payload.orderType, OrderStatus.Active,
      currentTime, expiresAt);
    StoreOrder(c, order);
    r := Ok(order);
  }

  /** Who gives the tokens when `caller` executes `o`: the caller for a Buy order, the order's creator for a Sell order. */
  function Sender(o: TokenOrder, caller: Principal): Principal
  {
    if o.orderType.Buy? then caller else o.seller
  }

  /** Who receives the tokens when `caller` executes `o`. */
  function Receiver(o: TokenOrder, caller: Principal): Principal
  {
    if o.orderType.Buy? then o.seller else caller
  }

  /** The expiry test of `execute_order`: strictly past `expires_at`. */
  predicate OrderExpired(o: TokenOrder, now: nat)
  {
    o.expiresAt < now
  }

  /** The state `execute_order` leaves behind when it fills order `o` for `caller`. */
  ghost predicate Filled(c: Canister, oldLastId: nat, oldInvestments: map<nat, Investment>,
                         oldPortfolios: map<Principal, Portfolio>, oldMarketData: map<nat, MarketData>,
                         oldOrders: map<nat, TokenOrder>, orderId: nat, o: TokenOrder, filled: TokenOrder,
                         caller: Principal, now: nat)
    reads c
  {
    var id := oldLastId + 1;
    && filled == o.(buyer := Some(caller), status := OrderStatus.Filled)
    && c.orders == oldOrders[orderId := filled]
    && c.LastId() == id && id !in oldInvestments
    && c.investments == oldInvestments[id :=
         Investment(id, Receiver(o, caller), o.propertyId, o.tokenAmount, 0, now, InvestmentStatus.Confirmed)]
    && c.portfolios == AfterTrade(oldPortfolios, Sender(o, caller), Receiver(o, caller),
                                  o.propertyId, o.tokenAmount, now)
    && c.marketData == oldMarketData[o.propertyId :=
         UpdatedMarketData(oldMarketData, o.propertyId, o.pricePerToken, o.tokenAmount, now)]
  }

  /** The filling half of `execute_order`, once every check has passed. */
  method FillOrder(c: Canister, caller: Principal, now: nat, orderId: nat) returns (filled: TokenOrder)
    requires c.Valid()
    requires c.LastId() < MaxU64
    requires orderId in c.orders
    requires var o := c.orders[orderId];
      && HeldIn(c.portfolios, Receiver(o, caller), o.propertyId) + o.tokenAmount <= MaxU64
      && (o.propertyId in c.marketData ==>
            c.marketData[o.propertyId].tradingVolume24h + o.tokenAmount <= MaxU64)
    modifies c`idCounter, c`investments, c`orders, c`portfolios, c`marketData
    ensures c.Valid()
    ensures Filled(c, old(c.LastId()), old(c.investments), old(c.portfolios), old(c.marketData),
                   old(c.orders), orderId, old(c.orders[orderId]), filled, caller, now)
  {
    var order := c.orders[orderId];
    // a Buy order's creator receives the tokens, a Sell order's creator gives them
    TransferTokens(c, Sender(order, caller), Receiver(order, caller), order.propertyId, order.tokenAmount, now);
    order := order.(buyer := Some(caller), status := OrderStatus.Filled);
    StoreOrder(c, order);
    UpdateMarketData(c, order.propertyId, order.pricePerToken, order.tokenAmount, now);
    filled := order;
  }

  /**
   * `execute_order`. After the identity gates the order must exist and be Active.
   * An Active order past its expiry is stored as Expired and the call still
   * returns an error. Executing a Buy order sells the caller's tokens to its
   * creator and needs a balance of at least `token_amount`; executing a Sell order
   * buys them from its creator without any check. Either way the receiver is
   * minted the tokens, the order is stored as Filled with `buyer = Some(caller)`,
   * and the market data is updated.
   */
  method ExecuteOrder(c: Canister, caller: Principal, now: nat, orderId: nat)
    returns (r: Result<TokenOrder>)
    requires c.Valid()
    // a Buy order's balance is summed only once the order is found live
    requires caller != Anonymous && ValidateKyc(c.users, caller).Ok? && orderId in c.orders ==>
      var o := c.orders[orderId];
      o.status.Active? && !OrderExpired(o, now) && o.orderType.Buy? ==>
        TokenBalance(c.investments, caller, o.propertyId) <= MaxU64
    // the transfer and the market data update run only for an order that is filled
    requires caller != Anonymous && ValidateKyc(c.users, caller).Ok? && orderId in c.orders ==>
      var o := c.orders[orderId];
      && o.status.Active? && !OrderExpired(o, now)
      && (o.orderType.Buy? ==> TokenBalance(c.investments, caller, o.propertyId) >= o.tokenAmount)
      ==>
      && c.LastId() < MaxU64
      && HeldIn(c.portfolios, Receiver(o, caller), o.propertyId) + o.tokenAmount <= MaxU64
      && (o.propertyId in c.marketData ==>
            c.marketData[o.propertyId].tradingVolume24h + o.tokenAmount <= MaxU64)
    modifies c`idCounter, c`investments, c`orders, c`portfolios, c`marketData
    ensures c.Valid()
    ensures caller == Anonymous ==> r == Err("Authentication required")
    ensures caller != Anonymous && ValidateKyc(c.users, caller).Err? ==>
              r == Err(ValidateKyc(c.users, caller).error)
    ensures caller != Anonymous && ValidateKyc(c.users, caller).Ok? ==>
              && (orderId !in old(c.orders) ==> r == Err("Order not found"))
              && (orderId in old(c.orders) && !old(c.orders)[orderId].status.Active? ==>
                    r == Err("Order is not active"))
    // an expired order is written back as Expired, although the call fails
    ensures
      && caller != Anonymous && ValidateKyc(c.users, caller).Ok? && orderId in old(c.orders)
      && old(c.orders)[orderId].status.Active? && OrderExpired(old(c.orders)[orderId], now)
      ==>
      && r == Err("Order has expired")
      && c.orders == old(c.orders)[orderId := old(c.orders)[orderId].(status := OrderStatus.Expired)]
      && c.idCounter == old(c.idCounter) && c.investments == old(c.investments)
      && c.portfolios == old(c.portfolios) && c.marketData == old(c.marketData)
    ensures caller != Anonymous && ValidateKyc(c.users, caller).Ok? && orderId in old(c.orders) ==>
      var o := old(c.orders)[orderId];
      (o.status.Active? && !OrderExpired(o, now) && o.orderType.Buy?
       && old(TokenBalance(c.investments, caller, o.propertyId)) < o.tokenAmount ==>
         r == Err("Insufficient tokens to sell"))
    ensures r.Err? && r != Err("Order has expired") ==>
      && c.orders == old(c.orders) && c.idCounter == old(c.idCounter)
      && c.investments == old(c.investments) && c.portfolios == old(c.portfolios)
      && c.marketData == old(c.marketData)
    ensures r.Ok? <==>
      && caller != Anonymous && ValidateKyc(c.users, caller).Ok? && orderId in old(c.orders)
      && var o := old(c.orders)[orderId];
      && o.status.Active? && !OrderExpired(o, now)
      && (o.orderType.Buy? ==> old(TokenBalance(c.investments, caller, o.propertyId)) >= o.tokenAmount)
    ensures r.Ok? ==>
      && orderId in old(c.orders)
      && Filled(c, old(c.LastId()), old(c.investments), old(c.portfolios), old(c.marketData),
                old(c.orders), orderId, old(c.orders[orderId]), r.value, caller, now)
  {
    var auth := IsAuthenticated(caller);
    if auth.Err? {
      return Err(auth.error);
    }
    var kyc := ValidateKyc(c.users, caller);
    if kyc.Err? {
      return Err(kyc.error);
    }
    if orderId !in c.orders {
      return Err("Order not found");
    }
    var order := c.orders[orderId];
    if !order.status.Active? {
      return Err("Order is not active");
    }
    if order.expiresAt < now {
      order := order.(status := OrderStatus.Expired);
      StoreOrder(c, order);
      return Err("Order has expired");
    }
    if order.orderType.Buy? {
      var sellerTokens := TokenBalance(c.investments, caller, order.propertyId);
      if sellerTokens < order.tokenAmount {
        return Err("Insufficient tokens to sell");
      }
    }
    order := FillOrder(c, caller, now, orderId);
    r := Ok(order);
  }

  /**
   * `get_active_orders`: the orders of the property that are Active and whose
   * `expires_at` is strictly after now.
   */
  function GetActiveOrders(orders: map<nat, TokenOrder>, pid: nat, now: nat): (r: seq<TokenOrder>)
    ensures forall i :: 0 <= i < |r| ==>
              r[i] in orders.Values && r[i].propertyId == pid && r[i].status.Active? && r[i].expiresAt > now
    ensures forall id :: (id in orders && orders[id].propertyId == pid && orders[id].status.Active?
                          && orders[id].expiresAt > now) ==> orders[id] in r
    ensures (forall k :: k in orders ==> orders[k].id == k) ==>
              forall i, j :: 0 <= i < j < |r| ==> r[i].id < r[j].id
  {
    var all, id, keep := Entries(orders), (o: TokenOrder) => o.id, (o: TokenOrder) => o.propertyId == pid && o.status.Active? && o.expiresAt > now;
    EntriesIncreasing(orders, id);
    FilterKeepsOrder(all, keep, id);
    Filter(all, keep)
  }

  /** `get_user_orders`: the orders the user created or executed. */
  function GetUserOrders(orders: map<nat, TokenOrder>, user: Principal): (r: seq<TokenOrder>)
    ensures forall i :: 0 <= i < |r| ==>
              r[i] in orders.Values && (r[i].seller == user || r[i].buyer == Some(user))
    ensures forall id :: id in orders && (orders[id].seller == user || orders[id].buyer == Some(user)) ==>
              orders[id] in r
    ensures (forall k :: k in orders ==> orders[k].id == k) ==>
              forall i, j :: 0 <= i < j < |r| ==> r[i].id < r[j].id
  {
    var all, id, keep := Entries(orders), (o: TokenOrder) => o.id, (o: TokenOrder) => o.seller == user || o.buyer == Some(user);
    EntriesIncreasing(orders, id);
    FilterKeepsOrder(all, keep, id);
    Filter(all, keep)
  }

  /**
   * The two expiry tests disagree at the boundary: an Active order whose
   * `expires_at` equals now is no longer listed as active, yet `execute_order`
   * does not treat it as expired and will fill it.
   */
  lemma ExpiryBoundaryDiffers(orders: map<nat, TokenOrder>, id: nat, now: nat)
    requires id in orders && orders[id].status.Active? && orders[id].expiresAt == now
    ensures orders[id] !in GetActiveOrders(orders, orders[id].propertyId, now)
    ensures !OrderExpired(orders[id], now)
  {
  }
}
