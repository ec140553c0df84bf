# Tokenised real-estate platform: a Dafny model

This project models the core of a tokenised real-estate platform and proves properties of the model. The platform has two parts:

- An Internet Computer canister written in Rust. It keeps users, properties, investments, token orders, portfolios, governance proposals and market data in nine stable key-value stores, plus one shared id counter.
- A React frontend. Its listing page sorts a small catalogue by price, and its details page resolves which listing to show.

The backend is modelled imperatively:

- `Storage.Canister` is a class with one `map` field per store.
- Each update call is a method that takes the canister and names, in its `modifies` clause, exactly the stores it writes.
- Every method preserves `Canister.Valid()`. Under `Valid()`, every record sits under its own id or principal, and no id is beyond the counter. Investments, orders and proposals name stored properties.

The caller principal (`ic_cdk::caller()`) and the clock (`time()`) are parameters, `caller` and `now`. A query is a function over the stores it reads. Iterating a `StableBTreeMap` visits keys in ascending order. `Storage.Entries` lists values in that order, `Storage.Filter` keeps the order of what it keeps, and `Storage.SumOf` adds terms in that order.

Rust `u64` arithmetic is modelled on unbounded naturals. Each operation requires that its sums and products stay at or below 2^64 - 1, but only on the path where the source computes them. A call the source refuses before reaching that arithmetic carries no such requirement. The source's overflow behaviour depends on the build profile, so the model does not pick one.

An `Err` returned from an update call does not roll state back on the Internet Computer. The model keeps such writes: an order past its expiry is stored as Expired, and a proposal past its voting period is stored as Rejected, even though the call fails.

The frontend is modelled with functions:

- The listing page's price key is the number spelled by the price string's digits. `None` stands for JavaScript's `NaN`.
- The comparator is a function of that key.
- `Array.prototype.sort` is a stable insertion sort.
- On the details page, a listing carried in navigation state wins. Otherwise the route id is looked up in the page's own mock data.

Several results follow from the model as written:

- Trading mints tokens for the receiver and never debits the sender's investments (`Marketplace.TradeMintsWithoutDebit`).
- `invest_in_property` never lowers `available_tokens`, so the same supply can be sold twice (`Investments.InvestingTwiceOversubscribes`).
- A voter can vote any number of times (`Governance.VotingTwiceCountsTwice`).
- The 51% threshold rounds down, so for some supplies it falls below a majority: 1 vote out of 3 tokens passes a proposal (`Governance.ThresholdBelowMajority`).
- No operation makes a user KYC-verified (`Compliance.SignUpStaysUnverified`).
- An order whose expiry equals the current time is not listed as active, but it can still be executed (`Marketplace.ExpiryBoundaryDiffers`).
- The two frontend pages disagree on listing "1": 70% funded when opened from the listing, 45% on a direct link (`PropertyDetailsPage.CarriedAndDirectDisagree`).

Two behaviours a reader might expect are absent from the code, and the model follows the code:

- The funded percentage is shown, and used as the bar's width, without clamping to 0–100.
- There is no wallet-session logic: the "Connect Wallet" buttons have no handler.

## Model

| member | source | states |
|---|---|---|
| Storage.Canister.constructor | src/real-estate-app-backend/src/storage.rs:102-142 | A fresh canister has all nine stores empty, a counter that reads 0, no verified user, and is `Valid()`. |
| Storage.Canister.NextId | src/real-estate-app-backend/src/storage.rs:144-151 | Returns the stored value (0 if absent) plus 1 and writes it back under key 0; nothing but the counter changes, the id is strictly larger than any issued before, and it is absent from the property, investment, order and proposal stores. |
| Storage.MinKey | src/real-estate-app-backend/src/storage.rs:102-142 | The key an ascending iteration visits first is in the set and below every other key. |
| Storage.Entries | src/real-estate-app-backend/src/property.rs:47-51 | `iter().map(..).collect()` yields one element per entry: the i-th element is the value under the i-th smallest key. Every stored value appears, and nothing else does. |
| Storage.Filter | src/real-estate-app-backend/src/investment.rs:71-79 | `iter().filter(p)` keeps exactly the elements that satisfy `p`. |
| Storage.SumOfInsert | src/real-estate-app-backend/src/marketplace.rs:133-142 | Storing a value under a new key adds exactly its term to a `.map(f).sum()` over the store. |
| Storage.SumOfPositive | src/real-estate-app-backend/src/marketplace.rs:133-142 | A positive sum has an entry with a positive term. |
| Storage.SumOf | src/real-estate-app-backend/src/marketplace.rs:138-139 | No entry's term exceeds the `.map(f).sum()` over the store. |
| Utils.IsAuthenticated | src/real-estate-app-backend/src/utils.rs:6-13 | Ok exactly for a non-anonymous caller, returning that caller; otherwise "Authentication required". |
| Utils.ValidateKyc | src/real-estate-app-backend/src/utils.rs:15-27 | Ok iff the user has a profile with status Verified; a missing profile and each other status give their own message. |
| Utils.KycRefusalsDistinct | src/real-estate-app-backend/src/utils.rs:18-24 | Two equal refusals come from the same cause: both users unknown, or both with the same status. |
| Utils.ValidateKycReadsOnlyStatus | src/real-estate-app-backend/src/utils.rs:15-27 | The verdict depends only on whether a profile exists and on its status. |
| Users.GetUserProfile | src/real-estate-app-backend/src/user.rs:36-42 | The stored profile, or "User profile not found" exactly when there is none. |
| Users.CreateUserProfile | src/real-estate-app-backend/src/user.rs:7-34 | Anonymous callers, and callers that already have a profile, are refused with the store unchanged. Otherwise a Pending profile with the default limit 100000, jurisdiction "Unknown" and a Conservative risk profile is stored under the caller, and it is what `get_user_profile` then returns. The set of verified users is unchanged. |
| Compliance.SubmitKycDocuments | src/real-estate-app-backend/src/compliance.rs:6-31 | For an existing profile, stores a Basic verification valid for 365 days and sets the status to Pending. A previously verified user loses verification, and no other field or user changes. It is refused without a profile or for the anonymous caller. |
| Compliance.SignUpStaysUnverified | src/real-estate-app-backend/src/compliance.rs:6-31 | From a fresh canister, creating a profile and then submitting documents leaves nobody verified, and `validate_kyc` answers "KYC verification pending". |
| Properties.CreateProperty | src/real-estate-app-backend/src/property.rs:6-44 | The gates come in source order, and an id is drawn only after both pass. The new property is stored under that id with its whole supply available, the token price `total_value / total_tokens` rounded down, status Active, and the first dividend 90 days out. |
| Properties.GetAllProperties | src/real-estate-app-backend/src/property.rs:46-51 | One element per stored property, every stored property, and nothing else; when each is stored under its own id, in strictly ascending id order. |
| Properties.PriceRoundsDown | src/real-estate-app-backend/src/property.rs:13 | The supply priced at `price_per_token` never exceeds `total_value`, and falls less than one token's worth per token short of it. |
| Investments.InvestInProperty | src/real-estate-app-backend/src/investment.rs:32-68 | The refusals come in source order. Asking for exactly the available tokens is allowed. On success, a Confirmed record priced at `token_amount * price_per_token` is stored under a fresh id, and the tokens issued for the property grow by `token_amount`. A refusal changes nothing. |
| Investments.GetInvestmentsByUser | src/real-estate-app-backend/src/investment.rs:70-79 | Exactly the stored investments whose investor is the user. |
| Investments.InvestingTwiceOversubscribes | src/real-estate-app-backend/src/investment.rs:46-65 | Two purchases of the whole available supply both succeed and leave the property unchanged, so twice the supply is recorded as issued. |
| Marketplace.TokenBalance | src/real-estate-app-backend/src/marketplace.rs:133-142 | The sum of the user's `token_amount` in the property; a positive balance implies a stored investment of the user in it. |
| Marketplace.TradeMintsWithoutDebit | src/real-estate-app-backend/src/marketplace.rs:144-159 | The minted record raises the receiver's balance and the tokens issued by `amount`. The sender's balance does not fall, and for a distinct sender it is unchanged. |
| Marketplace.TransferTokens | src/real-estate-app-backend/src/marketplace.rs:144-165 | Draws one id, stores exactly one new Confirmed investment of `amount` for the receiver with amount 0, and applies the portfolio update. |
| Marketplace.FindHolding | src/real-estate-app-backend/src/marketplace.rs:199 | The index of the first holding of the property, or the length when there is none. |
| Marketplace.DebitAt | src/real-estate-app-backend/src/marketplace.rs:199-200 | Lowering the first matching holding in place, floored at 0, is the same as the seller-side update `Debit`. |
| Marketplace.CreditAt | src/real-estate-app-backend/src/marketplace.rs:223-234 | Raising the first matching holding in place, or appending a new holding when there is none, is the same as the buyer-side update `Credit`. |
| Marketplace.DebitHeld | src/real-estate-app-backend/src/marketplace.rs:196-204 | The seller's holding of the property drops by the amount, saturating at 0; other properties are unchanged. |
| Marketplace.CreditHeld | src/real-estate-app-backend/src/marketplace.rs:207-237 | The buyer's holding of the property rises by the amount; other properties are unchanged. |
| Marketplace.DebitSender | src/real-estate-app-backend/src/marketplace.rs:196-204 | The store becomes the debited one; a seller without a portfolio is left without one. |
| Marketplace.CreditReceiver | src/real-estate-app-backend/src/marketplace.rs:207-237 | The store becomes the credited one, creating an empty portfolio first when the buyer has none. |
| Marketplace.UpdatePortfolioAfterTrade | src/real-estate-app-backend/src/marketplace.rs:194-240 | The portfolio store becomes the debit-then-credit of the old one. |
| Marketplace.AfterTrade | src/real-estate-app-backend/src/marketplace.rs:194-240 | After a trade the receiver always has a portfolio, and the portfolio of every principal other than the two parties is unchanged. |
| Marketplace.AfterTradeHoldings | src/real-estate-app-backend/src/marketplace.rs:194-240 | Between distinct principals, the buyer gains exactly `amount` and the seller loses `amount`, saturating at 0. A self-trade floors then credits. Every principal's holdings of other properties are unchanged. |
| Marketplace.UpdatedMarketData | src/real-estate-app-backend/src/marketplace.rs:167-192 | The new record has the given property, price and timestamp; without a stored record, volume equals the trade and market cap is 0; otherwise the trade is added to the stored volume. |
| Marketplace.UpdateMarketData | src/real-estate-app-backend/src/marketplace.rs:167-192 | Only the property's market record changes. |
| Marketplace.StoreOrder | src/real-estate-app-backend/src/marketplace.rs:46-48 | Inserting an issued order about a stored property keeps the canister valid and changes only that key. |
| Marketplace.CreateTokenOrder | src/real-estate-app-backend/src/marketplace.rs:9-51 | The refusals come in source order. Only Sell orders are checked against the balance. On success an Active order is stored under a fresh id, with the caller as seller, total price `amount * price`, and expiry `now + hours * 3600 * 10^9`. A refusal changes nothing. |
| Marketplace.FillOrder | src/real-estate-app-backend/src/marketplace.rs:75-102 | Tokens move from Sender to Receiver, the order is stored Filled with buyer `Some(caller)`, and the market data is updated with the order's price and amount. |
| Marketplace.ExecuteOrder | src/real-estate-app-backend/src/marketplace.rs:53-105 | The refusals come in source order. An Active order strictly past its expiry is stored as Expired while the call fails. Only a Buy execution checks the caller's balance. Success happens exactly when every check passes, and leaves the Filled state. Every other failure changes nothing. |
| Marketplace.GetActiveOrders | src/real-estate-app-backend/src/marketplace.rs:107-120 | Exactly the property's Active orders whose expiry is strictly after now. |
| Marketplace.GetUserOrders | src/real-estate-app-backend/src/marketplace.rs:122-131 | Exactly the orders the user created or bought. |
| Marketplace.ExpiryBoundaryDiffers | src/real-estate-app-backend/src/marketplace.rs:67-115 | An Active order expiring exactly now is left out of the active list, yet `execute_order` does not treat it as expired. |
| Governance.RequiredVotingPower | src/real-estate-app-backend/src/governance.rs:107-115 | Ok iff the property exists; the value is 51% of `total_tokens`, rounded down. |
| Governance.SingleTokenNeedsNoVotes | src/real-estate-app-backend/src/governance.rs:114 | A property of at most one token has a threshold of 0. |
| Governance.ThresholdBelowMajority | src/real-estate-app-backend/src/governance.rs:113-114 | With three tokens the threshold is 1, less than a majority; so rounding down can put the threshold below a majority. |
| Governance.StoreProposal | src/real-estate-app-backend/src/governance.rs:44-46 | Inserting an issued proposal about a stored property keeps the canister valid and changes only that key. |
| Governance.CreateProposal | src/real-estate-app-backend/src/governance.rs:8-49 | The refusals come in source order, ending with "Must own tokens to create proposals". On success an Active proposal with no votes, the 51% threshold and `voting_ends_at = now + hours * 3600 * 10^9` is stored under a fresh id, and the property exists. |
| Governance.Tally | src/real-estate-app-backend/src/governance.rs:78-87 | The power goes to the chosen side only. The proposal passes iff the votes for reach the threshold or it had already passed. Nothing else changes. |
| Governance.AgainstVoteCanPass | src/real-estate-app-backend/src/governance.rs:78-87 | A vote against a proposal already at its threshold marks it Passed. |
| Governance.CountVote | src/real-estate-app-backend/src/governance.rs:78-91 | The stored proposal is replaced by its tally. |
| Governance.VoteOnProposal | src/real-estate-app-backend/src/governance.rs:51-94 | The refusals come in source order. A proposal strictly past its voting period is stored as Rejected while the call fails. A voter with no balance is refused. Success happens exactly when every check passes, and stores the tally. |
| Governance.VotingTwiceCountsTwice | src/real-estate-app-backend/src/governance.rs:51-94 | Two votes by the same holder both succeed and add twice the balance. |
| Governance.GetPropertyProposals | src/real-estate-app-backend/src/governance.rs:96-105 | Exactly the stored proposals about the property. |
| Analytics.GetPlatformAnalytics | src/real-estate-app-backend/src/analytics.rs:5-28 | The property, investment and user counts, the sum of `total_value`, and 0 for the other four figures. |
| Analytics.TotalValueLockedGrows | src/real-estate-app-backend/src/analytics.rs:11-16 | Listing a property adds its whole `total_value` to the value locked. |
| Analytics.NothingLockedWithoutValue | src/real-estate-app-backend/src/analytics.rs:11-16 | The value locked is 0 iff every property's `total_value` is 0. |
| PropertiesPage.DigitsFrom | src/real-estate-app-frontend/src/pages/Properties.jsx:54-55 | `replace(/[^0-9]/g, "")` leaves only digits. |
| PropertiesPage.DigitsFromEmpty | src/real-estate-app-frontend/src/pages/Properties.jsx:54-55 | Nothing is left exactly when the price has no digit. |
| PropertiesPage.PriceKey | src/real-estate-app-frontend/src/pages/Properties.jsx:54-55 | The key is `NaN` (None) exactly when the price has no digit. |
| PropertiesPage.DigitsFromAppend | src/real-estate-app-frontend/src/pages/Properties.jsx:54-55 | One more character keeps every digit extracted so far, in order, and adds itself if it is a digit. |
| PropertiesPage.HornerAppend | src/real-estate-app-frontend/src/pages/Properties.jsx:54-55 | `parseInt` reads digits left to right: one more digit gives ten times the value so far plus that digit. |
| PropertiesPage.PriceKeyAppend | src/real-estate-app-frontend/src/pages/Properties.jsx:54-55 | For every string: the empty price has no key, an appended digit makes the key ten times the previous key (0 if none) plus the digit, and any other character leaves it unchanged. So the key is the decimal number spelled by all the price's digits, in order. |
| PropertiesPage.Compare | src/real-estate-app-frontend/src/pages/Properties.jsx:53-59 | Any order other than the two named ones, or a `NaN` key, compares as 0. |
| PropertiesPage.Insert | src/real-estate-app-frontend/src/pages/Properties.jsx:53 | One insertion step of the stable sort adds exactly one element; its permutation, order and stability facts are `InsertPermutes`, `InsertSorted` and `InsertStable`. |
| PropertiesPage.InsertPermutes | src/real-estate-app-frontend/src/pages/Properties.jsx:53 | Inserting adds the element and loses nothing. |
| PropertiesPage.Sort | src/real-estate-app-frontend/src/pages/Properties.jsx:53 | The sorted list has the input's length and is a permutation of the input. |
| PropertiesPage.SortedProperties | src/real-estate-app-frontend/src/pages/Properties.jsx:53-59 | The page's list is a permutation of the catalogue; the sort runs on a copy. |
| PropertiesPage.ComparatorIsPreorder | src/real-estate-app-frontend/src/pages/Properties.jsx:53-59 | On prices that contain a digit, the comparator is antisymmetric and transitive. |
| PropertiesPage.SortSorted | src/real-estate-app-frontend/src/pages/Properties.jsx:53 | Under such a comparator, the sort's output is ordered. |
| PropertiesPage.PageSortOrdered | src/real-estate-app-frontend/src/pages/Properties.jsx:53-59 | When every price has a digit, "lowToHigh" gives ascending keys and "highToLow" descending ones. |
| PropertiesPage.ComparatorSeparatesOnlyKeys | src/real-estate-app-frontend/src/pages/Properties.jsx:56-58 | The comparator treats listings with equal keys as equal. |
| PropertiesPage.SortStable | src/real-estate-app-frontend/src/pages/Properties.jsx:53 | For each key, the listings with that key keep their relative order. |
| PropertiesPage.PageSortStable | src/real-estate-app-frontend/src/pages/Properties.jsx:53-59 | The modelled insertion sort, under the page's comparator, keeps listings with equal keys (`NaN` included) in their input order, on any input. |
| PropertiesPage.SortKeepsOrder | src/real-estate-app-frontend/src/pages/Properties.jsx:58 | A comparator that answers 0 for every pair leaves any list as it is. |
| PropertiesPage.UnsortedKeepsOrder | src/real-estate-app-frontend/src/pages/Properties.jsx:51-58 | The initial order "" (or any other unnamed order) leaves the list as written. |
| PropertiesPage.ApartmentKey | src/real-estate-app-frontend/src/pages/Properties.jsx:14 | "350,000 ICP" has key 350000. |
| PropertiesPage.HouseKey | src/real-estate-app-frontend/src/pages/Properties.jsx:26 | "500,000 ICP" has key 500000. |
| PropertiesPage.CatalogueLowToHigh | src/real-estate-app-frontend/src/pages/Properties.jsx:7-32 | On the catalogue, "lowToHigh" lists id 1 then id 2. |
| PropertiesPage.CatalogueHighToLow | src/real-estate-app-frontend/src/pages/Properties.jsx:7-32 | On the catalogue, "highToLow" lists id 2 then id 1. |
| PropertiesPage.CatalogueUnsorted | src/real-estate-app-frontend/src/pages/Properties.jsx:51 | The initial order keeps id 1 then id 2. |
| PropertyDetailsPage.FirstWith | src/real-estate-app-frontend/src/pages/PropertyDetails.jsx:41 | The index of the first listing whose id equals the route id exactly, or the length. |
| PropertyDetailsPage.Find | src/real-estate-app-frontend/src/pages/PropertyDetails.jsx:41 | `find` returns nothing iff no id matches; otherwise it returns the first match. |
| PropertyDetailsPage.Resolve | src/real-estate-app-frontend/src/pages/PropertyDetails.jsx:10-45 | A carried listing is used as is. Otherwise the first mock listing with the route id is used, and not-found happens iff no mock id matches. |
| PropertyDetailsPage.FundedShown | src/real-estate-app-frontend/src/pages/PropertyDetails.jsx:89-100 | A present non-zero value is shown as is, without clamping; a missing value or 0 shows as 0. |
| PropertyDetailsPage.ContactShown | src/real-estate-app-frontend/src/pages/PropertyDetails.jsx:113 | A present non-empty contact is shown; a missing or empty one becomes "Contact agent for more details.". The result is never empty. |
| PropertyDetailsPage.Render | src/real-estate-app-frontend/src/pages/PropertyDetails.jsx:50-113 | Not-found renders the message and nothing else; a found listing renders its title and price with the two fallbacks. |
| PropertyDetailsPage.UnknownRouteRendersMessage | src/real-estate-app-frontend/src/pages/PropertyDetails.jsx:50-52 | An unmatched route renders the "Property not found" message. |
| PropertyDetailsPage.CarriedIgnoresRoute | src/real-estate-app-frontend/src/pages/PropertyDetails.jsx:10-40 | A carried listing is shown whatever the route id. |
| PropertyDetailsPage.RouteOneIsModernApartment | src/real-estate-app-frontend/src/pages/PropertyDetails.jsx:13-41 | Route "1" shows the mock "Modern Apartment". |
| PropertyDetailsPage.RouteNineNotFound | src/real-estate-app-frontend/src/pages/PropertyDetails.jsx:13-41 | Route "9" resolves to not-found. |
| PropertyDetailsPage.FundedNotClamped | src/real-estate-app-frontend/src/pages/PropertyDetails.jsx:89-100 | 150 shows 150 and -5 shows -5. |
| PropertyDetailsPage.CarriedAndDirectDisagree | src/real-estate-app-frontend/src/pages/Properties.jsx:139-140 | Listing "1" opened from the listing page shows 70% funded; the direct route shows the mock's 45%. |

## Left out

- Candid encoding and decoding of stored values, the `StableBTreeMap` internals and the memory manager: each store is a Dafny map.
- The dividend store: the store exists and starts empty, but no modelled operation reads or writes it.
- `ic_cdk::caller()` and `time()`: they are the parameters `caller` and `now`. The canister runs one message at a time, so there is no concurrency to model.
- Floating-point fields: `price_change_24h`, `liquidity_score`, `PerformanceMetrics`, `rental_yield` and `appreciation_rate` are not part of the datatypes.
- `lib.rs`: module wiring and `export_candid!`. `get_enhanced_platform_stats` only forwards to `get_platform_analytics`.
- Storage.Canister.NextId: the 64-bit counter overflow is excluded by a precondition rather than modelled.
- Properties.CreateProperty: overflow of the dividend date and division by a zero supply are excluded by preconditions that apply only once both identity gates pass; a trap rolls the message back.
- Investments.InvestInProperty: overflow of `token_amount * price_per_token` and of the counter is excluded by preconditions. Each applies only on the path where the source computes that value, so every refusal stays callable.
- Compliance.SubmitKycDocuments: overflow of the expiry date is excluded by a precondition. Each applies only on the path where the source computes that value, so every refusal stays callable.
- Marketplace.CreateTokenOrder: overflow of the expiry, of the total price and of the balance sum is excluded by preconditions. Each applies only on the path where the source computes that value, so every refusal stays callable.
- Marketplace.ExecuteOrder: overflow of the balance sum, of the buyer's holding and of the traded volume is excluded by preconditions. Each applies only on the path where the source computes that value, so every refusal stays callable.
- Marketplace.TransferTokens: overflow of the buyer's holding and of the counter is excluded by preconditions.
- Marketplace.UpdateMarketData: overflow of the traded volume is excluded by a precondition.
- Governance.CreateProposal: overflow of the voting deadline, of `total_tokens * 51` and of the balance sum is excluded by preconditions. Each applies only on the path where the source computes that value. The threshold's "Property not found" branch is unreachable from a valid state, and the model proves that rather than returning it.
- Governance.VoteOnProposal: overflow of the vote counts and of the balance sum is excluded by preconditions. Each applies only on the path where the source computes that value, so every refusal stays callable.
- Analytics.GetPlatformAnalytics: overflow of the `total_value` sum is excluded by a precondition.
- PropertiesPage.PriceKey: `parseInt` loses precision above 2^53. The key is an exact natural number.
- PropertiesPage.PageSortOrdered: it requires a digit in every price. With a `NaN` key the comparator is not a consistent order, and the result of `Array.prototype.sort` is then implementation-defined. The catalogue's prices all have digits.
- PropertiesPage.Sort: one stable algorithm stands for `Array.prototype.sort`, which the language requires to be stable. The comparison sequence of a real engine is not modelled.
- The React plumbing: `useState`, `useEffect` re-running when the route changes, framer-motion animations, the image `onError` placeholder, `window.scrollTo` and `console.log`.
- A wallet session: the "Connect Wallet" buttons have no handler, so there is no wallet logic to model.
- Home.jsx, Navbar.jsx and App.jsx: static sample data, markup, a menu toggle and the routing table. App.jsx routes `/properties` to the details page without an `:id` parameter; that is routing glue.
