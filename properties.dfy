/** Tokenised property listings (`property.rs`). */
module Properties {

  import opened Wrappers
  import opened Types
  import opened Storage
  import opened Utils

  /** The first dividend is scheduled 90 days after listing, in nanoseconds. */
  const DividendInterval: nat := 90 * NanosPerDay

  /**
   * `create_property`: an authenticated, KYC-verified caller lists a property. The
   * id is drawn only after both gates pass. The whole supply is available, the
   * token price is the value divided by the supply, rounded down, and the first
   * dividend is due 90 days from now. A supply of 0 makes the division trap, which
   * rolls the message back; callers that reach the division must avoid it.
   */
  method CreateProperty(c: Canister, caller: Principal, now: nat, payload: CreatePropertyPayload)
    returns (r: Result<Property>)
    requires c.Valid()
    // the id, the division and the dividend date are computed only once both gates pass
    requires caller != Anonymous && ValidateKyc(c.users, caller).Ok? ==>
               c.LastId() < MaxU64 && payload.totalTokens > 0 && now + DividendInterval <= MaxU64
    modifies c`idCounter, c`properties
    ensures c.Valid()
    ensures caller == Anonymous ==> r == Err("Authentication required")
    ensures caller != Anonymous && ValidateKyc(c.users, caller).Err? ==>
              r == Err(ValidateKyc(c.users, caller).error)
    ensures r.Err? ==> c.idCounter == old(c.idCounter) && c.properties == old(c.properties)
    ensures r.Ok? <==> caller != Anonymous && ValidateKyc(c.users, caller).Ok?
    ensures r.Ok? ==>
      && var p := r.value;
      && p.id == old(c.LastId()) + 1 && c.LastId() == p.id && p.id !in old(c.properties)
      && c.properties == old(c.properties)[p.id := p]
      && p.title == payload.title && p.description == payload.description
      && p.location == payload.location && p.totalValue == payload.totalValue
      && p.totalTokens == payload.totalTokens && p.availableTokens == payload.totalTokens
      && p.pricePerToken == payload.totalValue / payload.totalTokens
      && p.owner == caller && p.status == PropertyStatus.Active
      && p.createdAt == now && p.updatedAt == now && p.valuationDate == now
      && p.nextDividendDate == now + DividendInterval
      && p.propertyType == payload.propertyType && p.images == payload.images
      && p.documents == payload.documents
      && p.propertyHighlights == payload.propertyHighlights
      && p.legalStructure == payload.legalStructure
  {
    var auth := IsAuthenticated(caller);
    if auth.Err? {
      return Err(auth.error);
    }
    var kyc := ValidateKyc(c.users, caller);
    if kyc.Err? {
      return Err(kyc.error);
    }
    var propertyId := c.NextId();
    var currentTime := now;
    var pricePerToken := payload.totalValue / payload.totalTokens;
    var property := Property(
      propertyId, payload.title, payload.description, payload.location,
      payload.totalValue, payload.totalTokens, payload.totalTokens, pricePerToken,
      caller, currentTime, currentTime, payload.propertyType, PropertyStatus.Active,
      payload.images, payload.documents, payload.propertyHighlights, payload.legalStructure,
      currentTime, currentTime + 90 * 24 * 3600 * 1_000_000_000);
    c.properties := c.properties[propertyId := property];
    r := Ok(property);
  }

  /**
   * `get_all_properties`: every stored property once, and nothing else, in
   * ascending key order; so by ascending id when each is stored under its id.
   */
  function GetAllProperties(store: map<nat, Property>): (r: seq<Property>)
    ensures |r| == |store|
    ensures forall i :: 0 <= i < |r| ==> r[i] in store.Values
    ensures forall id :: id in store ==> store[id] in r
    ensures (forall k :: k in store ==> store[k].id == k) ==>
              forall i, j :: 0 <= i < j < |r| ==> r[i].id < r[j].id
  {
    EntriesIncreasing(store, (p: Property) => p.id);
    Entries(store)
  }

  /**
   * The division rounds down: the listed tokens, at their price, never cost more
   * than the property's value, and less than one more token's worth below it.
   */
  lemma PriceRoundsDown(p: Property, payload: CreatePropertyPayload)
    requires payload.totalTokens > 0
    requires p.pricePerToken == payload.totalValue / payload.totalTokens
    requires p.totalTokens == payload.totalTokens && p.totalValue == payload.totalValue
    ensures p.pricePerToken * p.totalTokens <= p.totalValue < (p.pricePerToken + 1) * p.totalTokens
  {
  }
}
