/**
 * The details page (`PropertyDetails.jsx`): which listing a route shows, and
 * the fallbacks it renders for a missing funded percentage or contact. The
 * listing carried in the navigation state wins; without one the route id is
 * looked up in the page's own mock data, whose figures differ from the
 * listing page's catalogue.
 */
module PropertyDetailsPage {

  import opened Wrappers
  import opened Listings
  import PropertiesPage

  const Placeholder: string := "https://placehold.co/600x400"

  const MockApartment: Listing := Listing(
    "1", "Modern Apartment", Placeholder,
    "A beautiful modern apartment in the city center.", "$350,000", "Downtown",
    ["2 Bedrooms", "2 Bathrooms", "Balcony", "Gym"], Some("agent@example.com"), Some(45))

  const MockHouse: Listing := Listing(
    "2", "Cozy Suburban House", Placeholder,
    "Cozy family home in a quiet neighborhood.", "$500,000", "Suburbs",
    ["4 Bedrooms", "3 Bathrooms", "Garden", "Garage"], Some("info@homes.com"), Some(70))

  /** `mockProperties`, the fallback data of the page. */
  const MockProperties: seq<Listing> := [MockApartment, MockHouse]

  const NotFoundText: string := "Property not found. Please go back."
  const ContactFallback: string := "Contact agent for more details."

  /** What a route resolves to: a listing to show, or nothing. */
  datatype Resolution = Found(listing: Listing) | NotFound

  /** The position of the first listing whose id is exactly `id`, or `|catalog|` when there is none. */
  function FirstWith(catalog: seq<Listing>, id: string): (k: nat)
    ensures k <= |catalog|
    ensures forall j :: 0 <= j < k ==> catalog[j].id != id
    ensures k < |catalog| ==> catalog[k].id == id
  {
    if catalog == [] || catalog[0].id == id then 0
    else 1 + FirstWith(catalog[1..], id)
  }

  /** `catalog.find(p => p.id === id)`, scanning from the front. */
  function Find(catalog: seq<Listing>, id: string): (r: Option<Listing>)
    ensures r.None? <==> forall i :: 0 <= i < |catalog| ==> catalog[i].id != id
    ensures r.Some? ==> r.value.id == id && r.value == catalog[FirstWith(catalog, id)]
  {
    if catalog == [] then None
    else if catalog[0].id == id then Some(catalog[0])
    else
      assert forall i :: 0 < i < |catalog| ==> catalog[i] == catalog[1..][i - 1];
      Find(catalog[1..], id)
  }

  /**
   * The listing the page shows for route `routeId`: `carried` (the router
   * state's `property`) when present, looked up nowhere; otherwise the first
   * mock listing with that id; otherwise nothing.
   */
  function Resolve(routeId: string, carried: Option<Listing>): (r: Resolution)
    ensures carried.Some? ==> r == Found(carried.value)
    ensures carried.None? ==>
              (r.NotFound? <==> forall i :: 0 <= i < |MockProperties| ==> MockProperties[i].id != routeId)
    ensures carried.None? && r.Found? ==>
              r.listing.id == routeId && r.listing == MockProperties[FirstWith(MockProperties, routeId)]
  {
    if carried.Some? then Found(carried.value)
    else
      var found := Find(MockProperties, routeId);
      if found.Some? then Found(found.value) else NotFound
  }

  /**
   * `fundedPercentage || 0`: the value when it is present and not 0, else 0.
   * The value is shown, and used as the bar's width, without clamping.
   */
  function FundedShown(funded: Option<int>): (n: int)
    ensures funded.Some? && funded.value != 0 ==> n == funded.value
    ensures funded.None? || funded == Some(0) ==> n == 0
  {
    if funded.Some? && funded.value != 0 then funded.value else 0
  }

  /** `contact || 'Contact agent for more details.'`: the contact unless missing or empty. */
  function ContactShown(contact: Option<string>): (s: string)
    ensures s != ""
    ensures contact.Some? && contact.value != "" ==> s == contact.value
    ensures contact.None? || contact == Some("") ==> s == ContactFallback
  {
    if contact.Some? && contact.value != "" then contact.value else ContactFallback
  }

  /** What the page renders: the not-found message, or a listing with its resolved fallbacks. */
  datatype View =
    | Message(text: string)
    | Details(title: string, price: string, location: string, funded: int, contact: string)

  function Render(r: Resolution): (v: View)
    ensures r.NotFound? <==> v == Message(NotFoundText)
    ensures r.Found? ==>
              && v.Details? && v.title == r.listing.title && v.price == r.listing.price
              && v.funded == FundedShown(r.listing.fundedPercentage)
              && v.contact == ContactShown(r.listing.contact)
  {
    match r
    case NotFound => Message(NotFoundText)
    case Found(l) =>
      Details(l.title, l.price, l.location, FundedShown(l.fundedPercentage), ContactShown(l.contact))
  }

  /** A route without carried state and without a matching mock id renders the message. */
  lemma UnknownRouteRendersMessage(routeId: string)
    requires forall i :: 0 <= i < |MockProperties| ==> MockProperties[i].id != routeId
    ensures Render(Resolve(routeId, None)) == Message(NotFoundText)
  {
  }

  /** A carried listing is shown even when its id is not the route's, or is in no catalogue. */
  lemma CarriedIgnoresRoute(routeId: string, l: Listing)
    ensures Resolve(routeId, Some(l)) == Found(l)
    ensures Render(Resolve(routeId, Some(l))).Details?
  {
  }

  /** Route "1" with no carried state shows the mock "Modern Apartment". */
  lemma RouteOneIsModernApartment()
    ensures Resolve("1", None) == Found(MockApartment)
    ensures Resolve("1", None).listing.title == "Modern Apartment"
  {
  }

  /** Route "9" matches no mock listing. */
  lemma RouteNineNotFound()
    ensures Resolve("9", None) == NotFound
  {
  }

  /** A listing funded at 150 shows 150, and a negative one shows as is. */
  lemma FundedNotClamped()
    ensures FundedShown(Some(150)) == 150
    ensures FundedShown(Some(-5)) == -5
  {
  }

  /**
   * Opening listing "1" from the listing page carries the catalogue record and
   * shows 70% funded; following a direct link to the same route shows the mock
   * record's 45%.
   */
  lemma CarriedAndDirectDisagree()
    ensures Render(Resolve("1", Some(PropertiesPage.Apartment))).funded == 70
    ensures Render(Resolve("1", None)).funded == 45
  {
  }
}
