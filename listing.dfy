/**
 * The property record the two frontend pages display: a plain JavaScript
 * object. `contact` and `fundedPercentage` may be missing, which the details
 * page handles with fallbacks.
 */
module Listings {

  import opened Wrappers

  datatype Listing = Listing(
    id: string,
    title: string,
    imageUrl: string,
    description: string,
    price: string,
    location: string,
    features: seq<string>,
    contact: Option<string>,
    fundedPercentage: Option<int>)
}
