/** KYC document submission (`compliance.rs`). */
module Compliance {

  import opened Wrappers
  import opened Types
  import opened Storage
  import opened Utils
  import opened Users

  /** A submitted verification is valid for 365 days, in nanoseconds. */
  const KycValidity: nat := 365 * NanosPerDay

  /**
   * `submit_kyc_documents`: records a Basic verification with the documents and
   * sets the status back to Pending, whatever it was, so a resubmission demotes a
   * Verified user. Nothing else in the profile changes. `time()` is read twice in
   * the source; within one message it returns the same value, `now`.
   */
  method SubmitKycDocuments(c: Canister, caller: Principal, now: nat, documents: seq<string>)
    returns (r: Result<()>)
    requires c.Valid()
    // the expiry date is computed only for a stored profile
    requires caller != Anonymous && caller in c.users ==> now + KycValidity <= MaxU64
    modifies c`users
    ensures c.Valid()
    ensures caller == Anonymous ==> r == Err("Authentication required")
    ensures caller != Anonymous && caller !in old(c.users) ==> r == Err("User profile not found")
    ensures r.Err? ==> c.users == old(c.users)
    ensures r.Ok? <==> caller != Anonymous && caller in old(c.users)
    ensures r.Ok? ==>
      && caller in c.users
      && var before := old(c.users)[caller];
      && var after := c.users[caller];
      && c.users == old(c.users)[caller := after]
      && after.kycStatus == KycStatus.Pending
      && after.kycVerification == Some(KycVerification(
           caller, KycLevel.Basic, documents, now, now + KycValidity, "System", 50))
      && after == before.(kycStatus := after.kycStatus, kycVerification := after.kycVerification)
    ensures c.VerifiedUsers() == if r.Ok? then old(c.VerifiedUsers()) - {caller} else old(c.VerifiedUsers())
  {
    var auth := IsAuthenticated(caller);
    if auth.Err? {
      return Err(auth.error);
    }
    if caller !in c.users {
      return Err("User profile not found");
    }
    var user := c.users[caller];
    var verification := KycVerification(
      caller, KycLevel.Basic, documents, now, now + 365 * 24 * 3600 * 1_000_000_000, "System", 50);
    user := user.(kycVerification := Some(verification));
    user := user.(kycStatus := KycStatus.Pending);
    c.users := c.users[caller := user];
    r := Ok(());
  }

  /**
   * No operation makes a user Verified: on a freshly installed canister, creating
   * a profile and submitting KYC documents still leaves the caller refused by
   * `validate_kyc`, as Pending, and nobody Verified.
   */
  method SignUpStaysUnverified(caller: Principal, now: nat, name: string, email: string,
                               documents: seq<string>)
    returns (c: Canister, gate: Result<()>)
    requires caller != Anonymous
    requires now + KycValidity <= MaxU64
    ensures c.Valid() && c.VerifiedUsers() == {}
    ensures caller in c.users && c.users[caller].kycVerification.Some?
    ensures gate == Err("KYC verification pending")
  {
    c := new Canister();
    var created := CreateUserProfile(c, caller, now, name, email);
    var submitted := SubmitKycDocuments(c, caller, now, documents);
    gate := ValidateKyc(c.users, caller);
  }
}
