/** User profiles (`user.rs`): creation by the caller and lookup by principal. */
module Users {

  import opened Wrappers
  import opened Types
  import opened Storage
  import opened Utils

  /** `get_user_profile`: the stored profile, or an error exactly when there is none. */
  function GetUserProfile(users: map<Principal, UserProfile>, user: Principal): (r: Result<UserProfile>)
    ensures r.Err? <==> user !in users
    ensures r.Ok? ==> r.value == users[user]
    ensures r.Err? ==> r.error == "User profile not found"
  {
    if user in users then Ok(users[user]) else Err("User profile not found")
  }

  /**
   * `create_user_profile`: an authenticated caller without a profile gets one with
   * the default settings; no KYC is needed. The anonymous caller is refused before
   * the duplicate check, and an existing profile is never overwritten.
   */
  method CreateUserProfile(c: Canister, caller: Principal, now: nat, name: string, email: string)
    returns (r: Result<UserProfile>)
    requires c.Valid()
    modifies c`users
    ensures c.Valid()
    ensures caller == Anonymous ==> r == Err("Authentication required")
    ensures caller != Anonymous && caller in old(c.users) ==> r == Err("User profile already exists")
    ensures r.Err? ==> c.users == old(c.users)
    ensures r.Ok? <==> caller != Anonymous && caller !in old(c.users)
    ensures r.Ok? ==>
      && var u := r.value;
      && u.principal == caller && u.name == name && u.email == email
      && u.kycStatus == KycStatus.Pending && u.kycVerification == None
      && u.createdAt == now && u.totalInvestments == 0 && u.investmentLimit == 100_000
      && !u.accreditedInvestor && u.jurisdiction == "Unknown"
      && u.riskProfile == RiskProfile.Conservative
      && c.users == old(c.users)[caller := u]
    ensures r.Ok? ==> GetUserProfile(c.users, caller) == r
    ensures c.VerifiedUsers() == old(c.VerifiedUsers())
  {
    var auth := IsAuthenticated(caller);
    if auth.Err? {
      return Err(auth.error);
    }
    if caller in c.users {
      return Err("User profile already exists");
    }
    var profile := UserProfile(
      caller, name, email, KycStatus.Pending, None, now,
      0, 100_000, false, "Unknown", RiskProfile.Conservative);
    c.users := c.users[caller := profile];
    r := Ok(profile);
  }
}
