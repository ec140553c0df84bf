/**
 * The two identity gates of `utils.rs`. Both are read-only: they take the
 * caller and the user store as values and return a verdict.
 */
module Utils {

  import opened Wrappers
  import opened Types

  /** `is_authenticated`: the anonymous principal is refused, any other caller passes. */
  function IsAuthenticated(caller: Principal): (r: Result<Principal>)
    ensures r.Ok? <==> caller != Anonymous
    ensures r.Ok? ==> r.value == caller
    ensures r.Err? ==> r.error == "Authentication required"
  {
    if caller == Anonymous then Err("Authentication required") else Ok(caller)
  }

  /** The refusal `validate_kyc` gives for a status other than `Verified`. */
  function KycRefusal(status: KycStatus): string
    requires !status.Verified?
  {
    match status
    case Pending => "KYC verification pending"
    case Rejected => "KYC verification rejected"
    case Expired => "KYC verification expired"
  }

  /**
   * `validate_kyc`: passes exactly the users that have a profile whose status is
   * `Verified`; every other case gets its own message.
   */
  function ValidateKyc(users: map<Principal, UserProfile>, user: Principal): (r: Result<()>)
    ensures r.Ok? <==> user in users && users[user].kycStatus.Verified?
    ensures user !in users ==> r == Err("User profile not found")
    ensures user in users && !users[user].kycStatus.Verified? ==>
              r == Err(KycRefusal(users[user].kycStatus))
  {
    if user !in users then Err("User profile not found")
    else match users[user].kycStatus
      case Verified => Ok(())
      case Pending => Err("KYC verification pending")
      case Rejected => Err("KYC verification rejected")
      case Expired => Err("KYC verification expired")
  }

  /** The four refusals are pairwise different, so the message tells the cause. */
  lemma KycRefusalsDistinct(users1: map<Principal, UserProfile>, u1: Principal,
                            users2: map<Principal, UserProfile>, u2: Principal)
    requires ValidateKyc(users1, u1).Err? && ValidateKyc(users2, u2).Err?
    requires ValidateKyc(users1, u1).error == ValidateKyc(users2, u2).error
    ensures u1 in users1 <==> u2 in users2
    ensures u1 in users1 ==> users1[u1].kycStatus == users2[u2].kycStatus
  {
  }

  /**
   * `validate_kyc` looks at nothing but the status: the verification record and
   * its `expiry_date` do not matter, and neither does any other profile.
   */
  lemma ValidateKycReadsOnlyStatus(users1: map<Principal, UserProfile>,
                                   users2: map<Principal, UserProfile>, user: Principal)
    requires user in users1 <==> user in users2
    requires user in users1 ==> users1[user].kycStatus == users2[user].kycStatus
    ensures ValidateKyc(users1, user) == ValidateKyc(users2, user)
  {
  }
}
