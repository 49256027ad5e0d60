/** The approval state of a vendor or influencer profile: its `status` and
    its `verification_status`, and the moves the admin endpoints make. */
module Approval {
  import opened Records

  datatype Standing = Standing(status: Status, verification: VerificationStatus)

  /** Where registration puts every new vendor and influencer. */
  const Registered := Standing(Pending, Unverified)

  /** A profile the public listings show (top influencers, verified vendors). */
  predicate Listed(s: Standing) {
    s.status == Approved && s.verification == Verified
  }

  function Approve(s: Standing): (r: Standing)
    ensures Listed(r)
  {
    Standing(Approved, Verified)
  }

  function Reject(s: Standing): (r: Standing)
    ensures !Listed(r) && r.status == Status.Rejected && r.verification == VerificationStatus.Rejected
  {
    Standing(Status.Rejected, VerificationStatus.Rejected)
  }

  /** Suspension changes the status only. */
  function Suspend(s: Standing): (r: Standing)
    ensures !Listed(r) && r.status == Status.Suspended && r.verification == s.verification
  {
    s.(status := Status.Suspended)
  }

  /** Verification changes the verification only. */
  function Verify(s: Standing): (r: Standing)
    ensures r.status == s.status && r.verification == Verified
    ensures Listed(r) <==> s.status == Approved
  {
    s.(verification := Verified)
  }

  /** Every move lands in the same state when made twice. */
  lemma MovesIdempotent(s: Standing)
    ensures Approve(Approve(s)) == Approve(s) && Reject(Reject(s)) == Reject(s)
    ensures Suspend(Suspend(s)) == Suspend(s) && Verify(Verify(s)) == Verify(s)
  {
  }

  /** A suspended profile that is approved again is listed again, whatever
      happened to its verification in between. */
  lemma ApproveAfterSuspend(s: Standing)
    ensures Listed(Approve(Suspend(s)))
  {
  }

  /** Verifying a suspended profile does not list it: the status still
      blocks it. */
  lemma VerifyDoesNotLift(s: Standing)
    ensures !Listed(Verify(Suspend(s)))
  {
  }

  /** A freshly registered profile is not listed until it is approved. */
  lemma RegisteredNotListed()
    ensures !Listed(Registered) && !Listed(Verify(Registered)) && Listed(Approve(Registered))
  {
  }
}
