/**
 * The identity snapshot `useUser()` supplies to the navigation header, and the
 * condition under which the header offers, or schedules, profile completion.
 */
module Gate {
  import opened Common

  /**
   * The part of the signed-in identity the flow reads. A new `revision` stands
   * for a new user object handed out by the identity service; `profileComplete`
   * is the truthiness of `unsafeMetadata.profileComplete`.
   */
  datatype User = User(revision: nat, profileComplete: bool)

  /** `{ isLoaded, isSignedIn, user }` as returned by `useUser()`. */
  datatype Snapshot = Snapshot(isLoaded: bool, isSignedIn: bool, user: Option<User>)

  /** Delay, in milliseconds, before the automatic trigger opens the modal. */
  const ShowDelay: nat := 700

  /** `!user?.unsafeMetadata?.profileComplete`: a missing user reads as incomplete. */
  predicate ProfileIncomplete(s: Snapshot) {
    s.user.None? || !s.user.value.profileComplete
  }

  /**
   * Loaded, signed in and incomplete: the condition under which the effect
   * schedules the modal and under which both "Complete profile" buttons are
   * rendered.
   */
  predicate NeedsProfile(s: Snapshot)
    ensures NeedsProfile(s) ==> s.isLoaded && s.isSignedIn
    ensures s.user.Some? && s.user.value.profileComplete ==> !NeedsProfile(s)
    ensures s.isLoaded && s.isSignedIn && s.user.None? ==> NeedsProfile(s)
  {
    s.isLoaded && s.isSignedIn && ProfileIncomplete(s)
  }

  /** What one run of the profile effect schedules: a delay, or nothing. */
  function GateDelay(s: Snapshot): (d: Option<nat>)
    ensures d.Some? ==> s.isLoaded && s.isSignedIn && d.value == ShowDelay
    ensures d.Some? <==> NeedsProfile(s)
  {
    if !s.isLoaded || !s.isSignedIn then None
    else if ProfileIncomplete(s) then Some(ShowDelay)
    else None
  }

  /** Once the identity service reports the profile complete, nothing is scheduled. */
  lemma CompleteProfileNeverScheduled(s: Snapshot)
    requires s.user.Some? && s.user.value.profileComplete
    ensures GateDelay(s) == None
  {
  }
}
