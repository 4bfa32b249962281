/** Optional values: the model's stand-in for JavaScript's `undefined`. */
module Common {
  datatype Option<T> = None | Some(value: T)
}

/**
 * The profile draft the onboarding modal collects, the `ready` guard of its
 * save button, and the exact request it hands to the identity service's
 * `user.update` (src/Components/Navbar.js).
 */
module Profile {
  import opened Common

  /** The team buttons offered by the form, in display order. */
  const Teams: seq<string> :=
    ["India", "Australia", "England", "Pakistan",
     "South Africa", "New Zealand", "West Indies", "Sri Lanka"]

  /** The role buttons offered by the form, in display order. */
  const Roles: seq<string> := ["Fan", "Fantasy Player", "Analyst", "Coach / Player"]

  /** The modal's `form` state; the empty string is "not chosen yet". */
  datatype Draft = Draft(username: string, favTeam: string, role: string)

  const EmptyDraft := Draft("", "", "")

  /** `ready = form.favTeam && form.role`: a JavaScript string is truthy iff it is non-empty. */
  predicate Ready(d: Draft)
    ensures Ready(d) ==> Payload(d).unsafeMetadata.favTeam != "" && Payload(d).unsafeMetadata.role != ""
  {
    d.favTeam != "" && d.role != ""
  }

  /** The save button is enabled iff `!(!ready || saving)`. */
  predicate SaveEnabled(d: Draft, saving: bool)
    ensures saving ==> !SaveEnabled(d, saving)
    ensures !Ready(d) ==> !SaveEnabled(d, saving)
    ensures Ready(d) && !saving ==> SaveEnabled(d, saving)
  {
    Ready(d) && !saving
  }

  /** Every choice the draft holds was picked from the offered buttons. */
  predicate WellFormed(d: Draft) {
    (d.favTeam == "" || d.favTeam in Teams) && (d.role == "" || d.role in Roles)
  }

  /** The `unsafeMetadata` object written by a save. */
  datatype Metadata = Metadata(profileComplete: bool, favTeam: string, role: string)

  /** The argument of `user.update`; `None` is a `username` left `undefined`. */
  datatype UpdateRequest = UpdateRequest(username: Option<string>, unsafeMetadata: Metadata)

  /**
   * The request a save sends for draft `d`: the flag and both choices in one
   * call, and `username: form.username || undefined`.
   */
  function Payload(d: Draft): (r: UpdateRequest)
    ensures r.unsafeMetadata.profileComplete
    ensures r.username != Some("")
  {
    UpdateRequest(if d.username == "" then None else Some(d.username),
                  Metadata(true, d.favTeam, d.role))
  }

  /** Reads the draft back out of a request (an omitted username reads as empty). */
  function DraftOf(r: UpdateRequest): Draft {
    Draft(match r.username case None => "" case Some(u) => u,
          r.unsafeMetadata.favTeam, r.unsafeMetadata.role)
  }

  /** Nothing of the draft is lost on the way to the identity service. */
  lemma PayloadRoundTrip(d: Draft)
    ensures DraftOf(Payload(d)) == d
  {
  }

  /** Distinct drafts produce distinct requests. */
  lemma PayloadInjective(d1: Draft, d2: Draft)
    requires Payload(d1) == Payload(d2)
    ensures d1 == d2
  {
    PayloadRoundTrip(d1);
    PayloadRoundTrip(d2);
  }

  /** The username is sent exactly when it is non-empty, and then verbatim. */
  lemma UsernameSentIffNonEmpty(d: Draft)
    ensures Payload(d).username.Some? <==> d.username != ""
    ensures Payload(d).username.Some? ==> Payload(d).username.value == d.username
  {
  }

  /** The two example drafts: a named fan, and the same choices with the name left empty. */
  lemma PayloadExamples()
    ensures Payload(Draft("rohit_fan_11", "India", "Fan"))
         == UpdateRequest(Some("rohit_fan_11"), Metadata(true, "India", "Fan"))
    ensures Payload(Draft("", "India", "Fan"))
         == UpdateRequest(None, Metadata(true, "India", "Fan"))
  {
  }

  /** The username never affects readiness or whether save is enabled. */
  lemma ReadyIgnoresUsername(d: Draft, u: string, saving: bool)
    ensures Ready(d.(username := u)) == Ready(d)
    ensures SaveEnabled(d.(username := u), saving) == SaveEnabled(d, saving)
  {
  }

  /**
   * For a draft built from the offered buttons, readiness is exactly "a team
   * and a role have been picked from the lists".
   */
  lemma ReadyIffPicked(d: Draft)
    requires WellFormed(d)
    ensures Ready(d) <==> d.favTeam in Teams && d.role in Roles
  {
    assert "" !in Teams;
    assert "" !in Roles;
  }
}
