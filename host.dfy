/**
 * The navigation header's part in onboarding (src/Components/Navbar.js:292-456):
 * the `showProfileModal` flag that mounts one `CompleteProfileModal`, the
 * profile effect that arms a 700 ms trigger, the two "Complete profile"
 * buttons, the mobile menu flag, and the timers and update promises that are
 * still pending.
 *
 * Pending work is a map from handle to task, as `setTimeout` and
 * `clearTimeout` see it. Any pending timer may fire and any outstanding update
 * may settle next: the model does not order them by their delays, so what is
 * proved here holds under every order, the real one included.
 */
module Host {
  import opened Common
  import opened Profile
  import opened Gate
  import opened StepMachine

  /** What a timer does when it fires. */
  datatype Callback =
    | ShowModal                                // setShowProfileModal(true)
    | ModalTimer(owner: nat, timeout: Timeout) // a timer armed by modal instance `owner`

  /** A pending `setTimeout`, or an outstanding `user.update` promise. */
  datatype Task = Timer(delay: nat, cb: Callback) | Update(owner: nat, req: UpdateRequest)

  /** One call of `user.update`, with the instance that made it. */
  datatype WriteRecord = WriteRecord(owner: nat, req: UpdateRequest)

  /**
   * The header's state. `modal` is the mounted instance, present exactly
   * when `showProfileModal` is true; `mounts` counts the instances mounted so
   * far and names the next one; `writes` and `completions` log every
   * `user.update` call and every `onComplete` call, with the calling instance.
   */
  datatype NavState = NavState(
    snapshot: Snapshot,
    menuOpen: bool,
    modal: Option<ModalState>,
    mounts: nat,
    pending: map<nat, Task>,
    nextHandle: nat,
    writes: seq<WriteRecord>,
    completions: seq<nat>)

  /** Everything that can happen to the header. */
  datatype Event =
    | IdentityChanged(snapshot: Snapshot)
    | MenuToggled                      // the hamburger button
    | MenuClosed                       // a mobile link, or the mobile login / sign-up button
    | CompleteProfileClicked(mobile: bool)
    | ModalAction(action: Action)
    | TimerFired(handle: nat)
    | UpdateSettled(handle: nat, ok: bool)

  /** `showProfileModal`. */
  predicate ShowProfileModal(s: NavState) {
    s.modal.Some?
  }

  /** `setTimeout`, or the start of a `user.update`: a new task under a new handle. */
  function Schedule(s: NavState, t: Task): NavState {
    s.(pending := s.pending[s.nextHandle := t], nextHandle := s.nextHandle + 1)
  }

  /** Carries out the effect of a transition of instance `owner`. */
  function Perform(s: NavState, owner: nat, eff: Option<Effect>): NavState {
    match eff
    case None => s
    case Some(After(d, t)) => Schedule(s, Timer(d, ModalTimer(owner, t)))
    case Some(Write(req)) =>
      Schedule(s, Update(owner, req)).(writes := s.writes + [WriteRecord(owner, req)])
  }

  predicate IsGateTimer(t: Task) {
    t.Timer? && t.cb.ShowModal?
  }

  predicate IsFadeIn(t: Task) {
    t.Timer? && t.cb.ModalTimer? && t.cb.timeout == FadeIn
  }

  /** The profile effect's cleanup: `clearTimeout` of the trigger it armed. */
  function CancelGate(p: map<nat, Task>): map<nat, Task> {
    map h | h in p && !IsGateTimer(p[h]) :: p[h]
  }

  /** The modal's unmount cleanup: `clearTimeout` of its fade-in timer. */
  function CancelFadeIn(p: map<nat, Task>, owner: nat): map<nat, Task> {
    map h | h in p && !(IsFadeIn(p[h]) && p[h].cb.owner == owner) :: p[h]
  }

  /** One run of the profile effect for the current snapshot. */
  function RunProfileEffect(s: NavState): (r: NavState)
    ensures r.modal == s.modal && r.snapshot == s.snapshot && r.writes == s.writes
    ensures !NeedsProfile(s.snapshot) ==> r.pending == s.pending
    ensures NeedsProfile(s.snapshot) ==>
              r.pending == s.pending[s.nextHandle := Timer(ShowDelay, ShowModal)] && r.nextHandle == s.nextHandle + 1
  {
    match GateDelay(s.snapshot)
    case None => s
    case Some(d) => Schedule(s, Timer(d, ShowModal))
  }

  /** The header as first rendered: menu closed, no modal, the effect run once. */
  function Mount(snap: Snapshot): (r: NavState)
    ensures r.modal.None? && !r.menuOpen && r.writes == [] && r.completions == []
    ensures r.pending.Keys == (if NeedsProfile(snap) then {0} else {})
    ensures NeedsProfile(snap) ==> r.pending[0] == Timer(ShowDelay, ShowModal)
  {
    RunProfileEffect(NavState(snap, false, None, 0, map[], 0, [], []))
  }

  /**
   * `setShowProfileModal(true)`: when the flag was false, a fresh instance
   * mounts and arms its fade-in; when it was already true nothing happens.
   */
  function Open(s: NavState): (r: NavState)
    ensures r.modal == (if s.modal.Some? then s.modal else Some(Initial(s.mounts)))
    ensures s.modal.None? ==> r.pending == s.pending[s.nextHandle := Timer(FadeInDelay, ModalTimer(s.mounts, FadeIn))]
    ensures r.writes == s.writes && r.completions == s.completions && r.snapshot == s.snapshot
    ensures s.modal.Some? ==> r == s
  {
    if s.modal.Some? then s
    else
      Schedule(s.(modal := Some(Initial(s.mounts)), mounts := s.mounts + 1),
               Timer(FadeInDelay, ModalTimer(s.mounts, FadeIn)))
  }

  /**
   * `onComplete`, called through a timer armed by instance `owner`: the call
   * is logged and `showProfileModal` becomes false, unmounting whichever
   * instance is mounted now.
   */
  function Close(s: NavState, owner: nat): (r: NavState)
    ensures r.modal.None? && r.completions == s.completions + [owner] && r.writes == s.writes
    ensures r.pending.Keys <= s.pending.Keys
    ensures r.snapshot == s.snapshot && r.menuOpen == s.menuOpen && r.mounts == s.mounts
    ensures s.modal.None? ==> r.pending == s.pending
    ensures forall h :: h in s.pending && !(s.modal.Some? && IsFadeIn(s.pending[h]) && s.pending[h].cb.owner == s.modal.value.id)
              ==> h in r.pending && r.pending[h] == s.pending[h]
    ensures s.modal.Some? ==>
              forall h :: h in r.pending ==> !(IsFadeIn(r.pending[h]) && r.pending[h].cb.owner == s.modal.value.id)
  {
    var s1 := s.(completions := s.completions + [owner]);
    if s.modal.None? then s1
    else s1.(modal := None, pending := CancelFadeIn(s.pending, s.modal.value.id))
  }

  /**
   * An event for instance `owner`. If it is the mounted instance its state
   * changes; otherwise React drops the state updates but the callback's own
   * continuation still runs.
   */
  function Deliver(s: NavState, owner: nat, e: ModalEvent): (r: NavState)
    ensures r.snapshot == s.snapshot && r.completions == s.completions && r.mounts == s.mounts
    ensures r.modal.Some? <==> s.modal.Some?
    ensures s.modal.Some? && s.modal.value.id != owner ==> r.modal == s.modal && r.writes == s.writes
    ensures s.writes <= r.writes && |r.writes| <= |s.writes| + 1
  {
    if s.modal.Some? && s.modal.value.id == owner then
      var t := ModalStep(s.modal.value, e, s.snapshot.user.Some?);
      Perform(s.(modal := Some(t.next)), owner, t.effect)
    else
      Perform(s, owner, Continuation(e))
  }

  /** What a fired timer does. */
  function Expire(s: NavState, cb: Callback): NavState {
    match cb
    case ShowModal => Open(s)
    case ModalTimer(o, t) =>
      match t
      case FadeIn => Deliver(s, o, FadeInElapsed)
      case Display => Deliver(s, o, DisplayElapsed)
      case Complete => Close(s, o)
  }

  /**
   * One event. The profile effect re-runs only when one of its dependencies
   * (`isLoaded`, `isSignedIn`, `user`) changed, cleaning up first; the
   * "Complete profile" buttons exist only while the profile is needed; a
   * cleared or settled handle does nothing.
   */
  function NavStep(s: NavState, e: Event): (r: NavState)
    ensures r.mounts >= s.mounts && r.nextHandle >= s.nextHandle
    ensures !e.IdentityChanged? ==> r.snapshot == s.snapshot
  {
    match e
    case IdentityChanged(t) =>
      if t == s.snapshot then s
      else RunProfileEffect(s.(snapshot := t, pending := CancelGate(s.pending)))
    case MenuToggled => s.(menuOpen := !s.menuOpen)
    case MenuClosed => s.(menuOpen := false)
    case CompleteProfileClicked(mobile) =>
      if NeedsProfile(s.snapshot) then Open(if mobile then s.(menuOpen := false) else s)
      else s
    case ModalAction(a) =>
      if s.modal.Some? then Deliver(s, s.modal.value.id, Act(a)) else s
    case TimerFired(h) =>
      if h in s.pending && s.pending[h].Timer? then
        Expire(s.(pending := s.pending - {h}), s.pending[h].cb)
      else s
    case UpdateSettled(h, ok) =>
      if h in s.pending && s.pending[h].Update? then
        Deliver(s.(pending := s.pending - {h}), s.pending[h].owner, SaveResolved(ok))
      else s
  }

  /** The state after a sequence of events. */
  function Replay(s: NavState, es: seq<Event>): NavState
    decreases |es|
  {
    if es == [] then s else Replay(NavStep(s, es[0]), es[1..])
  }

  // ---------------------------------------------------------------------------
  // The invariant of every reachable state

  ghost predicate HandlesIssued(s: NavState) {
    forall h :: h in s.pending ==> h < s.nextHandle
  }

  /** An armed trigger belongs to a snapshot that needs the profile, and waits 700 ms. */
  ghost predicate GateSound(s: NavState) {
    forall h :: h in s.pending && IsGateTimer(s.pending[h]) ==>
      NeedsProfile(s.snapshot) && s.pending[h].delay == ShowDelay
  }

  /** At most one trigger is armed. */
  ghost predicate GateUnique(s: NavState) {
    forall h1, h2 ::
      (h1 in s.pending && h2 in s.pending && IsGateTimer(s.pending[h1]) && IsGateTimer(s.pending[h2]))
      ==> h1 == h2
  }

  function OwnerOf(t: Task): Option<nat> {
    match t
    case Timer(_, cb) => if cb.ModalTimer? then Some(cb.owner) else None
    case Update(o, _) => Some(o)
  }

  /** Instance names are issued by the mount counter. */
  ghost predicate OwnersIssued(s: NavState) {
    (forall h :: h in s.pending && OwnerOf(s.pending[h]).Some? ==> OwnerOf(s.pending[h]).value < s.mounts)
    && (s.modal.Some? ==> s.modal.value.id < s.mounts)
  }

  /** A fade-in timer belongs to the mounted instance: unmounting clears it. */
  ghost predicate FadeInMounted(s: NavState) {
    forall h :: h in s.pending && IsFadeIn(s.pending[h]) ==>
      s.modal.Some? && s.pending[h].cb.owner == s.modal.value.id
  }

  /** `h` is an update started by the mounted instance and not yet settled. */
  predicate InFlight(s: NavState, h: nat) {
    h in s.pending && s.pending[h].Update? && s.modal.Some? && s.pending[h].owner == s.modal.value.id
  }

  /** The mounted instance has at most one update in flight, and only while saving on the form. */
  ghost predicate OneInFlight(s: NavState) {
    (forall h :: InFlight(s, h) ==> s.modal.value.step == Form && s.modal.value.saving)
    && (forall h1, h2 :: InFlight(s, h1) && InFlight(s, h2) ==> h1 == h2)
  }

  /** The mounted draft holds only offered choices. */
  ghost predicate DraftPicked(s: NavState) {
    s.modal.Some? ==> WellFormed(s.modal.value.form)
  }

  ghost predicate Inv(s: NavState) {
    HandlesIssued(s) && GateSound(s) && GateUnique(s) && OwnersIssued(s)
    && FadeInMounted(s) && OneInFlight(s) && DraftPicked(s)
  }

  lemma MountInv(snap: Snapshot)
    ensures Inv(Mount(snap))
  {
  }

  /** The invariant does not look at the menu or at the logs. */
  lemma SameCoreInv(s: NavState, r: NavState)
    requires Inv(s)
    requires r.snapshot == s.snapshot && r.modal == s.modal && r.mounts == s.mounts
    requires r.pending == s.pending && r.nextHandle == s.nextHandle
    ensures Inv(r)
  {
    forall h ensures InFlight(r, h) == InFlight(s, h) {}
  }

  /** Clearing a timer, or settling an update, keeps the invariant. */
  lemma RemoveInv(s: NavState, h: nat)
    requires Inv(s)
    ensures Inv(s.(pending := s.pending - {h}))
  {
    var r := s.(pending := s.pending - {h});
    forall h' | InFlight(r, h') ensures InFlight(s, h') {}
  }

  lemma ScheduleInv(s: NavState, t: Task)
    requires Inv(s)
    requires !IsGateTimer(t)
    requires IsFadeIn(t) ==> s.modal.Some? && t.cb.owner == s.modal.value.id
    requires OwnerOf(t).Some? ==> OwnerOf(t).value < s.mounts
    requires t.Update? && s.modal.Some? && t.owner == s.modal.value.id ==>
               s.modal.value.step == Form && s.modal.value.saving && forall h :: !InFlight(s, h)
    ensures Inv(Schedule(s, t))
  {
    var r := Schedule(s, t);
    var n := s.nextHandle;
    assert n !in s.pending;
    forall h | h in r.pending && h != n ensures r.pending[h] == s.pending[h] {}
    assert GateSound(r) by {
      forall h | h in r.pending && IsGateTimer(r.pending[h])
        ensures NeedsProfile(r.snapshot) && r.pending[h].delay == ShowDelay
      {
        assert h != n;
      }
    }
    assert GateUnique(r) by {
      forall h1, h2 | h1 in r.pending && h2 in r.pending && IsGateTimer(r.pending[h1]) && IsGateTimer(r.pending[h2])
        ensures h1 == h2
      {
        assert h1 != n && h2 != n;
      }
    }
    assert OneInFlight(r) by {
      forall h | InFlight(r, h) ensures r.modal.value.step == Form && r.modal.value.saving {
        if h != n {
          assert InFlight(s, h);
        }
      }
      forall h1, h2 | InFlight(r, h1) && InFlight(r, h2) ensures h1 == h2 {
        if h1 != n {
          assert InFlight(s, h1);
        }
        if h2 != n {
          assert InFlight(s, h2);
        }
      }
    }
  }

  /** Replacing the mounted instance's state by a step of it keeps the invariant. */
  lemma UpdateModalInv(s: NavState, e: ModalEvent)
    requires Inv(s) && s.modal.Some?
    requires e.SaveResolved? ==> s.modal.value.step == Form && s.modal.value.saving && forall h :: !InFlight(s, h)
    ensures var t := ModalStep(s.modal.value, e, s.snapshot.user.Some?);
            Inv(s.(modal := Some(t.next)))
    ensures var t := ModalStep(s.modal.value, e, s.snapshot.user.Some?);
            t.effect.Some? && t.effect.value.Write? ==> forall h :: !InFlight(s.(modal := Some(t.next)), h)
  {
    var m := s.modal.value;
    var t := ModalStep(m, e, s.snapshot.user.Some?);
    var s1 := s.(modal := Some(t.next));
    forall h ensures InFlight(s1, h) <==> InFlight(s, h) {}
    if t.effect.Some? && t.effect.value.Write? {
      forall h | InFlight(s, h) ensures false {}
    } else {
      forall h | InFlight(s1, h) ensures t.next.step == Form && t.next.saving {
        assert InFlight(s, h);
      }
    }
  }

  lemma DeliverInv(s: NavState, owner: nat, e: ModalEvent)
    requires Inv(s) && owner < s.mounts
    requires e.SaveResolved? && s.modal.Some? && s.modal.value.id == owner ==>
               s.modal.value.step == Form && s.modal.value.saving && forall h :: !InFlight(s, h)
    requires e == FadeInElapsed ==> s.modal.Some? && s.modal.value.id == owner
    ensures Inv(Deliver(s, owner, e))
  {
    if s.modal.Some? && s.modal.value.id == owner {
      var t := ModalStep(s.modal.value, e, s.snapshot.user.Some?);
      var s1 := s.(modal := Some(t.next));
      UpdateModalInv(s, e);
      match t.effect
      case None =>
      case Some(eff) =>
        match eff
        case Write(req) =>
          ScheduleInv(s1, Update(owner, req));
          var r := Schedule(s1, Update(owner, req));
          SameCoreInv(r, r.(writes := s1.writes + [WriteRecord(owner, req)]));
        case After(d, to) =>
          assert to != FadeIn;
          ScheduleInv(s1, Timer(d, ModalTimer(owner, to)));
    } else {
      match Continuation(e)
      case None =>
      case Some(eff) =>
        ScheduleInv(s, Timer(eff.delay, ModalTimer(owner, eff.timeout)));
    }
  }

  lemma OpenInv(s: NavState)
    requires Inv(s)
    ensures Inv(Open(s))
  {
    if s.modal.None? {
      var s1 := s.(modal := Some(Initial(s.mounts)), mounts := s.mounts + 1);
      forall h | InFlight(s1, h) ensures false {}
      forall h | h in s1.pending && IsFadeIn(s1.pending[h]) ensures false {}
      assert Inv(s1);
      ScheduleInv(s1, Timer(FadeInDelay, ModalTimer(s.mounts, FadeIn)));
    }
  }

  lemma CloseInv(s: NavState, owner: nat)
    requires Inv(s)
    ensures Inv(Close(s, owner))
  {
    if s.modal.Some? {
      var r := Close(s, owner);
      forall h | h in r.pending && IsFadeIn(r.pending[h]) ensures false {}
    }
  }

  lemma IdentityInv(s: NavState, t: Snapshot)
    requires Inv(s) && t != s.snapshot
    ensures Inv(NavStep(s, IdentityChanged(t)))
  {
    var s1 := s.(snapshot := t, pending := CancelGate(s.pending));
    forall h | InFlight(s1, h) ensures InFlight(s, h) {}
    assert Inv(s1);
    if GateDelay(t).Some? {
      var r := Schedule(s1, Timer(ShowDelay, ShowModal));
      var n := s1.nextHandle;
      forall h | h in r.pending && h != n ensures r.pending[h] == s1.pending[h] {}
      forall h | InFlight(r, h) ensures InFlight(s1, h) {}
      assert GateUnique(r);
    }
  }

  /** Every event keeps the invariant. */
  lemma StepInv(s: NavState, e: Event)
    requires Inv(s)
    ensures Inv(NavStep(s, e))
  {
    match e
    case IdentityChanged(t) =>
      if t != s.snapshot {
        IdentityInv(s, t);
      }
    case MenuToggled =>
      SameCoreInv(s, NavStep(s, e));
    case MenuClosed =>
      SameCoreInv(s, NavStep(s, e));
    case CompleteProfileClicked(mobile) =>
      if NeedsProfile(s.snapshot) {
        var s1 := if mobile then s.(menuOpen := false) else s;
        SameCoreInv(s, s1);
        OpenInv(s1);
      }
    case ModalAction(a) =>
      if s.modal.Some? {
        DeliverInv(s, s.modal.value.id, Act(a));
      }
    case TimerFired(h) =>
      if h in s.pending && s.pending[h].Timer? {
        var s1 := s.(pending := s.pending - {h});
        RemoveInv(s, h);
        match s.pending[h].cb
        case ShowModal => OpenInv(s1);
        case ModalTimer(o, t) =>
          assert OwnerOf(s.pending[h]) == Some(o);
          match t
          case FadeIn =>
            assert IsFadeIn(s.pending[h]);
            DeliverInv(s1, o, FadeInElapsed);
          case Display => DeliverInv(s1, o, DisplayElapsed);
          case Complete => CloseInv(s1, o);
      }
    case UpdateSettled(h, ok) =>
      if h in s.pending && s.pending[h].Update? {
        var s1 := s.(pending := s.pending - {h});
        RemoveInv(s, h);
        assert OwnerOf(s.pending[h]) == Some(s.pending[h].owner);
        if s.modal.Some? && s.pending[h].owner == s.modal.value.id {
          assert InFlight(s, h);
          forall h' | InFlight(s1, h') ensures false {
            assert InFlight(s, h');
          }
        }
        DeliverInv(s1, s.pending[h].owner, SaveResolved(ok));
      }
  }

  /** Every state reachable from a mounted header satisfies the invariant. */
  lemma {:induction false} ReplayInv(s: NavState, es: seq<Event>)
    requires Inv(s)
    ensures Inv(Replay(s, es))
    decreases |es|
  {
    if es != [] {
      StepInv(s, es[0]);
      ReplayInv(NavStep(s, es[0]), es[1..]);
    }
  }

  lemma ReachableInv(snap: Snapshot, es: seq<Event>)
    ensures Inv(Replay(Mount(snap), es))
  {
    MountInv(snap);
    ReplayInv(Mount(snap), es);
  }

  // ---------------------------------------------------------------------------
  // What one event can change

  /**
   * The logs only grow, by at most one call per event; only the identity
   * service changes the snapshot; a modal that appears is a fresh instance.
   */
  lemma StepFrame(s: NavState, e: Event)
    ensures var r := NavStep(s, e);
            s.writes <= r.writes && |r.writes| <= |s.writes| + 1
    ensures var r := NavStep(s, e);
            s.completions <= r.completions && |r.completions| <= |s.completions| + 1
    ensures var r := NavStep(s, e);
            r.snapshot != s.snapshot ==> e == IdentityChanged(r.snapshot)
    ensures var r := NavStep(s, e);
            ShowProfileModal(r) && !ShowProfileModal(s) ==> r.modal == Some(Initial(s.mounts)) && r.mounts == s.mounts + 1
    ensures var r := NavStep(s, e);
            r.menuOpen != s.menuOpen ==> e.MenuToggled? || e.MenuClosed? || e == CompleteProfileClicked(true)
  {
    match e
    case IdentityChanged(t) =>
    case MenuToggled =>
    case MenuClosed =>
    case CompleteProfileClicked(mobile) =>
    case ModalAction(a) =>
    case TimerFired(h) =>
      if h in s.pending && s.pending[h].Timer? {
        match s.pending[h].cb
        case ShowModal =>
        case ModalTimer(o, t) =>
      }
    case UpdateSettled(h, ok) =>
  }

  // ---------------------------------------------------------------------------
  // The gate

  /** The set of armed automatic triggers. */
  ghost function GateHandles(s: NavState): set<nat> {
    set h | h in s.pending && IsGateTimer(s.pending[h])
  }

  /** An armed trigger always belongs to a loaded, signed-in, incomplete identity. */
  lemma ArmedTriggerIsNeeded(s: NavState, h: nat)
    requires Inv(s) && h in GateHandles(s)
    ensures NeedsProfile(s.snapshot) && s.pending[h] == Timer(ShowDelay, ShowModal)
  {
  }

  /**
   * A change of the effect's dependencies cancels any armed trigger and arms
   * exactly one new 700 ms trigger when the new snapshot needs the profile,
   * none otherwise. An unchanged snapshot does nothing.
   */
  lemma IdentityChangeArmsOneTrigger(s: NavState, t: Snapshot)
    requires Inv(s)
    ensures NavStep(s, IdentityChanged(s.snapshot)) == s
    ensures t != s.snapshot ==>
              GateHandles(NavStep(s, IdentityChanged(t))) == (if NeedsProfile(t) then {s.nextHandle} else {})
    ensures t != s.snapshot && NeedsProfile(t) ==>
              NavStep(s, IdentityChanged(t)).pending[s.nextHandle] == Timer(ShowDelay, ShowModal)
    ensures NavStep(s, IdentityChanged(t)).modal == s.modal
  {
    if t != s.snapshot {
      var r := NavStep(s, IdentityChanged(t));
      var c := CancelGate(s.pending);
      assert s.nextHandle !in c;
      if NeedsProfile(t) {
        assert r.pending == c[s.nextHandle := Timer(ShowDelay, ShowModal)];
        forall h | h in GateHandles(r) ensures h == s.nextHandle {}
      } else {
        assert r.pending == c;
      }
    }
  }

  /**
   * While the identity is not loaded or not signed in, nothing but a change of
   * identity can open the modal: no trigger is armed and no button is shown.
   */
  lemma SignedOutNeverOpens(s: NavState, e: Event)
    requires Inv(s) && !(s.snapshot.isLoaded && s.snapshot.isSignedIn)
    requires !ShowProfileModal(s) && !e.IdentityChanged?
    ensures !ShowProfileModal(NavStep(s, e))
  {
    match e
    case TimerFired(h) =>
      if h in s.pending && s.pending[h].Timer? {
        assert !IsGateTimer(s.pending[h]);
      }
    case _ =>
  }

  /** The same over any sequence of events in which the identity does not change. */
  lemma {:induction false} SignedOutStaysClosed(s: NavState, es: seq<Event>)
    requires Inv(s) && !(s.snapshot.isLoaded && s.snapshot.isSignedIn) && !ShowProfileModal(s)
    requires forall k :: 0 <= k < |es| ==> !es[k].IdentityChanged?
    ensures !ShowProfileModal(Replay(s, es))
    decreases |es|
  {
    if es != [] {
      SignedOutNeverOpens(s, es[0]);
      StepInv(s, es[0]);
      StepFrame(s, es[0]);
      SignedOutStaysClosed(NavStep(s, es[0]), es[1..]);
    }
  }

  // ---------------------------------------------------------------------------
  // The "Complete profile" buttons and the host flag

  /**
   * The button exists only while the profile is needed; pressing it shows the
   * modal at once, and the mobile one also closes the menu. A modal already
   * shown stays the same instance.
   */
  lemma CompleteProfileButton(s: NavState, mobile: bool)
    ensures !NeedsProfile(s.snapshot) ==> NavStep(s, CompleteProfileClicked(mobile)) == s
    ensures var r := NavStep(s, CompleteProfileClicked(mobile));
            NeedsProfile(s.snapshot) ==>
              ShowProfileModal(r) && r.menuOpen == (s.menuOpen && !mobile)
              && r.writes == s.writes && r.completions == s.completions
    ensures var r := NavStep(s, CompleteProfileClicked(mobile));
            ShowProfileModal(s) ==> r.modal == s.modal && r.mounts == s.mounts
  {
  }

  /** A trigger firing while the modal is shown does not create a second instance. */
  lemma TriggerWhileShownKeepsInstance(s: NavState, h: nat)
    requires ShowProfileModal(s) && h in GateHandles(s)
    ensures NavStep(s, TimerFired(h)) == s.(pending := s.pending - {h})
  {
  }

  // ---------------------------------------------------------------------------
  // Saving, skipping and completing

  /** Pressing save twice in a row issues at most one `user.update`. */
  lemma SaveTwiceWritesOnce(s: NavState)
    ensures var r := NavStep(NavStep(s, ModalAction(RequestSave)), ModalAction(RequestSave));
            |r.writes| <= |s.writes| + 1
  {
    if s.modal.Some? {
      var s1 := NavStep(s, ModalAction(RequestSave));
      SaveCoalesced(s.modal.value, s.snapshot.user.Some?);
      assert s1.modal.Some? && s1.modal.value == ModalStep(s.modal.value, Act(RequestSave), s.snapshot.user.Some?).next;
      assert s1.snapshot == s.snapshot;
    }
  }

  /**
   * A failed update leaves the instance on the form with its draft, clears
   * `saving`, arms nothing, writes nothing and calls no `onComplete`.
   */
  lemma FailedSave(s: NavState, h: nat)
    requires Inv(s) && InFlight(s, h)
    ensures NavStep(s, UpdateSettled(h, false))
         == s.(pending := s.pending - {h}, modal := Some(s.modal.value.(saving := false)))
    ensures NavStep(s, UpdateSettled(h, false)).modal.value.step == Form
  {
  }

  /**
   * A successful update shows the done step; 1800 ms later the modal fades,
   * and 400 ms after that `onComplete` is called once and the modal unmounts.
   * No further write is made on the way.
   */
  lemma SuccessfulSaveCompletesOnce(s: NavState, h: nat)
    requires Inv(s) && InFlight(s, h)
    ensures var id, n := s.modal.value.id, s.nextHandle;
            var s1 := NavStep(s, UpdateSettled(h, true));
            s1.modal == Some(s.modal.value.(step := Done))
            && s1.pending == (s.pending - {h})[n := Timer(DisplayDelay, ModalTimer(id, Display))]
    ensures var id, n := s.modal.value.id, s.nextHandle;
            var s2 := NavStep(NavStep(s, UpdateSettled(h, true)), TimerFired(n));
            s2.modal == Some(s.modal.value.(step := Done, visible := false))
            && s2.pending == (s.pending - {h})[n + 1 := Timer(FadeOutDelay, ModalTimer(id, Complete))]
    ensures var id, n := s.modal.value.id, s.nextHandle;
            var s3 := NavStep(NavStep(NavStep(s, UpdateSettled(h, true)), TimerFired(n)), TimerFired(n + 1));
            !ShowProfileModal(s3) && s3.completions == s.completions + [id] && s3.writes == s.writes
  {
    var m, id, n := s.modal.value, s.modal.value.id, s.nextHandle;
    var p := s.pending - {h};
    assert n !in p && n + 1 !in p;
    var s1 := NavStep(s, UpdateSettled(h, true));
    assert s1.pending == p[n := Timer(DisplayDelay, ModalTimer(id, Display))];
    var s2 := NavStep(s1, TimerFired(n));
    assert s1.pending - {n} == p;
    assert s2.pending == p[n + 1 := Timer(FadeOutDelay, ModalTimer(id, Complete))];
    assert s2.pending - {n + 1} == p;
  }

  /**
   * Skip writes nothing: it starts the fade-out, and 400 ms later `onComplete`
   * is called once and the modal unmounts.
   */
  lemma SkipCompletesWithoutWrite(s: NavState)
    requires Inv(s) && s.modal.Some? && s.modal.value.step == Intro
    ensures var id, n := s.modal.value.id, s.nextHandle;
            var s1 := NavStep(s, ModalAction(Skip));
            s1.writes == s.writes && s1.modal == Some(s.modal.value.(visible := false))
            && s1.pending == s.pending[n := Timer(FadeOutDelay, ModalTimer(id, Complete))]
    ensures var id, n := s.modal.value.id, s.nextHandle;
            var s2 := NavStep(NavStep(s, ModalAction(Skip)), TimerFired(n));
            !ShowProfileModal(s2) && s2.completions == s.completions + [id] && s2.writes == s.writes
  {
    var n := s.nextHandle;
    assert n !in s.pending;
    var s1 := NavStep(s, ModalAction(Skip));
    assert s1.pending - {n} == s.pending;
  }

  /**
   * The skip button stays pressable while the modal fades, and each press
   * arms its own `onComplete`: two presses call it twice.
   */
  lemma DoubleSkipCompletesTwice(s: NavState)
    requires Inv(s) && s.modal.Some? && s.modal.value.step == Intro
    ensures var id, n := s.modal.value.id, s.nextHandle;
            var s2 := NavStep(NavStep(s, ModalAction(Skip)), ModalAction(Skip));
            var s4 := NavStep(NavStep(s2, TimerFired(n)), TimerFired(n + 1));
            s4.completions == s.completions + [id, id] && s4.writes == s.writes
  {
    var id, n := s.modal.value.id, s.nextHandle;
    assert n !in s.pending && n + 1 !in s.pending;
    var s2 := NavStep(NavStep(s, ModalAction(Skip)), ModalAction(Skip));
    assert s2.pending == s.pending[n := Timer(FadeOutDelay, ModalTimer(id, Complete))]
                                  [n + 1 := Timer(FadeOutDelay, ModalTimer(id, Complete))];
    var s3 := NavStep(s2, TimerFired(n));
    assert n + 1 in s3.pending && s3.pending[n + 1] == Timer(FadeOutDelay, ModalTimer(id, Complete));
  }

  /**
   * No modal timer but the fade-in is cleared on unmount, so an `onComplete`
   * armed by an earlier instance still runs: after a double skip, a modal
   * reopened from the button in between is closed by the second, stale call.
   */
  lemma StaleCompletionClosesReopenedModal(s: NavState)
    requires Inv(s) && s.modal.Some? && s.modal.value.step == Intro && NeedsProfile(s.snapshot)
    ensures var id, n := s.modal.value.id, s.nextHandle;
            var s2 := NavStep(NavStep(s, ModalAction(Skip)), ModalAction(Skip));
            var s3 := NavStep(s2, TimerFired(n));
            var s4 := NavStep(s3, CompleteProfileClicked(false));
            var s5 := NavStep(s4, TimerFired(n + 1));
            !ShowProfileModal(s3) && s4.modal == Some(Initial(s.mounts))
            && !ShowProfileModal(s5) && s5.completions == s.completions + [id, id]
  {
    var id, n := s.modal.value.id, s.nextHandle;
    assert n !in s.pending && n + 1 !in s.pending;
    var s2 := NavStep(NavStep(s, ModalAction(Skip)), ModalAction(Skip));
    assert s2.pending == s.pending[n := Timer(FadeOutDelay, ModalTimer(id, Complete))]
                                  [n + 1 := Timer(FadeOutDelay, ModalTimer(id, Complete))];
    var s3 := NavStep(s2, TimerFired(n));
    assert n + 1 in s3.pending && s3.pending[n + 1] == Timer(FadeOutDelay, ModalTimer(id, Complete));
    var s4 := NavStep(s3, CompleteProfileClicked(false));
    assert n + 1 != s3.nextHandle;
    assert n + 1 in s4.pending && s4.pending[n + 1] == Timer(FadeOutDelay, ModalTimer(id, Complete));
  }
}
