/**
 * The navigation header as a component (src/Components/Navbar.js:292-456):
 * its state variables, the pending timers and update promises it and its
 * modal have started, and one method per event, each proved to do what
 * `Host.NavStep` says.
 */
module NavbarComponent {
  import opened Common
  import opened Gate
  import opened StepMachine
  import opened Host

  class Navbar {
    var snapshot: Snapshot
    var menuOpen: bool
    var showProfileModal: bool
    var modal: ProfileModal?
    var mounts: nat
    var pending: map<nat, Task>
    var nextHandle: nat
    var writes: seq<WriteRecord>
    var completions: seq<nat>

    /** The modal is mounted exactly when `showProfileModal` is true. */
    ghost predicate Valid()
      reads this
    {
      showProfileModal == (modal != null)
    }

    function View(): NavState
      reads this, modal
    {
      NavState(snapshot, menuOpen, if modal == null then None else Some(modal.View()),
               mounts, pending, nextHandle, writes, completions)
    }

    /** First render: the profile effect runs once for the initial snapshot. */
    constructor (snap: Snapshot)
      ensures Valid() && View() == Mount(snap)
    {
      snapshot := snap;
      menuOpen := false;
      showProfileModal := false;
      modal := null;
      mounts := 0;
      pending := map[];
      nextHandle := 0;
      writes := [];
      completions := [];
      new;
      ProfileEffect();
    }

    /** `setTimeout`, or the start of `user.update`. */
    method SetTimeout(t: Task)
      requires Valid()
      modifies this
      ensures Valid() && modal == old(modal)
      ensures View() == Schedule(old(View()), t)
    {
      pending := pending[nextHandle := t];
      nextHandle := nextHandle + 1;
    }

    /** Carries out what a transition of instance `owner` started. */
    method Apply(owner: nat, eff: Option<Effect>)
      requires Valid()
      modifies this
      ensures Valid() && modal == old(modal)
      ensures View() == Perform(old(View()), owner, eff)
    {
      match eff
      case None =>
      case Some(After(d, t)) =>
        SetTimeout(Timer(d, ModalTimer(owner, t)));
      case Some(Write(req)) =>
        writes := writes + [WriteRecord(owner, req)];
        SetTimeout(Update(owner, req));
    }

    /** The profile effect of lines 298-307. */
    method ProfileEffect()
      requires Valid()
      modifies this
      ensures Valid() && modal == old(modal)
      ensures View() == RunProfileEffect(old(View()))
    {
      match GateDelay(snapshot)
      case None =>
      case Some(d) => SetTimeout(Timer(d, ShowModal));
    }

    /** `setShowProfileModal(true)`. */
    method SetShown()
      requires Valid()
      modifies this
      ensures Valid() && (modal == null || modal == old(modal) || fresh(modal))
      ensures old(modal) != null ==> modal == old(modal)
      ensures old(modal) == null ==> fresh(modal)
      ensures View() == Open(old(View()))
    {
      if !showProfileModal {
        modal := new ProfileModal(mounts);
        showProfileModal := true;
        SetTimeout(Timer(FadeInDelay, ModalTimer(mounts, FadeIn)));
        mounts := mounts + 1;
      }
    }

    /** `onComplete`, run by a timer of instance `owner`. */
    method OnComplete(owner: nat)
      requires Valid()
      modifies this
      ensures Valid() && (modal == null || modal == old(modal) || fresh(modal))
      ensures View() == Close(old(View()), owner)
    {
      completions := completions + [owner];
      if showProfileModal {
        pending := CancelFadeIn(pending, modal.id);
        modal := null;
        showProfileModal := false;
      }
    }

    /** Hands an action to the mounted modal's handler for it. */
    method Dispatch(a: Action) returns (eff: Option<Effect>)
      requires Valid() && modal != null
      modifies modal
      ensures Transition(modal.View(), eff) == ModalStep(old(modal.View()), Act(a), snapshot.user.Some?)
    {
      match a
      case Proceed => eff := modal.Proceed();
      case Skip => eff := modal.Skip();
      case EditUsername(u) => eff := modal.EditUsername(u);
      case PickTeam(t) => eff := modal.PickTeam(t);
      case PickRole(r) => eff := modal.PickRole(r);
      case RequestSave => eff := modal.RequestSave(snapshot.user.Some?);
    }

    /** An event for instance `owner`, mounted or not. */
    method Forward(owner: nat, e: ModalEvent)
      requires Valid()
      modifies this, modal
      ensures Valid() && (modal == null || modal == old(modal) || fresh(modal))
      ensures View() == Deliver(old(View()), owner, e)
    {
      if modal != null && modal.id == owner {
        ghost var m := modal.View();
        var eff: Option<Effect>;
        match e {
          case Act(a) => eff := Dispatch(a);
          case SaveResolved(ok) => eff := modal.SaveResolved(ok);
          case FadeInElapsed => eff := modal.FadeInElapsed();
          case DisplayElapsed => eff := modal.DisplayElapsed();
        }
        assert Transition(modal.View(), eff) == ModalStep(m, e, snapshot.user.Some?);
        Apply(owner, eff);
      } else {
        Apply(owner, Continuation(e));
      }
    }

    /** A new identity snapshot from `useUser()`. */
    method OnIdentity(t: Snapshot)
      requires Valid()
      modifies this, modal
      ensures Valid() && (modal == null || modal == old(modal) || fresh(modal))
      ensures View() == NavStep(old(View()), Event.IdentityChanged(t))
    {
      if t != snapshot {
        pending := CancelGate(pending);
        snapshot := t;
        ProfileEffect();
      }
    }

    /** The hamburger button. */
    method ToggleMenu()
      requires Valid()
      modifies this, modal
      ensures Valid() && (modal == null || modal == old(modal) || fresh(modal))
      ensures View() == NavStep(old(View()), MenuToggled)
    {
      menuOpen := !menuOpen;
    }

    /** A mobile nav link, or the mobile login or sign-up button. */
    method CloseMenu()
      requires Valid()
      modifies this, modal
      ensures Valid() && (modal == null || modal == old(modal) || fresh(modal))
      ensures View() == NavStep(old(View()), MenuClosed)
    {
      menuOpen := false;
    }

    /** A "Complete profile" button: the desktop one, or the mobile one in the menu. */
    method CompleteProfile(mobile: bool)
      requires Valid()
      modifies this, modal
      ensures Valid() && (modal == null || modal == old(modal) || fresh(modal))
      ensures View() == NavStep(old(View()), CompleteProfileClicked(mobile))
    {
      if NeedsProfile(snapshot) {
        if mobile {
          menuOpen := false;
        }
        SetShown();
      }
    }

    /** A click or keystroke inside the modal. */
    method OnModalAction(a: Action)
      requires Valid()
      modifies this, modal
      ensures Valid() && (modal == null || modal == old(modal) || fresh(modal))
      ensures View() == NavStep(old(View()), ModalAction(a))
    {
      if modal != null {
        Forward(modal.id, Act(a));
      }
    }

    /** A timer fires; a cleared or already fired handle does nothing. */
    method OnTimer(h: nat)
      requires Valid()
      modifies this, modal
      ensures Valid() && (modal == null || modal == old(modal) || fresh(modal))
      ensures View() == NavStep(old(View()), TimerFired(h))
    {
      if h in pending && pending[h].Timer? {
        var cb := pending[h].cb;
        pending := pending - {h};
        match cb
        case ShowModal => SetShown();
        case ModalTimer(o, t) =>
          match t
          case FadeIn => Forward(o, FadeInElapsed);
          case Display => Forward(o, DisplayElapsed);
          case Complete => OnComplete(o);
      }
    }

    /** An outstanding `user.update` settles. */
    method OnUpdateSettled(h: nat, ok: bool)
      requires Valid()
      modifies this, modal
      ensures Valid() && (modal == null || modal == old(modal) || fresh(modal))
      ensures View() == NavStep(old(View()), UpdateSettled(h, ok))
    {
      if h in pending && pending[h].Update? {
        var owner := pending[h].owner;
        pending := pending - {h};
        Forward(owner, SaveResolved(ok));
      }
    }
  }

  /** Skipping from the intro writes nothing and tells the header once. */
  method SkipScenario() returns (writes: seq<WriteRecord>, completions: seq<nat>, shown: bool)
    ensures writes == [] && completions == [0] && !shown
  {
    var nav := new Navbar(Snapshot(true, true, None));
    nav.CompleteProfile(false);
    assert nav.showProfileModal && nav.modal.step == Intro;
    nav.OnModalAction(Skip);
    assert nav.pending[2] == Timer(FadeOutDelay, ModalTimer(0, Complete));
    nav.OnTimer(2);
    writes, completions, shown := nav.writes, nav.completions, nav.showProfileModal;
  }
}
