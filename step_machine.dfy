/**
 * The step machine of `CompleteProfileModal` (src/Components/Navbar.js:12-289):
 * intro, form, done; the draft; the `saving` flag; the `visible` fade flag.
 *
 * Every handler does at most one asynchronous thing (arm a timer, or call
 * `user.update`); a transition returns that thing as an `Effect` and the host
 * carries it out. Timer expiries and the settling of the update come back as
 * events.
 */
module StepMachine {
  import opened Common
  import opened Profile

  /** `step`: 0 intro, 1 form, 2 done. */
  datatype Step = Intro | Form | Done

  /** The source's numeric encoding of a step. */
  function Rank(st: Step): nat {
    match st
    case Intro => 0
    case Form => 1
    case Done => 2
  }

  /** Milliseconds until the fade-in after mount. */
  const FadeInDelay: nat := 60
  /** Milliseconds the "all set" step stays on screen. */
  const DisplayDelay: nat := 1800
  /** Milliseconds of fade-out before `onComplete` is called. */
  const FadeOutDelay: nat := 400

  /** The callbacks the modal hands to `setTimeout`. */
  datatype Timeout =
    | FadeIn    // setVisible(true)
    | Display   // setVisible(false), then arm Complete
    | Complete  // onComplete()

  /** The one asynchronous thing a handler may start. */
  datatype Effect = After(delay: nat, timeout: Timeout) | Write(req: UpdateRequest)

  /** What the user can do inside the modal. */
  datatype Action =
    | Proceed
    | Skip
    | EditUsername(username: string)
    | PickTeam(team: string)
    | PickRole(role: string)
    | RequestSave

  /** Everything that can happen to a mounted modal. */
  datatype ModalEvent =
    | Act(action: Action)
    | SaveResolved(ok: bool)
    | FadeInElapsed
    | DisplayElapsed

  /** The modal's state; `id` tells one mounted instance from the next. */
  datatype ModalState = ModalState(id: nat, step: Step, form: Draft, saving: bool, visible: bool)

  datatype Transition = Transition(next: ModalState, effect: Option<Effect>)

  /** A freshly mounted instance. */
  function Initial(id: nat): ModalState {
    ModalState(id, Intro, EmptyDraft, false, false)
  }

  /** True of the three field-edit actions. */
  predicate IsEdit(a: Action) {
    a.EditUsername? || a.PickTeam? || a.PickRole?
  }

  /**
   * What a timer callback or the settled update does besides setting state;
   * it runs even when the instance has gone, since neither the 1800 ms nor
   * the 400 ms timer is ever cleared.
   */
  function Continuation(e: ModalEvent): Option<Effect> {
    match e
    case SaveResolved(ok) => if ok then Some(After(DisplayDelay, Display)) else None
    case DisplayElapsed => Some(After(FadeOutDelay, Complete))
    case _ => None
  }

  /**
   * The handlers of the buttons and inputs other than save. A control that is
   * not rendered in the current step cannot be used, so its action changes
   * nothing; team and role buttons exist only for the listed values.
   */
  function React(m: ModalState, a: Action): (r: Transition)
    requires !a.RequestSave?
    ensures r.next.id == m.id && r.next.saving == m.saving
    ensures r.effect.Some? <==> a == Skip && m.step == Intro
    ensures r.effect.Some? ==> r.effect.value == After(FadeOutDelay, Complete) && !r.next.visible
    ensures r.next.step != m.step ==> a == Proceed && m.step == Intro && r.next.step == Form
    ensures m.step != Form ==> r.next.form == m.form
  {
    match a
    case Proceed =>
      if m.step == Intro then Transition(m.(step := Form), None) else Transition(m, None)
    case Skip =>
      if m.step == Intro then Transition(m.(visible := false), Some(After(FadeOutDelay, Complete)))
      else Transition(m, None)
    case EditUsername(u) =>
      if m.step == Form then Transition(m.(form := m.form.(username := u)), None)
      else Transition(m, None)
    case PickTeam(t) =>
      if m.step == Form && t in Teams then Transition(m.(form := m.form.(favTeam := t)), None)
      else Transition(m, None)
    case PickRole(r) =>
      if m.step == Form && r in Roles then Transition(m.(form := m.form.(role := r)), None)
      else Transition(m, None)
  }

  /**
   * `handleSave`, run when the enabled save button is pressed. With no user,
   * `user.update` throws before anything is sent and the handler's catch
   * clears `saving` again, so nothing changes.
   */
  function Save(m: ModalState, hasUser: bool): (r: Transition)
    ensures r.effect.Some? <==> m.step == Form && SaveEnabled(m.form, m.saving) && hasUser
    ensures r.effect.Some? ==> r.effect.value == Write(Payload(m.form)) && r.next == m.(saving := true)
    ensures r.effect.None? ==> r.next == m
  {
    if m.step == Form && SaveEnabled(m.form, m.saving) && hasUser then
      Transition(m.(saving := true), Some(Write(Payload(m.form))))
    else
      Transition(m, None)
  }

  /** The settled update and the two timer callbacks that touch the instance. */
  function Settle(m: ModalState, e: ModalEvent): (r: Transition)
    requires !e.Act?
    ensures r.next.id == m.id && r.next.form == m.form
    ensures r.effect == Continuation(e)
    ensures r.effect.Some? ==> r.effect.value.After? && r.effect.value.timeout != FadeIn
    ensures e == FadeInElapsed ==> r.next.visible
    ensures e == DisplayElapsed ==> !r.next.visible
    ensures r.next.step != m.step ==> e == SaveResolved(true) && r.next.step == Done
  {
    match e
    case SaveResolved(ok) =>
      Transition(if ok then m.(step := Done) else m.(saving := false), Continuation(e))
    case FadeInElapsed => Transition(m.(visible := true), None)
    case DisplayElapsed => Transition(m.(visible := false), Continuation(e))
  }

  /**
   * One event on one instance. `hasUser` tells whether `useUser()` currently
   * yields a user object.
   */
  function ModalStep(m: ModalState, e: ModalEvent, hasUser: bool): (r: Transition)
    ensures r.next.id == m.id
    ensures Rank(m.step) <= Rank(r.next.step)
    ensures r.next.step == Form && m.step != Form ==> e == Act(Proceed)
    ensures r.next.step == Done && m.step != Done ==> e == SaveResolved(true)
    ensures (r.effect.Some? && r.effect.value.Write?)
        <==> (e == Act(RequestSave) && m.step == Form && SaveEnabled(m.form, m.saving) && hasUser)
    ensures r.effect.Some? && r.effect.value.Write? ==> r.effect.value.req == Payload(m.form) && r.next.saving
    ensures r.next.form != m.form ==> e.Act? && IsEdit(e.action) && m.step == Form
    ensures WellFormed(m.form) ==> WellFormed(r.next.form)
    ensures r.next.saving != m.saving ==>
              (r.next.saving && r.effect.Some? && r.effect.value.Write?) || e == SaveResolved(false)
  {
    match e
    case Act(a) => if a.RequestSave? then Save(m, hasUser) else React(m, a)
    case _ => Settle(m, e)
  }

  /** Skip performs no write: it only starts the fade-out and arms one `onComplete`. */
  lemma SkipNoWrite(m: ModalState, hasUser: bool)
    requires m.step == Intro
    ensures ModalStep(m, Act(Skip), hasUser)
         == Transition(m.(visible := false), Some(After(FadeOutDelay, Complete)))
  {
  }

  /** A failed save keeps the form step and the draft, clears `saving`, and arms nothing. */
  lemma FailureKeepsDraft(m: ModalState, hasUser: bool)
    ensures ModalStep(m, SaveResolved(false), hasUser) == Transition(m.(saving := false), None)
  {
  }

  /** A successful save shows the done step and arms the 1800 ms display timer. */
  lemma SuccessShowsDone(m: ModalState, hasUser: bool)
    ensures ModalStep(m, SaveResolved(true), hasUser)
         == Transition(m.(step := Done), Some(After(DisplayDelay, Display)))
  {
  }

  /** Each edit on the form replaces exactly its own field. */
  lemma EditReplacesOneField(m: ModalState, a: Action, hasUser: bool)
    requires m.step == Form && IsEdit(a)
    ensures ModalStep(m, Act(a), hasUser).effect == None
    ensures a.EditUsername? ==> ModalStep(m, Act(a), hasUser).next == m.(form := m.form.(username := a.username))
    ensures a.PickTeam? ==>
              ModalStep(m, Act(a), hasUser).next
              == (if a.team in Teams then m.(form := m.form.(favTeam := a.team)) else m)
    ensures a.PickRole? ==>
              ModalStep(m, Act(a), hasUser).next
              == (if a.role in Roles then m.(form := m.form.(role := a.role)) else m)
  {
  }

  /** A save pressed while one is outstanding is dropped: two presses make at most one write. */
  lemma SaveCoalesced(m: ModalState, hasUser: bool)
    ensures var r1 := ModalStep(m, Act(RequestSave), hasUser);
            var r2 := ModalStep(r1.next, Act(RequestSave), hasUser);
            !(r1.effect.Some? && r2.effect.Some?)
  {
  }

  /** The final state and the effects of a sequence of events on one instance. */
  datatype Trace = Trace(last: ModalState, effects: seq<Effect>)

  function Emitted(o: Option<Effect>): seq<Effect> {
    if o.Some? then [o.value] else []
  }

  function Run(m: ModalState, es: seq<ModalEvent>, hasUser: bool): Trace
    decreases |es|
  {
    if es == [] then Trace(m, [])
    else
      var t := ModalStep(m, es[0], hasUser);
      var rest := Run(t.next, es[1..], hasUser);
      Trace(rest.last, Emitted(t.effect) + rest.effects)
  }

  /** Number of writes among some effects. */
  function WriteCount(effs: seq<Effect>): nat {
    if effs == [] then 0 else (if effs[0].Write? then 1 else 0) + WriteCount(effs[1..])
  }

  /** Number of failed saves among some events. */
  function Failures(es: seq<ModalEvent>): nat {
    if es == [] then 0 else (if es[0] == SaveResolved(false) then 1 else 0) + Failures(es[1..])
  }

  lemma {:induction false} WriteCountAppend(a: seq<Effect>, b: seq<Effect>)
    ensures WriteCount(a + b) == WriteCount(a) + WriteCount(b)
  {
    if a == [] {
      assert a + b == b;
    } else {
      assert (a + b)[0] == a[0];
      assert (a + b)[1..] == a[1..] + b;
      WriteCountAppend(a[1..], b);
    }
  }

  /** The step never moves backward, whatever events arrive. */
  lemma {:induction false} RunNeverGoesBack(m: ModalState, es: seq<ModalEvent>, hasUser: bool)
    ensures Rank(m.step) <= Rank(Run(m, es, hasUser).last.step)
    decreases |es|
  {
    if es != [] {
      RunNeverGoesBack(ModalStep(m, es[0], hasUser).next, es[1..], hasUser);
    }
  }

  /**
   * Writes are never more than one in flight: every write after the first
   * needs a failed save before it, and a save outstanding on entry counts
   * against the budget.
   */
  lemma {:induction false} WritesBoundedByFailures(m: ModalState, es: seq<ModalEvent>, hasUser: bool)
    ensures WriteCount(Run(m, es, hasUser).effects) + (if m.saving then 1 else 0) <= 1 + Failures(es)
    decreases |es|
  {
    if es != [] {
      var t := ModalStep(m, es[0], hasUser);
      WritesBoundedByFailures(t.next, es[1..], hasUser);
      WriteCountAppend(Emitted(t.effect), Run(t.next, es[1..], hasUser).effects);
    }
  }

  /** Without a save request, no write happens: in particular none on the skip path. */
  lemma {:induction false} NoSaveNoWrite(m: ModalState, es: seq<ModalEvent>, hasUser: bool)
    requires forall k :: 0 <= k < |es| ==> es[k] != Act(RequestSave)
    ensures WriteCount(Run(m, es, hasUser).effects) == 0
    decreases |es|
  {
    if es != [] {
      var t := ModalStep(m, es[0], hasUser);
      NoSaveNoWrite(t.next, es[1..], hasUser);
      WriteCountAppend(Emitted(t.effect), Run(t.next, es[1..], hasUser).effects);
    }
  }

  /**
   * Every write sends the completed flag with a team and a role picked from
   * the lists, so an unready draft is never persisted.
   */
  lemma {:induction false} WritesCarryPickedChoices(m: ModalState, es: seq<ModalEvent>, hasUser: bool)
    requires WellFormed(m.form)
    ensures forall k :: 0 <= k < |Run(m, es, hasUser).effects| && Run(m, es, hasUser).effects[k].Write? ==>
              var md := Run(m, es, hasUser).effects[k].req.unsafeMetadata;
              md.profileComplete && md.favTeam in Teams && md.role in Roles
    decreases |es|
  {
    if es != [] {
      var t := ModalStep(m, es[0], hasUser);
      WritesCarryPickedChoices(t.next, es[1..], hasUser);
      if t.effect.Some? && t.effect.value.Write? {
        ReadyIffPicked(m.form);
      }
    }
  }

  /**
   * The modal as a component: one method per handler, each proved to do what
   * `ModalStep` says.
   */
  class ProfileModal {
    const id: nat
    var step: Step
    var form: Draft
    var saving: bool
    var visible: bool

    function View(): ModalState
      reads this
    {
      ModalState(id, step, form, saving, visible)
    }

    constructor (id: nat)
      ensures View() == Initial(id)
    {
      this.id := id;
      step := Intro;
      form := EmptyDraft;
      saving := false;
      visible := false;
    }

    /** "Complete Profile" on the intro step. */
    method Proceed() returns (effect: Option<Effect>)
      modifies this
      ensures Transition(View(), effect) == React(old(View()), Action.Proceed)
    {
      effect := None;
      if step == Intro {
        step := Form;
      }
    }

    /** "Skip for now" on the intro step. */
    method Skip() returns (effect: Option<Effect>)
      modifies this
      ensures Transition(View(), effect) == React(old(View()), Action.Skip)
    {
      effect := None;
      if step == Intro {
        visible := false;
        effect := Some(After(FadeOutDelay, Complete));
      }
    }

    method EditUsername(u: string) returns (effect: Option<Effect>)
      modifies this
      ensures Transition(View(), effect) == React(old(View()), Action.EditUsername(u))
    {
      effect := None;
      if step == Form {
        form := form.(username := u);
      }
    }

    method PickTeam(t: string) returns (effect: Option<Effect>)
      modifies this
      ensures Transition(View(), effect) == React(old(View()), Action.PickTeam(t))
    {
      effect := None;
      if step == Form && t in Teams {
        form := form.(favTeam := t);
      }
    }

    method PickRole(r: string) returns (effect: Option<Effect>)
      modifies this
      ensures Transition(View(), effect) == React(old(View()), Action.PickRole(r))
    {
      effect := None;
      if step == Form && r in Roles {
        form := form.(role := r);
      }
    }

    /** `handleSave` up to its `await`. */
    method RequestSave(hasUser: bool) returns (effect: Option<Effect>)
      modifies this
      ensures Transition(View(), effect) == Save(old(View()), hasUser)
    {
      effect := None;
      if step == Form && SaveEnabled(form, saving) {
        saving := true;
        if hasUser {
          effect := Some(Write(Payload(form)));
        } else {
          saving := false;
        }
      }
    }

    /** `handleSave` after its `await`: the try tail or the catch clause. */
    method SaveResolved(ok: bool) returns (effect: Option<Effect>)
      modifies this
      ensures Transition(View(), effect) == Settle(old(View()), ModalEvent.SaveResolved(ok))
    {
      if ok {
        step := Done;
        effect := Some(After(DisplayDelay, Display));
      } else {
        saving := false;
        effect := None;
      }
    }

    /** The 60 ms timer armed on mount. */
    method FadeInElapsed() returns (effect: Option<Effect>)
      modifies this
      ensures Transition(View(), effect) == Settle(old(View()), ModalEvent.FadeInElapsed)
    {
      visible := true;
      effect := None;
    }

    /** The 1800 ms timer armed by a successful save. */
    method DisplayElapsed() returns (effect: Option<Effect>)
      modifies this
      ensures Transition(View(), effect) == Settle(old(View()), ModalEvent.DisplayElapsed)
    {
      visible := false;
      effect := Some(After(FadeOutDelay, Complete));
    }
  }
}
