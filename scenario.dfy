/**
 * The onboarding walk-through of one signed-in user with an incomplete
 * profile, event by event: the trigger opens the modal, the user proceeds and
 * picks a team and a role, the first save fails, the second succeeds, and
 * after the display and fade-out timers the header is told exactly once.
 * Handles count up from 0 in the order work is started.
 */
module Scenario {
  import opened Common
  import opened Profile
  import opened Gate
  import opened StepMachine
  import opened Host

  const Signed := Snapshot(true, true, Some(User(1, false)))
  const Picked := Draft("", "Australia", "Analyst")
  const Sent := UpdateRequest(None, Metadata(true, "Australia", "Analyst"))

  /** The first instance on the form with draft `d`. */
  function OnForm(d: Draft, saving: bool, pending: map<nat, Task>, next: nat, writes: seq<WriteRecord>): NavState {
    NavState(Signed, false, Some(ModalState(0, Form, d, saving, true)), 1, pending, next, writes, [])
  }

  const Opening := [TimerFired(0), TimerFired(1)]
  const Filling := [ModalAction(Proceed), ModalAction(PickTeam("Australia")), ModalAction(PickRole("Analyst"))]
  const Saving := [ModalAction(RequestSave), ModalAction(RequestSave)]
  const Failing := [UpdateSettled(2, false)]

  /** The trigger fires after 700 ms and the fade-in after 60 ms more. */
  lemma OpenStage()
    ensures Replay(Mount(Signed), Opening)
         == NavState(Signed, false, Some(ModalState(0, Intro, EmptyDraft, false, true)), 1, map[], 2, [], [])
  {
    var s0 := Mount(Signed);
    assert s0 == NavState(Signed, false, None, 0, map[0 := Timer(ShowDelay, ShowModal)], 1, [], []);
    var s1 := NavStep(s0, TimerFired(0));
    assert s1 == NavState(Signed, false, Some(Initial(0)), 1, map[1 := Timer(FadeInDelay, ModalTimer(0, FadeIn))], 2, [], []);
    ReplayCons(s0, Opening);
    ReplayCons(s1, Opening[1..]);
  }

  /** Proceeding and picking both choices changes only the draft and the step. */
  lemma FillStage()
    ensures Replay(NavState(Signed, false, Some(ModalState(0, Intro, EmptyDraft, false, true)), 1, map[], 2, [], []), Filling)
         == OnForm(Picked, false, map[], 2, [])
  {
    var s0 := NavState(Signed, false, Some(ModalState(0, Intro, EmptyDraft, false, true)), 1, map[], 2, [], []);
    var s1 := NavStep(s0, ModalAction(Proceed));
    assert s1 == OnForm(EmptyDraft, false, map[], 2, []);
    var s2 := NavStep(s1, ModalAction(PickTeam("Australia")));
    assert s2 == OnForm(Draft("", "Australia", ""), false, map[], 2, []);
    ReplayCons(s0, Filling);
    ReplayCons(s1, Filling[1..]);
    ReplayCons(s2, Filling[2..]);
  }

  /** Two presses of save start one update, under handle 2. */
  lemma SaveStage()
    ensures Replay(OnForm(Picked, false, map[], 2, []), Saving)
         == OnForm(Picked, true, map[2 := Update(0, Sent)], 3, [WriteRecord(0, Sent)])
  {
    var s0 := OnForm(Picked, false, map[], 2, []);
    var s1 := NavStep(s0, ModalAction(RequestSave));
    assert s1 == OnForm(Picked, true, map[2 := Update(0, Sent)], 3, [WriteRecord(0, Sent)]);
    ReplayCons(s0, Saving);
    ReplayCons(s1, Saving[1..]);
  }

  /** The update fails: the draft stays, save is enabled again, nothing is armed. */
  lemma FailStage()
    ensures Replay(OnForm(Picked, true, map[2 := Update(0, Sent)], 3, [WriteRecord(0, Sent)]), Failing)
         == OnForm(Picked, false, map[], 3, [WriteRecord(0, Sent)])
  {
    var s0 := OnForm(Picked, true, map[2 := Update(0, Sent)], 3, [WriteRecord(0, Sent)]);
    assert s0.pending - {2} == map[];
    ReplayCons(s0, Failing);
  }

  const Retrying := [ModalAction(RequestSave), UpdateSettled(3, true)]
  const Closing := [TimerFired(4), TimerFired(5)]

  /** The retry starts a second update, under handle 3, which succeeds. */
  lemma RetryStage()
    ensures Replay(OnForm(Picked, false, map[], 3, [WriteRecord(0, Sent)]), Retrying)
         == NavState(Signed, false, Some(ModalState(0, Done, Picked, true, true)), 1,
                     map[4 := Timer(DisplayDelay, ModalTimer(0, Display))], 5,
                     [WriteRecord(0, Sent), WriteRecord(0, Sent)], [])
  {
    var s0 := OnForm(Picked, false, map[], 3, [WriteRecord(0, Sent)]);
    var s1 := NavStep(s0, ModalAction(RequestSave));
    assert s1 == OnForm(Picked, true, map[3 := Update(0, Sent)], 4, [WriteRecord(0, Sent), WriteRecord(0, Sent)]);
    assert s1.pending - {3} == map[];
    ReplayCons(s0, Retrying);
    ReplayCons(s1, Retrying[1..]);
  }

  /** 1800 ms later the modal fades, and 400 ms after that it unmounts and `onComplete` has run once. */
  lemma CloseStage()
    ensures Replay(NavState(Signed, false, Some(ModalState(0, Done, Picked, true, true)), 1,
                            map[4 := Timer(DisplayDelay, ModalTimer(0, Display))], 5,
                            [WriteRecord(0, Sent), WriteRecord(0, Sent)], []), Closing)
         == NavState(Signed, false, None, 1, map[], 6, [WriteRecord(0, Sent), WriteRecord(0, Sent)], [0])
  {
    var w := [WriteRecord(0, Sent), WriteRecord(0, Sent)];
    var s0 := NavState(Signed, false, Some(ModalState(0, Done, Picked, true, true)), 1,
                       map[4 := Timer(DisplayDelay, ModalTimer(0, Display))], 5, w, []);
    assert s0.pending - {4} == map[];
    var s1 := NavStep(s0, TimerFired(4));
    assert s1 == NavState(Signed, false, Some(ModalState(0, Done, Picked, true, false)), 1,
                          map[5 := Timer(FadeOutDelay, ModalTimer(0, Complete))], 6, w, []);
    assert s1.pending - {5} == map[];
    ReplayCons(s0, Closing);
    ReplayCons(s1, Closing[1..]);
  }

  /**
   * The whole walk-through: one write per press that found save enabled, both
   * carrying the picked choices and no username, and a single `onComplete`.
   */
  lemma SaveScenario()
    ensures var r := Replay(Mount(Signed), Opening + Filling + Saving + Failing + Retrying + Closing);
            r.writes == [WriteRecord(0, Sent), WriteRecord(0, Sent)]
            && !ShowProfileModal(r) && r.completions == [0] && r.pending == map[]
  {
    OpenStage();
    FillStage();
    SaveStage();
    FailStage();
    RetryStage();
    CloseStage();
    var s := Mount(Signed);
    ReplayAppend(s, Opening, Filling);
    ReplayAppend(s, Opening + Filling, Saving);
    ReplayAppend(s, Opening + Filling + Saving, Failing);
    ReplayAppend(s, Opening + Filling + Saving + Failing, Retrying);
    ReplayAppend(s, Opening + Filling + Saving + Failing + Retrying, Closing);
  }

  /** Replaying a non-empty list steps through its first event. */
  lemma ReplayCons(s: NavState, es: seq<Event>)
    requires es != []
    ensures Replay(s, es) == Replay(NavStep(s, es[0]), es[1..])
  {
  }

  /** Replaying two lists one after the other is replaying their concatenation. */
  lemma {:induction false} ReplayAppend(s: NavState, a: seq<Event>, b: seq<Event>)
    ensures Replay(s, a + b) == Replay(Replay(s, a), b)
    decreases |a|
  {
    if a == [] {
      assert a + b == b;
    } else {
      assert (a + b)[0] == a[0];
      assert (a + b)[1..] == a[1..] + b;
      ReplayAppend(NavStep(s, a[0]), a[1..], b);
    }
  }
}
