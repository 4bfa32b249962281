# CricScore onboarding: the profile-completion flow of the navigation header

This project models how the CricScore navigation header
(`src/Components/Navbar.js`) steers a newly signed-in user through completing
their profile, and proves properties of that model in Dafny.

- **Profile** (`profile.dfy`): the draft the modal collects (username, favourite
  team, role), the `ready` guard of the save button, and the exact
  `user.update` request a save sends.
- **Gate** (`gate.dfy`): the `{ isLoaded, isSignedIn, user }` snapshot that
  `useUser()` supplies, and the condition under which the header both arms
  the 700 ms automatic trigger and renders the "Complete profile" buttons.
- **StepMachine** (`step_machine.dfy`): `CompleteProfileModal`. It has the
  intro, form and done steps, the draft, the `saving` flag and the `visible`
  fade flag.
  - The pure transition function `ModalStep` says what each event does, and
    trace lemmas cover sequences of events.
  - The class `ProfileModal` has one method per handler, each proved to do
    what `ModalStep` says.
- **Host** (`host.dfy`): the header's state as a value. It holds the menu
  flag, the `showProfileModal` flag with the mounted instance, the pending
  timers and update promises (a map from handle to task, as
  `setTimeout`/`clearTimeout` see it), and logs of every `user.update` and
  every `onComplete` call.
  - `NavStep` is one event.
  - `Inv` holds in every reachable state.
  - Lemmas state what the trigger, the buttons, saving, skipping and
    completing do.
- **NavbarComponent** (`navbar.dfy`): the header as a class. It has one method
  per event, each proved to move its state exactly as `Host.NavStep` says.
  A short client method drives the skip path through it.
- **Scenario** (`scenario.dfy`): a concrete walk-through of one user, event by
  event. The modal opens, the user picks a team and a role, the first save
  fails, the retry succeeds, and `onComplete` is called once.

Any pending timer may fire next, and any outstanding update may settle next.
The model does not order them by their delays, so the safety properties
proved here hold under every order, including the real one.

In a few places the code does less than the flow is evidently meant to do, and the model follows the code:

- The profile effect re-runs every time one of its dependencies (`isLoaded`,
  `isSignedIn`, `user`) changes. So a new user object for a still-incomplete
  profile re-arms the trigger. The trigger is evidently meant to fire at most
  once per session, but nothing in the code remembers that it has fired. The
  model represents object identity by a revision number in `Gate.User`.
- `onComplete` is evidently meant to run once per modal episode. Only the
  60 ms fade-in timer is cleared when the modal unmounts, however. The
  1800 ms display timer and the 400 ms `onComplete` timer are never cleared,
  and "Skip for now" stays pressable while the modal fades out. Two skips
  therefore call `onComplete` twice, and a stale call can close a modal
  reopened in between. `Host.DoubleSkipCompletesTwice` and
  `Host.StaleCompletionClosesReopenedModal` state this.
- With no user object at save time, `user.update` throws before any request
  is made. The `catch` clears `saving`, and nothing is written.
- Fading out is the `visible` flag going false. There is no separate
  "closing" state.

## Model

| member | source | states |
|---|---|---|
| Profile.Payload | src/Components/Navbar.js:39-46 | the request always carries `profileComplete: true`, and never sends an empty username |
| Profile.PayloadRoundTrip | src/Components/Navbar.js:39-46 | the team, the role and the username (empty when omitted) can all be read back from the request |
| Profile.PayloadInjective | src/Components/Navbar.js:39-46 | distinct drafts produce distinct requests |
| Profile.UsernameSentIffNonEmpty | src/Components/Navbar.js:40 | `username` is sent exactly when the field is non-empty (a whitespace-only name is sent too), and then verbatim; otherwise it is left undefined |
| Profile.PayloadExamples | src/Components/Navbar.js:39-46 | the named-fan example and the same choices with the name left empty produce the expected requests |
| Profile.Ready | src/Components/Navbar.js:66 | `ready` holds only when the team and role that a save would send are both non-empty |
| Profile.SaveEnabled | src/Components/Navbar.js:236 | the save button is enabled exactly when `ready` holds and no save is in flight |
| Profile.ReadyIgnoresUsername | src/Components/Navbar.js:66 | the username never affects `ready` or whether save is enabled |
| Profile.ReadyIffPicked | src/Components/Navbar.js:29-33 | for a draft built from the buttons, `ready` holds iff a team from TEAMS and a role from ROLES have been picked |
| Gate.GateDelay | src/Components/Navbar.js:298-307 | the effect schedules a delay iff loaded, signed in and incomplete, and the delay is 700 ms |
| Gate.NeedsProfile | src/Components/Navbar.js:335-347 | the buttons (the desktop one here, the mobile one at lines 402-424 alike) are rendered only when loaded and signed in. A complete profile hides them, and a missing user object shows them |
| Gate.CompleteProfileNeverScheduled | src/Components/Navbar.js:301-302 | once the profile is complete nothing is scheduled |
| StepMachine.ModalStep | src/Components/Navbar.js:12-289 | the step never goes back. Form is reached only by proceeding, and done only by a successful save. A write is issued iff an enabled save is pressed on the form with a user, and it carries the draft's payload. Only edits on the form change the draft. Drafts stay within the offered choices |
| StepMachine.React | src/Components/Navbar.js:123-214 | the handlers other than save never touch `saving` and never write. Only skip on the intro arms a timer, the 400 ms `onComplete`. The step moves only from intro to form by proceeding. The draft changes only on the form |
| StepMachine.Save | src/Components/Navbar.js:35-64 | `handleSave` starts an update iff the form's save is enabled and there is a user. The update carries the draft's payload and sets `saving`; otherwise nothing changes |
| StepMachine.Settle | src/Components/Navbar.js:55-63 | the settled update and the timers (the fade-in of line 25 included) keep the draft and arm only the display and completion timers. The fade-in shows the modal and the display timer hides it. Only success changes the step, to done |
| StepMachine.SkipNoWrite | src/Components/Navbar.js:132-136 | skip on the intro only fades out and arms one `onComplete` after 400 ms, with no write |
| StepMachine.FailureKeepsDraft | src/Components/Navbar.js:60-63 | a failed update keeps the step and the draft, clears `saving`, and arms nothing |
| StepMachine.SuccessShowsDone | src/Components/Navbar.js:55-59 | a successful update shows the done step and arms the 1800 ms timer |
| StepMachine.EditReplacesOneField | src/Components/Navbar.js:161-214 | each edit on the form replaces exactly its own field; team and role accept only listed values |
| StepMachine.SaveCoalesced | src/Components/Navbar.js:35-36 | two presses of save in a row produce at most one effect |
| StepMachine.RunNeverGoesBack | src/Components/Navbar.js:14 | over any sequence of events the step never moves backward |
| StepMachine.WritesBoundedByFailures | src/Components/Navbar.js:35-64 | over any sequence of events on one instance, writes beyond the first each need an earlier failure: each instance has at most one update in flight. Two instances can each have one. Skip, then within the 400 ms fade-out proceed, pick a team and a role and save. The skip's `onComplete` then unmounts the instance while its update is pending, and the button mounts a new instance that saves again |
| StepMachine.NoSaveNoWrite | src/Components/Navbar.js:132-136 | without a save request no write happens; in particular none happens on the skip path |
| StepMachine.WritesCarryPickedChoices | src/Components/Navbar.js:39-46 | every write sends `profileComplete: true` with a listed team and a listed role, so an unready draft is never persisted |
| StepMachine.ProfileModal.constructor | src/Components/Navbar.js:14-21 | a new instance is on the intro, with an empty draft, not saving and not yet visible |
| StepMachine.ProfileModal.Proceed | src/Components/Navbar.js:123 | the "Complete Profile" button moves the intro to the form |
| StepMachine.ProfileModal.Skip | src/Components/Navbar.js:132-136 | "Skip for now" hides the modal and arms `onComplete` after 400 ms |
| StepMachine.ProfileModal.EditUsername | src/Components/Navbar.js:161 | the input replaces the username |
| StepMachine.ProfileModal.PickTeam | src/Components/Navbar.js:182-185 | a team button sets the favourite team |
| StepMachine.ProfileModal.PickRole | src/Components/Navbar.js:211-214 | a role button sets the role |
| StepMachine.ProfileModal.RequestSave | src/Components/Navbar.js:35-46 | an enabled save sets `saving` and issues the update; with no user the catch clears `saving` again |
| StepMachine.ProfileModal.SaveResolved | src/Components/Navbar.js:55-63 | success moves to done and arms the 1800 ms timer; failure clears `saving` |
| StepMachine.ProfileModal.FadeInElapsed | src/Components/Navbar.js:24-27 | the 60 ms timer makes the modal visible |
| StepMachine.ProfileModal.DisplayElapsed | src/Components/Navbar.js:56-58 | the 1800 ms timer hides the modal and arms `onComplete` after 400 ms |
| Host.RunProfileEffect | src/Components/Navbar.js:298-307 | the effect arms one 700 ms trigger under a new handle iff the snapshot needs the profile. The modal, the snapshot and the writes stay as they were |
| Host.Mount | src/Components/Navbar.js:292-307 | the first render has the menu closed, no modal and empty logs. Handle 0 is the trigger, present iff the profile is needed |
| Host.Open | src/Components/Navbar.js:451-453 | `setShowProfileModal(true)` (lines 304, 343, 419) mounts a fresh instance and arms its fade-in when none is shown. When one is shown, nothing changes |
| Host.Close | src/Components/Navbar.js:452 | `onComplete` logs the call and unmounts the modal. The unmount clears the fade-in (the cleanup at line 26) of the instance that was shown. Every other pending task survives unchanged, in particular that instance's 1800 ms and 400 ms timers. The snapshot, the menu and the mount count are unchanged |
| Host.Deliver | src/Components/Navbar.js:35-64 | an event for an instance other than the one shown leaves the shown modal and the writes alone. Any event keeps the snapshot, the mount count and whether a modal is shown, and adds at most one write |
| Host.NavStep | src/Components/Navbar.js:292-456 | counters of mounts and handles never decrease, and only an identity change changes the snapshot |
| Host.StepInv | src/Components/Navbar.js:292-456 | every event keeps the invariant. Handles are issued in order, and at most one trigger is armed, only for a snapshot that needs the profile. A fade-in timer belongs to the mounted instance. At most one update of the mounted instance is in flight, and only while it is saving on the form. The draft holds only offered choices |
| Host.ReachableInv | src/Components/Navbar.js:292-456 | every state reachable from the first render satisfies the invariant |
| Host.StepFrame | src/Components/Navbar.js:292-456 | one event makes at most one `user.update` call and at most one `onComplete` call. Only the identity service changes the snapshot. A modal that appears is a fresh instance. The menu changes only by its own buttons |
| Host.ArmedTriggerIsNeeded | src/Components/Navbar.js:299-304 | an armed trigger always belongs to a loaded, signed-in, incomplete identity and waits 700 ms |
| Host.IdentityChangeArmsOneTrigger | src/Components/Navbar.js:298-307 | a change of dependencies clears the armed trigger and arms exactly one new trigger iff the new snapshot needs the profile; an unchanged snapshot does nothing |
| Host.SignedOutNeverOpens | src/Components/Navbar.js:299 | while not loaded or not signed in, no event but an identity change can show the modal |
| Host.SignedOutStaysClosed | src/Components/Navbar.js:299 | the same holds over any sequence of events without an identity change |
| Host.CompleteProfileButton | src/Components/Navbar.js:341-347 | the button acts only while the profile is needed. It shows the modal at once; the mobile button also closes the menu. A modal already shown keeps its instance |
| Host.TriggerWhileShownKeepsInstance | src/Components/Navbar.js:304 | the trigger firing while the modal is shown changes nothing else |
| Host.SaveTwiceWritesOnce | src/Components/Navbar.js:35-46 | pressing save twice in a row makes at most one `user.update` call |
| Host.FailedSave | src/Components/Navbar.js:60-63 | a failed update leaves the instance on the form with its draft and clears `saving`, with nothing armed, written or completed |
| Host.SuccessfulSaveCompletesOnce | src/Components/Navbar.js:55-59 | after success the done step shows. 1800 ms later the modal fades, and 400 ms after that `onComplete` runs once and the modal unmounts, with no further write |
| Host.SkipCompletesWithoutWrite | src/Components/Navbar.js:132-136 | skip writes nothing; 400 ms later `onComplete` runs once and the modal unmounts |
| Host.DoubleSkipCompletesTwice | src/Components/Navbar.js:132-136 | two presses of skip call `onComplete` twice |
| Host.StaleCompletionClosesReopenedModal | src/Components/Navbar.js:451-453 | the second, stale `onComplete` of a double skip closes a modal reopened from the button in between |
| NavbarComponent.Navbar.constructor | src/Components/Navbar.js:292-307 | the first render has the menu closed and no modal, and runs the profile effect once |
| NavbarComponent.Navbar.ProfileEffect | src/Components/Navbar.js:298-307 | the effect arms the trigger exactly as `Gate.GateDelay` says |
| NavbarComponent.Navbar.SetShown | src/Components/Navbar.js:451-453 | `setShowProfileModal(true)` updates the state as `Host.Open` says. A mounted modal stays the same object, and a new instance is allocated exactly when none is mounted |
| NavbarComponent.Navbar.OnComplete | src/Components/Navbar.js:451-453 | `onComplete` logs the call, hides the modal and clears the fade-in of the instance it unmounts |
| NavbarComponent.Navbar.OnIdentity | src/Components/Navbar.js:298-307 | a new snapshot clears the old trigger and re-runs the effect; an unchanged one does nothing |
| NavbarComponent.Navbar.ToggleMenu | src/Components/Navbar.js:377 | the hamburger flips the menu |
| NavbarComponent.Navbar.CloseMenu | src/Components/Navbar.js:393-438 | a mobile link (line 393), the mobile login (line 430) or the mobile sign-up (line 438) closes the menu |
| NavbarComponent.Navbar.CompleteProfile | src/Components/Navbar.js:341-424 | the desktop button (341-347) and the mobile one (417-424) update the state as `Host.NavStep` says |
| NavbarComponent.Navbar.OnModalAction | src/Components/Navbar.js:122-236 | a click in the mounted modal is handled by its instance |
| NavbarComponent.Navbar.OnTimer | src/Components/Navbar.js:304 | a pending timer runs its callback; a cleared or fired handle does nothing |
| NavbarComponent.Navbar.OnUpdateSettled | src/Components/Navbar.js:39-63 | a settled update resumes its handler, even after its instance has gone |
| NavbarComponent.SkipScenario | src/Components/Navbar.js:132-136 | through the header class: a signed-in user with no user object presses the desktop button, then skip. After the 400 ms timer the modal is gone, nothing was written and `onComplete` ran once |
| Scenario.OpenStage | src/Components/Navbar.js:24-27 | for a signed-in incomplete user, the trigger then the fade-in show the intro |
| Scenario.FillStage | src/Components/Navbar.js:123-214 | proceeding and picking Australia and Analyst change only the step and the draft |
| Scenario.SaveStage | src/Components/Navbar.js:35-46 | two presses of save start one update with no username |
| Scenario.FailStage | src/Components/Navbar.js:60-63 | the failed update returns to an enabled form with the draft kept |
| Scenario.RetryStage | src/Components/Navbar.js:35-55 | the retry sends the same request and succeeds |
| Scenario.CloseStage | src/Components/Navbar.js:56-59 | the two timers unmount the modal after one `onComplete` |
| Scenario.SaveScenario | src/Components/Navbar.js:12-307 | over the whole walk-through there are two writes of the same request, one `onComplete`, and nothing left pending |

## Left out

- Rendering is not modelled: JSX layout, styling, the CSS fade and pop animations, the greeting text, the nav link lists and the loading skeletons.
- Real time is not modelled. The delays are recorded on each timer, but timers fire and updates settle in any order.
- The identity service itself is not modelled: sign-in, `UserButton`, `SignInButton`, `SignUpButton`, and how `user.update` stores metadata. Only the snapshot it hands the header and the success or failure of an update appear.
- `console.error` on a failed save is left out, because it is logging only.
- Any re-render of the header is treated as carrying the effect's dependencies unchanged. An identity event whose snapshot equals the current one therefore does nothing.
- A user object mutated in place is not modelled. React compares the `user` dependency by identity, so such a change would keep the armed trigger. The model assumes the identity service hands out a new user object, with a new `revision`, whenever any field changes, and compares whole snapshots. A snapshot whose user keeps its revision but changes `profileComplete` therefore re-runs the effect.
- `src/app/page.js`, `src/Components/LiveScore.js` and `next.config.mjs` are not part of this model.
- Host.StepFrame: `onComplete` is meant to run once per modal episode. The code does not keep that promise, because a double skip or a stale timer calls it again. So the model proves at most one call per event, and the extra calls are stated as lemmas.
