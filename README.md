# Party invitation: countdown and phase sequencer

A model of the two pieces of logic in a single-page party invitation written in React.

**Countdown** (`countdown.dfy`, module `Countdown`) covers three things:

- `getTimeRemaining`, which splits the time left until the party into days, hours, minutes and seconds, or reports that the party has started;
- the two-digit zero padding of each countdown box;
- the `CountdownTimer` component, which recomputes the breakdown once a second.

The target instant arrives already parsed, as milliseconds since the epoch. `None` stands for a string that does not parse. Every clock reading is a parameter.

**Sequencer** (`invitation.dfy`, module `Invitation`) covers the `InvitacionMiaFernanda` component:

- the intro card, the video overlay and the invitation;
- the one-second caption and the eight-second automatic advance;
- the fade-out, animation-frame and fade-in callbacks of the transition;
- the rules that start, pause and resume the page's looping audio: start button, video effect, mute effect, visibility and focus handlers, one-shot unlock listeners and the mute button.

Each browser occurrence is one event. A pending timeout may fire at any later event, in any order. The model keeps no clock. Whether the browser lets `play()` start the audio is the `allowed` parameter of the event.

The sequencer is modelled twice:

- as pure functions, one per event (`Started`, `Skipped`, `MuteToggled`, …), about which the properties are proved;
- as the class `Sequencer`, whose methods execute the handlers' statements in order and then React's effect re-runs (`Commit`). Each method is proved to produce exactly the state of the pure function and to keep the invariant `Inv`.

React's rule for effects is spelled out in `AfterEffects`. After each render, React runs the cleanups of the effects whose dependency lists changed, then their bodies in declaration order. A cleanup exists only if the previous run got past its early return.

## Model

| member | source | states |
|---|---|---|
| Countdown.FloorDiv | src/CountdownTimer.jsx:12-15 | `Math.floor(a / b)` for a positive divisor is the quotient `q` with `q*b <= a < q*b + b`, and it is non-negative for a non-negative dividend |
| Countdown.JsRem | src/CountdownTimer.jsx:14-16 | JavaScript `%` takes the dividend's sign, lies strictly within `b` of zero, and differs from the dividend by a multiple of `b` |
| Countdown.GetTimeRemaining | src/CountdownTimer.jsx:3-19 | `done` holds exactly when the target does not parse or is not after now, and then every field is 0; hours are below 24, minutes and seconds below 60 |
| Countdown.Reconstruction | src/CountdownTimer.jsx:12-16 | for a future target, `days*86400 + hours*3600 + minutes*60 + seconds` equals the whole seconds of the difference |
| Countdown.DecompositionIsUnique | src/CountdownTimer.jsx:12-16 | any in-range breakdown that rebuilds the whole seconds is the one returned |
| Countdown.UnderASecond | src/CountdownTimer.jsx:8-18 | a target less than one second away gives all four fields 0 with `done` false |
| Countdown.OnlyTheDifferenceMatters | src/CountdownTimer.jsx:3-6 | shifting the target and the clock by the same amount leaves the result unchanged |
| Countdown.OneHourBefore | src/CountdownTimer.jsx:3-19 | a difference of 3 600 000 ms gives 0 days, 1 hour, 0 minutes, 0 seconds, not done |
| Countdown.MidnightAfter | src/CountdownTimer.jsx:6-10 | a clock reading after the target gives the all-zero done record |
| Countdown.Decimal | src/CountdownTimer.jsx:25 | `String(n)` is a non-empty string of digits with no leading zero, of length one exactly when `n < 10` |
| Countdown.PadStart | src/CountdownTimer.jsx:25 | `padStart` keeps the string as its suffix, fills only the front with the pad character, and reaches at least the width |
| Countdown.TimeBoxPadding | src/CountdownTimer.jsx:25 | a one-digit value is shown as `'0'` followed by its digit; a wider value is shown unchanged; a box is at least two characters wide |
| Countdown.DecimalRoundTrip | src/CountdownTimer.jsx:25 | reading back the digits of `String(n)` gives `n` |
| Countdown.TimeBoxRoundTrip | src/CountdownTimer.jsx:25 | reading back a padded box gives its value |
| Countdown.RenderShowsRemaining | src/CountdownTimer.jsx:54-64 | the celebration line appears exactly when done; otherwise the four boxes read back as days, hours, minutes and seconds, and every box is at least two characters wide |
| Countdown.CountdownTimer.constructor | src/CountdownTimer.jsx:35-43 | after mounting, the interval is registered and the state is a fresh computation at the effect's clock reading |
| Countdown.CountdownTimer.Tick | src/CountdownTimer.jsx:38-40 | a tick overwrites the state with a fresh computation and changes nothing else |
| Countdown.CountdownTimer.IntervalFires | src/CountdownTimer.jsx:43 | a registered interval recomputes the state; after unmounting nothing changes |
| Countdown.CountdownTimer.TargetChanged | src/CountdownTimer.jsx:37-46 | a new target clears the interval, recomputes for the new target and registers a new interval |
| Countdown.CountdownTimer.Unmount | src/CountdownTimer.jsx:45 | unmounting clears the interval and keeps target and state |
| Invitation.QuietRender | src/InvitacionMiaFernanda.jsx:119-212 | a render that changes no dependency list runs no effect |
| Invitation.StartRender | src/InvitacionMiaFernanda.jsx:112-134 | after startExperience the effects add the automatic advance and, unmuted, the unlock listeners |
| Invitation.GoInviteRender | src/InvitacionMiaFernanda.jsx:96-134 | after goInvite the video effect's re-run restarts the audio and arms a new automatic advance |
| Invitation.FadeOutRender | src/InvitacionMiaFernanda.jsx:105-134 | after the fade-out callback only the video and unlock cleanups run |
| Invitation.FadeInRender | src/InvitacionMiaFernanda.jsx:108 | ending the transition runs no effect |
| Invitation.MuteRender | src/InvitacionMiaFernanda.jsx:119-148 | after the mute button the mute effect runs; in the video phase the video and unlock effects re-run too |
| Invitation.MountedInv | src/InvitacionMiaFernanda.jsx:44-56 | the first render starts in the intro and satisfies the invariant |
| Invitation.StepInv | src/InvitacionMiaFernanda.jsx:44-212 | every event keeps the invariant: muted element mirrors `isMuted`, timeout refs only in the video phase, one pending fade-out per transition, one frame and one fade-in in the invitation |
| Invitation.RunInv | src/InvitacionMiaFernanda.jsx:119-134 | along any sequence of events both timeout refs are null whenever the phase is not video |
| Invitation.StepPhase | src/InvitacionMiaFernanda.jsx:106 | one event keeps the phase, goes intro to video only on the start button, or video to invite only on the fade-out callback |
| Invitation.RunPhaseForward | src/InvitacionMiaFernanda.jsx:44 | along any sequence of events the phase never moves back |
| Invitation.InviteOnlyAfterFadeOut | src/InvitacionMiaFernanda.jsx:105-106 | reaching the invitation requires the fade-out callback during a running transition |
| Invitation.SecondTriggerIsIgnored | src/InvitacionMiaFernanda.jsx:96-99 | after a skip, a second skip changes nothing and the automatic advance only spends its ref: one transition, one fade-out |
| Invitation.SkipAfterAutoAdvanceIsIgnored | src/InvitacionMiaFernanda.jsx:96-99 | after the automatic advance, a skip changes nothing |
| Invitation.GoInviteClearsTimers | src/InvitacionMiaFernanda.jsx:99-102 | goInvite leaves no caption and no caption timeout; the only pending advance is the one the effect re-arms |
| Invitation.AutoAdvanceIsPending | src/InvitacionMiaFernanda.jsx:119-130 | in the video phase with no transition, an 8000 ms advance is pending, and its firing starts the transition |
| Invitation.TransitionCompletes | src/InvitacionMiaFernanda.jsx:105-109 | fade-out, frame and fade-in bring the invitation on screen with no transition, no timeout and nothing pending |
| Invitation.OnlyStartArmsCaption | src/InvitacionMiaFernanda.jsx:73-79 | no event but the start button arms the caption timeout |
| Invitation.StepKeepsCaptionHidden | src/InvitacionMiaFernanda.jsx:119-134 | after the intro, a hidden caption with no timeout stays hidden across one event |
| Invitation.CaptionStaysHidden | src/InvitacionMiaFernanda.jsx:119-134 | after the intro, a hidden caption with no timeout is never shown again |
| Invitation.MuteToggleLosesCaption | src/InvitacionMiaFernanda.jsx:119-134 | a mute toggle before the caption fires cancels the caption for good |
| Invitation.SkipCancelsCaption | src/InvitacionMiaFernanda.jsx:96-102 | a skip during the video phase leaves no caption timeout, and no later event shows the caption |
| Invitation.UnmountLeavesTransitionPending | src/InvitacionMiaFernanda.jsx:96-211 | from any reachable state, unmounting clears both timeouts and the unlock listeners and changes nothing else; during a transition one of goInvite's callbacks is still pending |
| Invitation.StartAudioPlays | src/InvitacionMiaFernanda.jsx:81-94 | after startAudio the audio plays exactly when it already played, or it was unmuted and `play()` was allowed |
| Invitation.OnlyMuteButtonMutes | src/InvitacionMiaFernanda.jsx:449 | only the mute button changes `isMuted`, and it flips it |
| Invitation.StepKeepsMutedAudioPaused | src/InvitacionMiaFernanda.jsx:81-94 | no event starts paused audio while the sound is muted |
| Invitation.MutedAudioStaysPaused | src/InvitacionMiaFernanda.jsx:140-164 | without the mute button, muted paused audio stays muted and paused along any sequence of events |
| Invitation.MutedIsSilent | src/InvitacionMiaFernanda.jsx:140 | along any sequence of events nothing is heard while muted |
| Invitation.MuteToggleSound | src/InvitacionMiaFernanda.jsx:136-148 | muting silences the element and leaves it playing; unmuting is heard exactly when the audio was playing or `play()` was allowed |
| Invitation.PageSignals | src/InvitacionMiaFernanda.jsx:154-182 | hiding or blur pauses; focus on a hidden page does nothing; showing or focus resumes unmuted audio when allowed and never muted audio |
| Invitation.AutoAdvanceResumesWhileHidden | src/InvitacionMiaFernanda.jsx:119-123 | the automatic advance firing on a hidden page starts the audio again |
| Invitation.Sequencer.constructor | src/InvitacionMiaFernanda.jsx:44-56 | mounting gives the intro state, after the mute effect's first `play()` |
| Invitation.Sequencer.Play | src/InvitacionMiaFernanda.jsx:144-146 | `play()` starts the audio when allowed, and changes nothing else |
| Invitation.Sequencer.ClearCaptionTimer | src/InvitacionMiaFernanda.jsx:58-63 | the caption ref is null afterwards and nothing else changes |
| Invitation.Sequencer.ClearAutoInviteTimer | src/InvitacionMiaFernanda.jsx:66-71 | the advance ref is null afterwards and nothing else changes |
| Invitation.Sequencer.ScheduleCaption | src/InvitacionMiaFernanda.jsx:73-79 | the caption is hidden and exactly one 1000 ms caption timeout is pending |
| Invitation.Sequencer.StartAudio | src/InvitacionMiaFernanda.jsx:81-94 | only `paused` changes, as startAudio's guards decide |
| Invitation.Sequencer.ResumeAudioIfAllowed | src/InvitacionMiaFernanda.jsx:158-164 | only `paused` changes: `play()` unless muted |
| Invitation.Sequencer.GoInvite | src/InvitacionMiaFernanda.jsx:96-110 | nothing changes during a transition; otherwise the transition starts, both refs are null, the caption is hidden and one fade-out is pending |
| Invitation.Sequencer.VideoEffectCleanup | src/InvitacionMiaFernanda.jsx:131-134 | the video effect's cleanup as the stage function `VideoCleanup` states |
| Invitation.Sequencer.UnlockEffectCleanup | src/InvitacionMiaFernanda.jsx:208-211 | the unlock effect's cleanup as `UnlockCleanup` states |
| Invitation.Sequencer.VideoEffectBody | src/InvitacionMiaFernanda.jsx:119-130 | the video effect's body as `VideoBody` states |
| Invitation.Sequencer.MuteEffectBody | src/InvitacionMiaFernanda.jsx:136-148 | the mute effect's body as `MuteBody` states |
| Invitation.Sequencer.UnlockEffectBody | src/InvitacionMiaFernanda.jsx:195-207 | the unlock effect's body as `UnlockBody` states |
| Invitation.Sequencer.Commit | src/InvitacionMiaFernanda.jsx:119-212 | the effects after a render, in React's order, give `AfterEffects` |
| Invitation.Sequencer.StartExperience | src/InvitacionMiaFernanda.jsx:112-116 | the start button keeps the invariant and produces `Started` |
| Invitation.Sequencer.GoInviteAndRender | src/InvitacionMiaFernanda.jsx:96-134 | goInvite in the video phase and its render produce `InviteRequested` |
| Invitation.Sequencer.Skip | src/InvitacionMiaFernanda.jsx:288 | the skip button keeps the invariant and produces `Skipped` |
| Invitation.Sequencer.CaptionTimeoutFires | src/InvitacionMiaFernanda.jsx:76-78 | the caption timeout keeps the invariant and produces `CaptionFired` |
| Invitation.Sequencer.AutoInviteTimeoutFires | src/InvitacionMiaFernanda.jsx:126-128 | the automatic advance keeps the invariant and produces `AutoInviteFired` |
| Invitation.Sequencer.FadeOutFires | src/InvitacionMiaFernanda.jsx:105-109 | the fade-out callback keeps the invariant and produces `FadeOutFired` |
| Invitation.Sequencer.AnimationFrameFires | src/InvitacionMiaFernanda.jsx:107 | the animation frame keeps the invariant and produces `FrameFired` |
| Invitation.Sequencer.FadeInFires | src/InvitacionMiaFernanda.jsx:108 | the end of the transition keeps the invariant and produces `FadeInFired` |
| Invitation.Sequencer.VisibilityChange | src/InvitacionMiaFernanda.jsx:166-173 | visibilitychange keeps the invariant and produces `VisibilityChanged` |
| Invitation.Sequencer.WindowBlur | src/InvitacionMiaFernanda.jsx:175-177 | blur keeps the invariant and produces `Blurred` |
| Invitation.Sequencer.WindowFocus | src/InvitacionMiaFernanda.jsx:179-182 | focus keeps the invariant and produces `Focused` |
| Invitation.Sequencer.ToggleMute | src/InvitacionMiaFernanda.jsx:449 | the mute button keeps the invariant and produces `MuteToggled` |
| Invitation.Sequencer.UserGesture | src/InvitacionMiaFernanda.jsx:198-206 | a press reaching a one-shot unlock listener keeps the invariant and produces `Gestured` |
| Invitation.Sequencer.Unmount | src/InvitacionMiaFernanda.jsx:119-211 | unmounting runs the cleanups of the last effect runs and produces `Unmounted` |
| Invitation.HiddenPageScenario | src/InvitacionMiaFernanda.jsx:119-128 | start, hide the page, let the advance fire: the audio plays on the hidden page in the video phase |
| Invitation.DoubleSkipScenario | src/InvitacionMiaFernanda.jsx:96-109 | two skips and the advance, then the transition's callbacks: the invitation is visible, with no transition, no timeout and nothing pending |

## Left out

- Date parsing and the clock: the target arrives as `Option<int>` milliseconds, and every clock reading is a parameter.
- Countdown.GetTimeRemaining: JavaScript numbers are doubles, and differences beyond 2^53 ms lose precision; the model uses unbounded integers.
- The duplicated countdown code later in src/InvitacionMiaFernanda.jsx (lines 513-645) is textually the same as src/CountdownTimer.jsx and is modelled once.
- Timer durations are kept as constants on the pending refs; no clock orders the firings, so the model allows any order of pending callbacks.
- The `!a` branch of startAudio and of the effects: the audio element is always rendered, so `audioRef.current` is never null after mounting.
- `volume = 0.7`, the audio content and playback position; the element is abstracted to `paused` and `muted`.
- `play()` is asynchronous; its outcome is applied at once, as the `allowed` parameter of the event.
- The visibility/focus effect re-registers its listeners when `isMuted` changes; the listeners always read the current `isMuted`, so this changes no state and is not modelled.
- `addEventListener` plumbing, `passive`/`once` options other than the one-shot behaviour, and StrictMode double effects.
- Events after unmounting: goInvite's fade-out timeout, animation frame and 500 ms timeout (src/InvitacionMiaFernanda.jsx:105-109) keep no handle, so they still fire, but React ignores state updates on an unmounted component; the model has no events after `Sequencer.Unmount`.
- The visibility/focus listeners' removal at unmount and the browser pausing a media element taken out of the document: neither is part of the modelled state.
- Markup, styling, the YouTube iframe, `SnowLayer`, `calendarLink` (including the undefined `DATA.padres`), `AuroraHeader`, `SnowflakeIcon` and `InfoRow`.

Behaviour of the code a reader might not expect:

- One might expect the mute button to pause the audio. It does not: it sets the element's `muted` and keeps it playing (`MuteToggleSound`).
- One might expect the audio never to start while the page is hidden. The video effect re-runs after goInvite and after a mute toggle, and its startAudio does not look at `document.hidden`, so the audio can start on a hidden page (`AutoAdvanceResumesWhileHidden`, `HiddenPageScenario`).
- One might expect a caption pending at a mute toggle still to appear. The same re-run clears the caption timeout and does not arm it again, so the caption is lost (`MuteToggleLosesCaption`).
