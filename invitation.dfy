/** The phase sequencer of src/InvitacionMiaFernanda.jsx: an intro card, then a video overlay
    whose caption appears after a delay and which advances on its own or on "skip", then the
    invitation; together with the rules that start, pause and resume the page's single looping
    audio element.

    Browser machinery becomes discrete events. A timeout is a callback that may fire at any later
    event (the model does not keep a clock, so any order of firings is allowed); a timeout kept
    in a ref can be cancelled, the three callbacks that goInvite schedules cannot and are counted.
    Whether the browser lets `play()` start the audio is the parameter `allowed` of each event
    that may call it; a refusal is swallowed. */
module Invitation {

  datatype Phase = Intro | Video | Invite

  /** The order in which the phases appear on screen. */
  function Rank(p: Phase): nat {
    match p
    case Intro => 0
    case Video => 1
    case Invite => 2
  }

  /** The value of a timeout ref: null, the id of a callback still pending, or the id of one that
      has already run (the callbacks do not null their own ref). */
  datatype TimerRef = Cleared | Armed(delayMs: nat) | Spent

  const CaptionDelayMs: nat := 1000
  const AutoInviteDelayMs: nat := 8000
  /** Delay of goInvite's fade-out callback, one pending call of which `fadeOuts` counts. */
  const FadeOutMs: nat := 450
  /** Delay of the callback that ends the transition, one pending call of which `fadeIns` counts. */
  const FadeInMs: nat := 500

  /** Everything the sequencer's behaviour depends on: the component's state, its two timeout
      refs, the callbacks still pending, the audio element and the page. */
  datatype View = View(
    phase: Phase,
    isTransitioning: bool,
    showVideoCaption: bool,
    inviteVisible: bool,
    isMuted: bool,
    captionTimeout: TimerRef,
    autoInviteTimeout: TimerRef,
    fadeOuts: nat,       // pending callbacks that set the phase to "invite"
    frames: nat,         // pending animation frames that make the invitation visible
    fadeIns: nat,        // pending callbacks that end the transition
    paused: bool,        // the audio element's `paused`
    audioMuted: bool,    // the audio element's `muted`
    hidden: bool,        // `document.hidden`
    pointerUnlock: bool, // the one-shot pointerdown listener of the unlock effect is registered
    keyUnlock: bool)     // the one-shot keydown listener of the unlock effect is registered

  /** What is heard: the audio plays and its element is not muted. */
  predicate Audible(v: View) {
    !v.paused && !v.audioMuted
  }

  // ---------------------------------------------------------------------------------------------
  // The audio element

  /** `paused` after a `play()` call: it starts when the browser allows it; a refusal is caught
      and changes nothing. */
  function PausedAfterPlay(paused: bool, allowed: bool): bool {
    if allowed then false else paused
  }

  /** `paused` after startAudio: nothing while muted or already playing, otherwise `play()`. */
  function PausedAfterStartAudio(isMuted: bool, paused: bool, allowed: bool): bool {
    if isMuted || !paused then paused else PausedAfterPlay(paused, allowed)
  }

  /** `paused` after resumeAudioIfAllowed: nothing while muted, otherwise `play()`. */
  function PausedAfterResume(isMuted: bool, paused: bool, allowed: bool): bool {
    if isMuted then paused else PausedAfterPlay(paused, allowed)
  }

  // ---------------------------------------------------------------------------------------------
  // Effects

  /** The video effect re-runs when the phase, goInvite (which changes with `isTransitioning`) or
      startAudio (which changes with `isMuted`) changes; the clear helpers never change. */
  predicate VideoRerun(prev: View, cur: View) {
    prev.phase != cur.phase || prev.isTransitioning != cur.isTransitioning || prev.isMuted != cur.isMuted
  }

  /** The unlock effect re-runs when `isMuted`, the phase or startAudio changes. */
  predicate UnlockRerun(prev: View, cur: View) {
    prev.phase != cur.phase || prev.isMuted != cur.isMuted
  }

  // After a render that took the state from `prev` to `cur`, React first runs the cleanups left by
  // the previous runs of the effects whose dependency lists changed (only a run that got past its
  // early return left one), then the bodies of those effects in the order they are declared. The
  // stages below keep the phase, `isTransitioning` and `isMuted`, so each can test the dependency
  // lists on its own input. The visibility/focus effect (dependency `isMuted`) only registers its
  // listeners again, which always read the current `isMuted`, so it changes nothing here.

  /** Cleanup of the video effect: both timeout refs cleared. */
  function VideoCleanup(prev: View, v: View): View {
    if VideoRerun(prev, v) && prev.phase == Video
    then v.(captionTimeout := Cleared, autoInviteTimeout := Cleared) else v
  }

  /** Cleanup of the unlock effect: both one-shot listeners removed. */
  function UnlockCleanup(prev: View, v: View): View {
    if UnlockRerun(prev, v) && prev.phase == Video && !prev.isMuted
    then v.(pointerUnlock := false, keyUnlock := false) else v
  }

  /** Body of the video effect: in the video phase, startAudio and a new automatic advance. */
  function VideoBody(prev: View, v: View, allowed: bool): View {
    if VideoRerun(prev, v) && v.phase == Video
    then v.(paused := PausedAfterStartAudio(v.isMuted, v.paused, allowed), autoInviteTimeout := Armed(AutoInviteDelayMs))
    else v
  }

  /** Body of the mute effect: the element's `muted` follows `isMuted`, and unmuted paused audio
      gets a `play()`. */
  function MuteBody(prev: View, v: View, allowed: bool): View {
    if prev.isMuted != v.isMuted
    then v.(audioMuted := v.isMuted,
            paused := if !v.isMuted && v.paused then PausedAfterPlay(v.paused, allowed) else v.paused)
    else v
  }

  /** Body of the unlock effect: unmuted in the video phase, both one-shot listeners registered. */
  function UnlockBody(prev: View, v: View): View {
    if UnlockRerun(prev, v) && !v.isMuted && v.phase == Video
    then v.(pointerUnlock := true, keyUnlock := true) else v
  }

  /** Everything React does after the render that follows an event which started from `prev`. */
  function AfterEffects(prev: View, cur: View, allowed: bool): View {
    UnlockBody(prev, MuteBody(prev, VideoBody(prev, UnlockCleanup(prev, VideoCleanup(prev, cur)), allowed), allowed))
  }

  // ---------------------------------------------------------------------------------------------
  // The net effect of each event, handler and effects together

  /** The first render: every effect runs once; only the mute effect does anything, and it tries
      to start the unmuted audio. */
  function Mounted(hidden: bool, allowed: bool): View {
    View(Intro, false, false, false, false, Cleared, Cleared, 0, 0, 0,
         PausedAfterPlay(true, allowed), false, hidden, false, false)
  }

  /** startExperience (the button is only on the intro card): the video phase with the caption
      hidden and due in 1 s, the automatic advance due in 8 s, the audio started unless muted,
      and one-shot unlock listeners unless muted. */
  function Started(v: View, allowed: bool): View {
    if v.phase != Intro then v
    else v.(phase := Video, showVideoCaption := false,
            captionTimeout := Armed(CaptionDelayMs), autoInviteTimeout := Armed(AutoInviteDelayMs),
            paused := PausedAfterStartAudio(v.isMuted, v.paused, allowed),
            pointerUnlock := !v.isMuted, keyUnlock := !v.isMuted)
  }

  /** goInvite during the video phase: ignored while a transition runs; otherwise the transition
      starts, the caption is hidden and its timeout cancelled, one fade-out is scheduled, and the
      video effect, re-run because goInvite changed, calls startAudio again and arms a new
      automatic advance. */
  function InviteRequested(v: View, allowed: bool): View {
    if v.isTransitioning then v
    else v.(isTransitioning := true, showVideoCaption := false,
            captionTimeout := Cleared, autoInviteTimeout := Armed(AutoInviteDelayMs),
            fadeOuts := v.fadeOuts + 1, paused := PausedAfterStartAudio(v.isMuted, v.paused, allowed))
  }

  /** The skip button, only on the video overlay. */
  function Skipped(v: View, allowed: bool): View {
    if v.phase != Video then v else InviteRequested(v, allowed)
  }

  function CaptionFired(v: View): View {
    if v.captionTimeout.Armed? then v.(captionTimeout := Spent, showVideoCaption := true) else v
  }

  function AutoInviteFired(v: View, allowed: bool): View {
    if v.autoInviteTimeout.Armed? then InviteRequested(v.(autoInviteTimeout := Spent), allowed) else v
  }

  /** The fade-out callback: the invitation phase, a frame and an end-of-transition callback
      scheduled; leaving the video phase clears both timeout refs and the unlock listeners. */
  function FadeOutFired(v: View): View {
    if v.fadeOuts == 0 then v
    else v.(phase := Invite, fadeOuts := v.fadeOuts - 1, frames := v.frames + 1,
            fadeIns := v.fadeIns + 1, captionTimeout := Cleared, autoInviteTimeout := Cleared,
            pointerUnlock := false, keyUnlock := false)
  }

  function FrameFired(v: View): View {
    if v.frames == 0 then v else v.(frames := v.frames - 1, inviteVisible := true)
  }

  function FadeInFired(v: View): View {
    if v.fadeIns == 0 then v else v.(fadeIns := v.fadeIns - 1, isTransitioning := false)
  }

  /** visibilitychange: hiding pauses; showing resumes unless muted. */
  function VisibilityChanged(v: View, nowHidden: bool, allowed: bool): View {
    if nowHidden then v.(hidden := true, paused := true)
    else v.(hidden := false, paused := PausedAfterResume(v.isMuted, v.paused, allowed))
  }

  function Blurred(v: View): View {
    v.(paused := true)
  }

  /** Focus resumes unless the page is hidden or the sound muted. */
  function Focused(v: View, allowed: bool): View {
    if v.hidden then v else v.(paused := PausedAfterResume(v.isMuted, v.paused, allowed))
  }

  /** The mute button flips `isMuted`; the mute effect mirrors it on the element and, when
      unmuting a paused element, calls `play()`. In the video phase the video effect re-runs
      (startAudio changed): both timeouts are cleared and only the automatic advance is armed
      again, so a pending caption is lost. The unlock listeners are registered anew exactly when
      unmuted in the video phase. */
  function MuteToggled(v: View, allowed: bool): View {
    var muted := !v.isMuted;
    var inVideo := v.phase == Video;
    v.(isMuted := muted, audioMuted := muted,
       paused := if muted then v.paused else PausedAfterPlay(v.paused, allowed),
       captionTimeout := if inVideo then Cleared else v.captionTimeout,
       autoInviteTimeout := if inVideo then Armed(AutoInviteDelayMs) else v.autoInviteTimeout,
       pointerUnlock := inVideo && !muted, keyUnlock := inVideo && !muted)
  }

  datatype Gesture = PointerDown | KeyDown

  /** A pointer or key press reaching a registered one-shot unlock listener: the listener is
      removed and startAudio runs. */
  function Gestured(v: View, g: Gesture, allowed: bool): View {
    match g
    case PointerDown =>
      if v.pointerUnlock then v.(pointerUnlock := false, paused := PausedAfterStartAudio(v.isMuted, v.paused, allowed)) else v
    case KeyDown =>
      if v.keyUnlock then v.(keyUnlock := false, paused := PausedAfterStartAudio(v.isMuted, v.paused, allowed)) else v
  }

  datatype Event =
    | StartClicked(allowed: bool)
    | SkipClicked(allowed: bool)
    | CaptionFires
    | AutoInviteFires(allowed: bool)
    | FadeOutFires
    | FrameFires
    | FadeInFires
    | VisibilityChange(nowHidden: bool, allowed: bool)
    | WindowBlur
    | WindowFocus(allowed: bool)
    | MuteClicked(allowed: bool)
    | UserGesture(gesture: Gesture, allowed: bool)

  function Step(v: View, e: Event): View {
    match e
    case StartClicked(a) => Started(v, a)
    case SkipClicked(a) => Skipped(v, a)
    case CaptionFires => CaptionFired(v)
    case AutoInviteFires(a) => AutoInviteFired(v, a)
    case FadeOutFires => FadeOutFired(v)
    case FrameFires => FrameFired(v)
    case FadeInFires => FadeInFired(v)
    case VisibilityChange(h, a) => VisibilityChanged(v, h, a)
    case WindowBlur => Blurred(v)
    case WindowFocus(a) => Focused(v, a)
    case MuteClicked(a) => MuteToggled(v, a)
    case UserGesture(g, a) => Gestured(v, g, a)
  }

  function Run(v: View, es: seq<Event>): View
    decreases |es|
  {
    if es == [] then v else Run(Step(v, es[0]), es[1..])
  }

  // ---------------------------------------------------------------------------------------------
  // Handler statements, and the render that follows them

  /** startExperience's own statements: the phase, scheduleCaption, startAudio. */
  function StartStatements(v: View, allowed: bool): View {
    v.(phase := Video, showVideoCaption := false, captionTimeout := Armed(CaptionDelayMs),
       paused := PausedAfterStartAudio(v.isMuted, v.paused, allowed))
  }

  /** goInvite's own statements past its guard. */
  function GoInviteStatements(v: View): View {
    v.(isTransitioning := true, captionTimeout := Cleared, autoInviteTimeout := Cleared,
       showVideoCaption := false, fadeOuts := v.fadeOuts + 1)
  }

  /** The fade-out callback's own statements. */
  function FadeOutStatements(v: View): View
    requires v.fadeOuts > 0
  {
    v.(fadeOuts := v.fadeOuts - 1, phase := Invite, frames := v.frames + 1, fadeIns := v.fadeIns + 1)
  }

  /** A render that changes no dependency list runs no effect. */
  lemma QuietRender(prev: View, cur: View, allowed: bool)
    requires prev.phase == cur.phase && prev.isTransitioning == cur.isTransitioning
    requires prev.isMuted == cur.isMuted
    ensures AfterEffects(prev, cur, allowed) == cur
  {
  }

  /** After startExperience the effects add the automatic advance and, unmuted, the unlock
      listeners; the second startAudio changes nothing. */
  lemma StartRender(v: View, allowed: bool)
    requires Inv(v) && v.phase == Intro
    ensures AfterEffects(v, StartStatements(v, allowed), allowed) == Started(v, allowed)
  {
  }

  /** After goInvite, from the video phase or from its automatic advance (whose ref then holds a
      spent id), the video effect runs again. */
  lemma GoInviteRender(v: View, u: View, allowed: bool)
    requires Inv(v) && v.phase == Video && !v.isTransitioning
    requires u == v || u == v.(autoInviteTimeout := Spent)
    ensures AfterEffects(v, GoInviteStatements(u), allowed) == InviteRequested(u, allowed)
  {
  }

  /** After the fade-out callback the cleanups of the video and unlock effects run. */
  lemma FadeOutRender(v: View)
    requires Inv(v) && v.fadeOuts > 0
    ensures AfterEffects(v, FadeOutStatements(v), false) == FadeOutFired(v)
  {
  }

  /** After the end of the transition nothing runs: the video effect returns early outside the
      video phase. */
  lemma FadeInRender(v: View)
    requires Inv(v) && v.fadeIns > 0
    ensures AfterEffects(v, v.(fadeIns := v.fadeIns - 1, isTransitioning := false), false)
         == FadeInFired(v)
  {
  }

  /** After the mute button the mute effect, and in the video phase the video and unlock
      effects, run again. */
  lemma MuteRender(v: View, allowed: bool)
    requires Inv(v)
    ensures AfterEffects(v, v.(isMuted := !v.isMuted), allowed) == MuteToggled(v, allowed)
  {
    if v.phase == Video {
      assert VideoRerun(v, v.(isMuted := !v.isMuted));
    }
  }

  // ---------------------------------------------------------------------------------------------
  // The invariant

  /** What holds after every event: the element's `muted` mirrors `isMuted`; unlock listeners
      exist only unmuted in the video phase; a pending caption has not been shown yet; timeout
      refs hold something only in the video phase; the video phase always has an automatic
      advance pending unless a transition runs, and a running transition has exactly one
      fade-out pending and no caption; in the invitation exactly one end-of-transition callback
      is pending while the transition runs, and exactly one frame until the invitation shows. */
  ghost predicate Inv(v: View) {
    && v.audioMuted == v.isMuted
    && (v.pointerUnlock || v.keyUnlock ==> v.phase == Video && !v.isMuted)
    && (v.captionTimeout.Armed? ==> v.captionTimeout == Armed(CaptionDelayMs) && !v.showVideoCaption)
    && (v.autoInviteTimeout.Armed? ==> v.autoInviteTimeout == Armed(AutoInviteDelayMs))
    && match v.phase
       case Intro =>
         && !v.isTransitioning && !v.showVideoCaption && !v.inviteVisible
         && v.captionTimeout == Cleared && v.autoInviteTimeout == Cleared
         && v.fadeOuts == 0 && v.frames == 0 && v.fadeIns == 0
       case Video =>
         && !v.inviteVisible && v.frames == 0 && v.fadeIns == 0
         && v.autoInviteTimeout != Cleared
         && if v.isTransitioning
            then v.fadeOuts == 1 && !v.showVideoCaption && v.captionTimeout == Cleared
            else v.fadeOuts == 0 && v.autoInviteTimeout.Armed?
       case Invite =>
         && !v.showVideoCaption && v.captionTimeout == Cleared && v.autoInviteTimeout == Cleared
         && v.fadeOuts == 0
         && v.fadeIns == (if v.isTransitioning then 1 else 0)
         && v.frames == (if v.inviteVisible then 0 else 1)
  }

  lemma MountedInv(hidden: bool, allowed: bool)
    ensures Inv(Mounted(hidden, allowed))
    ensures Mounted(hidden, allowed).phase == Intro
  {
  }

  /** The caption is hidden, has no timeout pending, and the intro is over. */
  predicate CaptionGone(v: View) {
    v.phase != Intro && !v.captionTimeout.Armed? && !v.showVideoCaption
  }

  /** What every event obeys: it keeps the invariant; the phase stays, or moves from the intro to
      the video on the start button, or from the video to the invitation on the fade-out callback;
      only the start button arms the caption timeout; a gone caption stays gone; only the mute
      button changes `isMuted`; and nothing starts muted audio. */
  ghost predicate StepFacts(v: View, e: Event, w: View) {
    && (Inv(v) ==> Inv(w))
    && (Inv(v) ==>
          || w.phase == v.phase
          || (v.phase == Intro && w.phase == Video && e.StartClicked?)
          || (v.phase == Video && w.phase == Invite && e.FadeOutFires?))
    && (w.captionTimeout.Armed? ==> v.captionTimeout.Armed? || e.StartClicked?)
    && (Inv(v) && CaptionGone(v) ==> CaptionGone(w))
    && w.isMuted == (if e.MuteClicked? then !v.isMuted else v.isMuted)
    && (v.paused && w.isMuted ==> w.paused)
  }

  // The facts, one event at a time.

  lemma StartedFacts(v: View, a: bool)
    ensures StepFacts(v, StartClicked(a), Started(v, a))
  {
  }

  lemma SkippedFacts(v: View, a: bool)
    ensures StepFacts(v, SkipClicked(a), Skipped(v, a))
  {
  }

  lemma CaptionFiredFacts(v: View)
    ensures StepFacts(v, CaptionFires, CaptionFired(v))
  {
  }

  lemma AutoInviteFiredFacts(v: View, a: bool)
    ensures StepFacts(v, AutoInviteFires(a), AutoInviteFired(v, a))
  {
    if v.autoInviteTimeout.Armed? {
      var u := v.(autoInviteTimeout := Spent);
      assert AutoInviteFired(v, a) == InviteRequested(u, a);
    }
  }

  lemma FadeOutFiredFacts(v: View)
    ensures StepFacts(v, FadeOutFires, FadeOutFired(v))
  {
  }

  lemma FrameFiredFacts(v: View)
    ensures StepFacts(v, FrameFires, FrameFired(v))
  {
  }

  lemma FadeInFiredFacts(v: View)
    ensures StepFacts(v, FadeInFires, FadeInFired(v))
  {
  }

  lemma VisibilityChangedFacts(v: View, h: bool, a: bool)
    ensures StepFacts(v, VisibilityChange(h, a), VisibilityChanged(v, h, a))
  {
  }

  lemma BlurredFacts(v: View)
    ensures StepFacts(v, WindowBlur, Blurred(v))
  {
  }

  lemma FocusedFacts(v: View, a: bool)
    ensures StepFacts(v, WindowFocus(a), Focused(v, a))
  {
  }

  lemma MuteToggledFacts(v: View, a: bool)
    ensures StepFacts(v, MuteClicked(a), MuteToggled(v, a))
  {
  }

  lemma GesturedFacts(v: View, g: Gesture, a: bool)
    ensures StepFacts(v, UserGesture(g, a), Gestured(v, g, a))
  {
  }

  /** Every event obeys the facts. */
  lemma StepFactsHold(v: View, e: Event)
    ensures StepFacts(v, e, Step(v, e))
  {
    match e
    case StartClicked(a) => StartedFacts(v, a);
    case SkipClicked(a) => SkippedFacts(v, a);
    case CaptionFires => CaptionFiredFacts(v);
    case AutoInviteFires(a) => AutoInviteFiredFacts(v, a);
    case FadeOutFires => FadeOutFiredFacts(v);
    case FrameFires => FrameFiredFacts(v);
    case FadeInFires => FadeInFiredFacts(v);
    case VisibilityChange(h, a) => VisibilityChangedFacts(v, h, a);
    case WindowBlur => BlurredFacts(v);
    case WindowFocus(a) => FocusedFacts(v, a);
    case MuteClicked(a) => MuteToggledFacts(v, a);
    case UserGesture(g, a) => GesturedFacts(v, g, a);
  }

  lemma StepInv(v: View, e: Event)
    requires Inv(v)
    ensures Inv(Step(v, e))
  {
    StepFactsHold(v, e);
  }

  /** Every sequence of events keeps the invariant; in particular both timeout refs are null
      whenever the phase is not "video". */
  lemma {:induction false} RunInv(v: View, es: seq<Event>)
    requires Inv(v)
    ensures Inv(Run(v, es))
    ensures Run(v, es).phase != Video ==>
      Run(v, es).captionTimeout == Cleared && Run(v, es).autoInviteTimeout == Cleared
    decreases |es|
  {
    if es != [] {
      StepInv(v, es[0]);
      RunInv(Step(v, es[0]), es[1..]);
    }
  }

  // ---------------------------------------------------------------------------------------------
  // Phases

  /** One event leaves the phase alone, takes the intro to the video (the start button only), or
      the video to the invitation (the fade-out callback only). */
  lemma StepPhase(v: View, e: Event)
    requires Inv(v)
    ensures var w := Step(v, e);
      || w.phase == v.phase
      || (v.phase == Intro && w.phase == Video && e.StartClicked?)
      || (v.phase == Video && w.phase == Invite && e.FadeOutFires?)
  {
    StepFactsHold(v, e);
  }

  /** Along any sequence of events the phase never moves back. */
  lemma {:induction false} RunPhaseForward(v: View, es: seq<Event>)
    requires Inv(v)
    ensures Rank(v.phase) <= Rank(Run(v, es).phase)
    decreases |es|
  {
    if es != [] {
      StepPhase(v, es[0]);
      StepInv(v, es[0]);
      RunPhaseForward(Step(v, es[0]), es[1..]);
    }
  }

  /** Only the fade-out callback shows the invitation: it needs a pending fade-out, which only a
      goInvite that got past its guard schedules. */
  lemma InviteOnlyAfterFadeOut(v: View, e: Event)
    requires Inv(v) && v.phase != Invite && Step(v, e).phase == Invite
    ensures e.FadeOutFires? && v.phase == Video && v.isTransitioning && v.fadeOuts == 1
  {
  }

  // ---------------------------------------------------------------------------------------------
  // The transition guard

  /** A second skip, or the automatic advance firing after a skip, changes nothing but the spent
      timeout: one transition, one pending fade-out. */
  lemma SecondTriggerIsIgnored(v: View, a: bool, b: bool)
    requires Inv(v) && v.phase == Video && !v.isTransitioning
    ensures var w := Skipped(v, a);
      && w.isTransitioning && w.fadeOuts == 1
      && Skipped(w, b) == w
      && AutoInviteFired(w, b) == w.(autoInviteTimeout := Spent)
  {
  }

  /** The same when the automatic advance comes first and the skip second. */
  lemma SkipAfterAutoAdvanceIsIgnored(v: View, a: bool, b: bool)
    requires Inv(v) && v.phase == Video && !v.isTransitioning
    ensures var w := AutoInviteFired(v, a);
      && w.isTransitioning && w.fadeOuts == 1
      && Skipped(w, b) == w
  {
  }

  /** A transition started by goInvite leaves no caption and no caption timeout behind; what
      remains of the automatic advance is the one the re-run video effect arms. */
  lemma GoInviteClearsTimers(v: View, a: bool)
    requires Inv(v) && v.phase == Video && !v.isTransitioning
    ensures var w := InviteRequested(v, a);
      && w.captionTimeout == Cleared && !w.showVideoCaption
      && w.autoInviteTimeout == Armed(AutoInviteDelayMs) && w.phase == Video
  {
  }

  /** While the video phase runs with no transition under way, the automatic advance is pending,
      and its firing starts the transition. */
  lemma AutoAdvanceIsPending(v: View, a: bool)
    requires Inv(v) && v.phase == Video && !v.isTransitioning
    ensures v.autoInviteTimeout == Armed(AutoInviteDelayMs)
    ensures AutoInviteFired(v, a).isTransitioning && AutoInviteFired(v, a).fadeOuts == 1
  {
  }

  /** Once a transition runs, the fade-out, the frame and the end-of-transition callback bring the
      invitation on screen with the transition over and no timeout left. */
  lemma TransitionCompletes(v: View)
    requires Inv(v) && v.phase == Video && v.isTransitioning
    ensures var w := Run(v, [FadeOutFires, FrameFires, FadeInFires]);
      && w.phase == Invite && w.inviteVisible && !w.isTransitioning
      && w.captionTimeout == Cleared && w.autoInviteTimeout == Cleared
      && w.fadeOuts == 0 && w.frames == 0 && w.fadeIns == 0
  {
    assert Run(v, [FadeOutFires, FrameFires, FadeInFires])
        == FadeInFired(FrameFired(FadeOutFired(v))) by {
      assert [FadeOutFires, FrameFires, FadeInFires][1..] == [FrameFires, FadeInFires];
      assert [FrameFires, FadeInFires][1..] == [FadeInFires];
    }
  }

  // ---------------------------------------------------------------------------------------------
  // The caption

  /** scheduleCaption runs only from the start button: no other event arms the caption timeout. */
  lemma OnlyStartArmsCaption(v: View, e: Event)
    requires Step(v, e).captionTimeout.Armed?
    ensures v.captionTimeout.Armed? || e.StartClicked?
  {
    StepFactsHold(v, e);
  }

  /** After the intro, a hidden caption with no timeout pending stays so across one event. */
  lemma StepKeepsCaptionHidden(v: View, e: Event)
    requires Inv(v) && v.phase != Intro && !v.captionTimeout.Armed? && !v.showVideoCaption
    ensures var w := Step(v, e);
      w.phase != Intro && !w.captionTimeout.Armed? && !w.showVideoCaption
  {
    StepFactsHold(v, e);
  }

  /** Once the caption is hidden with no timeout pending after the intro (a mute toggle during
      the video cleared it, or a transition started), no sequence of events shows it again. */
  lemma {:induction false} CaptionStaysHidden(v: View, es: seq<Event>)
    requires Inv(v) && v.phase != Intro && !v.captionTimeout.Armed? && !v.showVideoCaption
    ensures !Run(v, es).showVideoCaption
    decreases |es|
  {
    if es != [] {
      StepInv(v, es[0]);
      StepKeepsCaptionHidden(v, es[0]);
      CaptionStaysHidden(Step(v, es[0]), es[1..]);
    }
  }

  /** A mute toggle before the caption fires cancels it for good: the video effect's re-run
      clears the caption timeout and does not arm it again. */
  lemma MuteToggleLosesCaption(v: View, a: bool, es: seq<Event>)
    requires Inv(v) && v.phase == Video && v.captionTimeout.Armed?
    ensures MuteToggled(v, a).captionTimeout == Cleared
    ensures !Run(MuteToggled(v, a), es).showVideoCaption
  {
    StepInv(v, MuteClicked(a));
    CaptionStaysHidden(MuteToggled(v, a), es);
  }

  /** A skip before the caption fires cancels it for good: goInvite clears the caption timeout,
      and nothing arms it again. */
  lemma SkipCancelsCaption(v: View, a: bool, es: seq<Event>)
    requires Inv(v) && v.phase == Video
    ensures Skipped(v, a).captionTimeout == Cleared
    ensures !Run(Skipped(v, a), es).showVideoCaption
  {
    if !v.isTransitioning {
      GoInviteClearsTimers(v, a);
    }
    StepInv(v, SkipClicked(a));
    CaptionStaysHidden(Skipped(v, a), es);
  }

  // ---------------------------------------------------------------------------------------------
  // Audio

  /** startAudio leaves the audio playing exactly when it was playing, or it was unmuted and the
      browser allowed `play()`. */
  lemma StartAudioPlays(v: View, allowed: bool)
    ensures !PausedAfterStartAudio(v.isMuted, v.paused, allowed) <==> !v.paused || (!v.isMuted && allowed)
  {
  }

  /** Only the mute button changes `isMuted`. */
  lemma OnlyMuteButtonMutes(v: View, e: Event)
    ensures Step(v, e).isMuted == if e.MuteClicked? then !v.isMuted else v.isMuted
  {
    StepFactsHold(v, e);
  }

  /** No event starts the audio while the sound is muted. */
  lemma StepKeepsMutedAudioPaused(v: View, e: Event)
    requires v.paused && Step(v, e).isMuted
    ensures Step(v, e).paused
  {
    StepFactsHold(v, e);
  }

  /** Without a press of the mute button, muted paused audio stays muted and paused whatever
      else happens. */
  lemma {:induction false} MutedAudioStaysPaused(v: View, es: seq<Event>)
    requires v.isMuted && v.paused
    requires forall i :: 0 <= i < |es| ==> !es[i].MuteClicked?
    ensures Run(v, es).isMuted && Run(v, es).paused
    decreases |es|
  {
    if es != [] {
      OnlyMuteButtonMutes(v, es[0]);
      StepKeepsMutedAudioPaused(v, es[0]);
      MutedAudioStaysPaused(Step(v, es[0]), es[1..]);
    }
  }

  /** Nothing is ever heard while muted: the element's `muted` follows `isMuted`. */
  lemma MutedIsSilent(v: View, es: seq<Event>)
    requires Inv(v)
    ensures Run(v, es).isMuted ==> !Audible(Run(v, es))
  {
    RunInv(v, es);
  }

  /** The mute button does not pause: muting silences the element and leaves it playing;
      unmuting is heard exactly when the audio was playing or `play()` was allowed. */
  lemma MuteToggleSound(v: View, a: bool)
    requires Inv(v)
    ensures var w := MuteToggled(v, a);
      && w.isMuted == !v.isMuted
      && (w.isMuted ==> !Audible(w) && w.paused == v.paused)
      && (!w.isMuted ==> (Audible(w) <==> !v.paused || a))
  {
  }

  /** The page-level handlers: hiding the page or blurring the window pauses; a focus event on a
      hidden page does nothing; neither showing the page nor focus resumes muted audio. */
  lemma PageSignals(v: View, a: bool)
    ensures VisibilityChanged(v, true, a).paused && Blurred(v).paused
    ensures v.hidden ==> Focused(v, a) == v
    ensures v.isMuted ==> VisibilityChanged(v, false, a).paused == v.paused
    ensures v.isMuted ==> Focused(v, a).paused == v.paused
    ensures !v.hidden && !v.isMuted && a ==> !Focused(v, a).paused
    ensures !v.isMuted && a ==> !VisibilityChanged(v, false, a).paused
  {
  }

  /** The video effect's re-run does not look at `document.hidden`: when the automatic advance
      fires on a hidden page, the startAudio it calls starts the audio again. */
  lemma AutoAdvanceResumesWhileHidden(v: View)
    requires Inv(v) && v.phase == Video && !v.isTransitioning && v.hidden && !v.isMuted
    ensures AutoInviteFired(v, true).hidden && !AutoInviteFired(v, true).paused
  {
  }

  // ---------------------------------------------------------------------------------------------
  // The component

  /** Unmounting runs the cleanups left by the last run of each effect: the video effect's (when
      that run got past its early return) clears both timeout refs, the unlock effect's (when it
      registered them) removes the one-shot listeners. */
  function Unmounted(v: View): (w: View)
  {
    var u := if v.phase == Video then v.(captionTimeout := Cleared, autoInviteTimeout := Cleared) else v;
    if v.phase == Video && !v.isMuted then u.(pointerUnlock := false, keyUnlock := false) else u
  }

  /** From any reachable state, unmounting leaves no timeout and no unlock listener, but
      goInvite's fade-out, frame and fade-in callbacks keep no handle and stay pending. */
  lemma UnmountLeavesTransitionPending(v: View)
    requires Inv(v)
    ensures Unmounted(v) == v.(captionTimeout := Cleared, autoInviteTimeout := Cleared,
                               pointerUnlock := false, keyUnlock := false)
    ensures v.isTransitioning ==> Unmounted(v).fadeOuts + Unmounted(v).frames + Unmounted(v).fadeIns >= 1
  {
  }

  /** The InvitacionMiaFernanda component once mounted. Each method is one event: the handler's
      statements in order, then the effects that the resulting render re-runs. */
  class Sequencer {
    var phase: Phase
    var isTransitioning: bool
    var showVideoCaption: bool
    var inviteVisible: bool
    var isMuted: bool
    var captionTimeout: TimerRef
    var autoInviteTimeout: TimerRef
    var fadeOuts: nat
    var frames: nat
    var fadeIns: nat
    var paused: bool
    var audioMuted: bool
    var hidden: bool
    var pointerUnlock: bool
    var keyUnlock: bool

    function State(): View
      reads this
    {
      View(phase, isTransitioning, showVideoCaption, inviteVisible, isMuted,
           captionTimeout, autoInviteTimeout, fadeOuts, frames, fadeIns,
           paused, audioMuted, hidden, pointerUnlock, keyUnlock)
    }

    ghost predicate Valid()
      reads this
    {
      Inv(State())
    }

    /** The first render and its effects. */
    constructor (hiddenAtMount: bool, allowed: bool)
      ensures Valid() && State() == Mounted(hiddenAtMount, allowed)
    {
      phase := Intro;
      isTransitioning, showVideoCaption, inviteVisible, isMuted := false, false, false, false;
      captionTimeout, autoInviteTimeout := Cleared, Cleared;
      fadeOuts, frames, fadeIns := 0, 0, 0;
      paused, audioMuted, hidden := true, false, hiddenAtMount;
      pointerUnlock, keyUnlock := false, false;
      new;
      // the video and unlock effects return early outside the video phase; the mute effect:
      audioMuted := isMuted;
      if !isMuted && paused {
        Play(allowed);
      }
    }

    // ----- helpers, as in the component

    method Play(allowed: bool)
      modifies this`paused
      ensures State() == old(State()).(paused := PausedAfterPlay(old(paused), allowed))
    {
      if allowed {
        paused := false;
      }
    }

    method ClearCaptionTimer()
      modifies this`captionTimeout
      ensures State() == old(State()).(captionTimeout := Cleared)
    {
      if captionTimeout != Cleared {
        captionTimeout := Cleared;
      }
    }

    method ClearAutoInviteTimer()
      modifies this`autoInviteTimeout
      ensures State() == old(State()).(autoInviteTimeout := Cleared)
    {
      if autoInviteTimeout != Cleared {
        autoInviteTimeout := Cleared;
      }
    }

    method ScheduleCaption()
      modifies this`showVideoCaption, this`captionTimeout
      ensures State() == old(State()).(showVideoCaption := false, captionTimeout := Armed(CaptionDelayMs))
    {
      ClearCaptionTimer();
      showVideoCaption := false;
      captionTimeout := Armed(CaptionDelayMs);
    }

    method StartAudio(allowed: bool)
      modifies this`paused
      ensures State() == old(State()).(paused := PausedAfterStartAudio(old(isMuted), old(paused), allowed))
    {
      if isMuted {
        return;
      }
      if !paused {
        return;
      }
      Play(allowed);
    }

    method ResumeAudioIfAllowed(allowed: bool)
      modifies this`paused
      ensures State() == old(State()).(paused := PausedAfterResume(old(isMuted), old(paused), allowed))
    {
      if isMuted {
        return;
      }
      Play(allowed);
    }

    /** goInvite's own statements; the render they cause is the caller's. */
    method GoInvite()
      modifies this`isTransitioning, this`captionTimeout, this`autoInviteTimeout,
               this`showVideoCaption, this`fadeOuts
      ensures State() == if old(isTransitioning) then old(State())
        else old(State()).(isTransitioning := true, captionTimeout := Cleared,
                           autoInviteTimeout := Cleared, showVideoCaption := false,
                           fadeOuts := old(fadeOuts) + 1)
    {
      if isTransitioning {
        return;
      }
      isTransitioning := true;
      ClearCaptionTimer();
      ClearAutoInviteTimer();
      showVideoCaption := false;
      fadeOuts := fadeOuts + 1;
    }

    method VideoEffectCleanup(prev: View)
      modifies this`captionTimeout, this`autoInviteTimeout
      ensures State() == VideoCleanup(prev, old(State()))
    {
      if VideoRerun(prev, State()) && prev.phase == Video {
        ClearCaptionTimer();
        ClearAutoInviteTimer();
      }
    }

    method UnlockEffectCleanup(prev: View)
      modifies this`pointerUnlock, this`keyUnlock
      ensures State() == UnlockCleanup(prev, old(State()))
    {
      if UnlockRerun(prev, State()) && prev.phase == Video && !prev.isMuted {
        pointerUnlock, keyUnlock := false, false;
      }
    }

    method VideoEffectBody(prev: View, allowed: bool)
      modifies this`paused, this`autoInviteTimeout
      ensures State() == VideoBody(prev, old(State()), allowed)
    {
      if VideoRerun(prev, State()) && phase == Video {
        StartAudio(allowed);
        ClearAutoInviteTimer();
        autoInviteTimeout := Armed(AutoInviteDelayMs);
      }
    }

    method MuteEffectBody(prev: View, allowed: bool)
      modifies this`paused, this`audioMuted
      ensures State() == MuteBody(prev, old(State()), allowed)
    {
      if prev.isMuted != isMuted {
        audioMuted := isMuted;
        if !isMuted && paused {
          Play(allowed);
        }
      }
    }

    method UnlockEffectBody(prev: View)
      modifies this`pointerUnlock, this`keyUnlock
      ensures State() == UnlockBody(prev, old(State()))
    {
      if UnlockRerun(prev, State()) && !isMuted && phase == Video {
        pointerUnlock, keyUnlock := true, true;
      }
    }

    /** The render that follows an event which started from `prev`. */
    method Commit(prev: View, allowed: bool)
      modifies this
      ensures State() == AfterEffects(prev, old(State()), allowed)
    {
      VideoEffectCleanup(prev);
      UnlockEffectCleanup(prev);
      VideoEffectBody(prev, allowed);
      MuteEffectBody(prev, allowed);
      UnlockEffectBody(prev);
    }

    // ----- events

    /** The start button, which only the intro card shows. */
    method StartExperience(allowed: bool)
      requires Valid()
      modifies this
      ensures Valid() && State() == Started(old(State()), allowed)
    {
      StartedFacts(State(), allowed);
      if phase != Intro {
        return;
      }
      var prev := State();
      phase := Video;
      ScheduleCaption();
      StartAudio(allowed);
      assert State() == StartStatements(prev, allowed);
      Commit(prev, allowed);
      StartRender(prev, allowed);
    }

    /** goInvite called during the video phase, from `prev` or from `prev` with its automatic
        advance just spent, and the render that follows. */
    method GoInviteAndRender(prev: View, allowed: bool)
      requires Inv(prev) && prev.phase == Video
      requires State() == prev || State() == prev.(autoInviteTimeout := Spent)
      modifies this
      ensures State() == InviteRequested(old(State()), allowed)
    {
      ghost var called := State();
      GoInvite();
      if prev.isTransitioning {
        QuietRender(prev, State(), allowed);
      } else {
        assert State() == GoInviteStatements(called);
        GoInviteRender(prev, called, allowed);
      }
      Commit(prev, allowed);
    }

    /** The skip button, which only the video overlay shows. */
    method Skip(allowed: bool)
      requires Valid()
      modifies this
      ensures Valid() && State() == Skipped(old(State()), allowed)
    {
      SkippedFacts(State(), allowed);
      if phase != Video {
        return;
      }
      GoInviteAndRender(State(), allowed);
    }

    method CaptionTimeoutFires()
      requires Valid()
      modifies this
      ensures Valid() && State() == CaptionFired(old(State()))
    {
      CaptionFiredFacts(State());
      if !captionTimeout.Armed? {
        return;
      }
      captionTimeout := Spent;
      showVideoCaption := true;
    }

    method AutoInviteTimeoutFires(allowed: bool)
      requires Valid()
      modifies this
      ensures Valid() && State() == AutoInviteFired(old(State()), allowed)
    {
      AutoInviteFiredFacts(State(), allowed);
      if !autoInviteTimeout.Armed? {
        return;
      }
      var prev := State();
      autoInviteTimeout := Spent;
      GoInviteAndRender(prev, allowed);
    }

    method FadeOutFires()
      requires Valid()
      modifies this
      ensures Valid() && State() == FadeOutFired(old(State()))
    {
      FadeOutFiredFacts(State());
      if fadeOuts == 0 {
        return;
      }
      var prev := State();
      fadeOuts := fadeOuts - 1;
      phase := Invite;
      frames := frames + 1;
      fadeIns := fadeIns + 1;
      assert State() == FadeOutStatements(prev);
      FadeOutRender(prev);
      Commit(prev, false);
    }

    method AnimationFrameFires()
      requires Valid()
      modifies this
      ensures Valid() && State() == FrameFired(old(State()))
    {
      FrameFiredFacts(State());
      if frames == 0 {
        return;
      }
      frames := frames - 1;
      inviteVisible := true;
    }

    method FadeInFires()
      requires Valid()
      modifies this
      ensures Valid() && State() == FadeInFired(old(State()))
    {
      FadeInFiredFacts(State());
      if fadeIns == 0 {
        return;
      }
      var prev := State();
      fadeIns := fadeIns - 1;
      isTransitioning := false;
      FadeInRender(prev);
      Commit(prev, false);
    }

    method VisibilityChange(nowHidden: bool, allowed: bool)
      requires Valid()
      modifies this
      ensures Valid() && State() == VisibilityChanged(old(State()), nowHidden, allowed)
    {
      assert Inv(VisibilityChanged(State(), nowHidden, allowed)) by {
        VisibilityChangedFacts(State(), nowHidden, allowed);
      }
      hidden := nowHidden;
      if hidden {
        paused := true;
      } else {
        ResumeAudioIfAllowed(allowed);
      }
    }

    method WindowBlur()
      requires Valid()
      modifies this
      ensures Valid() && State() == Blurred(old(State()))
    {
      BlurredFacts(State());
      paused := true;
    }

    method WindowFocus(allowed: bool)
      requires Valid()
      modifies this
      ensures Valid() && State() == Focused(old(State()), allowed)
    {
      FocusedFacts(State(), allowed);
      if hidden {
        return;
      }
      ResumeAudioIfAllowed(allowed);
    }

    /** The mute button: `setIsMuted(prev => !prev)`. */
    method ToggleMute(allowed: bool)
      requires Valid()
      modifies this
      ensures Valid() && State() == MuteToggled(old(State()), allowed)
    {
      MuteToggledFacts(State(), allowed);
      var prev := State();
      isMuted := !isMuted;
      MuteRender(prev, allowed);
      Commit(prev, allowed);
    }

    /** A pointer or key press; only a registered one-shot listener reacts. */
    method UserGesture(g: Gesture, allowed: bool)
      requires Valid()
      modifies this
      ensures Valid() && State() == Gestured(old(State()), g, allowed)
    {
      GesturedFacts(State(), g, allowed);
      match g
      case PointerDown =>
        if pointerUnlock {
          pointerUnlock := false;
          StartAudio(allowed);
        }
      case KeyDown =>
        if keyUnlock {
          keyUnlock := false;
          StartAudio(allowed);
        }
    }

    /** The component leaves the page: React runs the pending effect cleanups. */
    method Unmount()
      modifies this
      ensures State() == Unmounted(old(State()))
    {
      if phase == Video {
        ClearCaptionTimer();
        ClearAutoInviteTimer();
      }
      if phase == Video && !isMuted {
        pointerUnlock, keyUnlock := false, false;
      }
    }
  }

  /** Start with the audio allowed, hide the page, let the automatic advance fire: the audio
      plays on the hidden page. */
  method HiddenPageScenario() returns (hidden: bool, paused: bool, phase: Phase)
    ensures hidden && !paused && phase == Video
  {
    var s := new Sequencer(false, false);
    s.StartExperience(true);
    s.VisibilityChange(true, true);
    s.AutoInviteTimeoutFires(true);
    hidden, paused, phase := s.hidden, s.paused, s.phase;
  }

  /** Two skips in a row and the automatic advance after them, then the transition's callbacks:
      one transition, the invitation visible, no timeout left. */
  method DoubleSkipScenario() returns (v: View)
    ensures v.phase == Invite && v.inviteVisible && !v.isTransitioning
    ensures v.captionTimeout == Cleared && v.autoInviteTimeout == Cleared
    ensures v.fadeOuts == 0 && v.frames == 0 && v.fadeIns == 0
  {
    var s := new Sequencer(false, false);
    s.StartExperience(false);
    s.Skip(false);
    s.Skip(true);
    s.AutoInviteTimeoutFires(true);
    s.FadeOutFires();
    s.FadeOutFires();
    s.AnimationFrameFires();
    s.FadeInFires();
    v := s.State();
  }
}
