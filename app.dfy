/**
 * App.tsx: the studio page's own state and handlers — the sequencer's
 * transport and trigger effect, custom samples, structure rules, the beat
 * upload checks, the generate gate with its fallback settings and credit
 * debit, the feature locks and the loading indicator.
 */
module Studio {
  import opened Common
  import opened Text
  import opened Drums
  import opened Prompt
  import opened Auth
  import opened Storage
  import opened Store

  // ---------------------------------------------------------------------
  // Constants and messages
  // ---------------------------------------------------------------------

  /** `CREDIT_COST` */
  const CreditCost: int := 10

  /** The largest beat file accepted: 4 MiB. */
  const MaxBeatBytes: int := 4 * 1024 * 1024

  /** The tempo set after a beat upload, and the default tempo. */
  const DefaultBpm: int := 90

  /** The number of `LOADING_STEPS` messages. */
  const LoadingStepCount: nat := 7

  /** Where the loading bar stops until the answer arrives. */
  const ProgressCap: real := 95.0

  const UnsupportedSampleMessage: string := "فرمت فایل صوتی پشتیبانی نمی‌شود."
  const RuleOrderMessage: string := "خط شروع نمی‌تواند بعد از خط پایان باشد."
  const BeatTooLargeMessage: string := "حجم فایل نباید بیشتر از ۴ مگابایت باشد."
  const BeatNotAudioMessage: string := "لطفاً یک فایل صوتی معتبر انتخاب کنید."
  const BeatProcessingMessage: string := "خطا در پردازش فایل صوتی."
  const EmptyTopicMessage: string := "لطفا ابتدا یک موضوع وارد کنید!"
  const GenerateFailedMessage: string := "خطایی در تولید رخ داد."

  // ---------------------------------------------------------------------
  // Feature locks
  // ---------------------------------------------------------------------

  /** The feature ids the generator page checks with `isLocked`. */
  const GatedFeatures: seq<string> := ["feature_tone", "feature_keywords", "feature_rhyme", "feature_ai_advanced"]

  /** `isLocked`: locked without a user, or when the user does not own the feature. */
  function IsLocked(user: Option<User>, featureId: string): (locked: bool)
    ensures locked <==> user.None? || !IsOwned(user.value, featureId)
  {
    if user.None? then true else featureId !in user.value.ownedPlugins
  }

  /** Every gated feature can be bought in the plugin store. */
  lemma GatedFeaturesAreSold()
    ensures forall id :: id in GatedFeatures ==> id in StoreIds()
  {
    var ids := StoreIds();
    assert ids[0] == "feature_tone" && ids[1] == "feature_keywords";
    assert ids[2] == "feature_rhyme" && ids[5] == "feature_ai_advanced";
  }

  /** A purchase the store completes, or finds already done, unlocks the feature. */
  lemma PurchaseUnlocks(user: Option<User>, featureId: string, cost: int)
    ensures var d := Decide(user, featureId, cost);
      && (d.Charge? ==> !IsLocked(Some(d.updated), featureId))
      && (d.AlreadyOwned? ==> !IsLocked(user, featureId))
      && (d.Refused? ==> IsLocked(user, featureId) || user.value.credits < cost)
  {
    var d := Decide(user, featureId, cost);
    if d.Charge? {
      assert featureId == d.updated.ownedPlugins[|d.updated.ownedPlugins| - 1];
    }
  }

  // ---------------------------------------------------------------------
  // Beat upload checks
  // ---------------------------------------------------------------------

  /** The checks `handleBeatUpload` makes before reading the file: size first, then type. */
  function BeatCheck(size: int, mimeType: string): (err: Option<string>)
    ensures err.None? <==> size <= MaxBeatBytes && StartsWith(mimeType, "audio/")
    ensures size > MaxBeatBytes ==> err == Some(BeatTooLargeMessage)
    ensures size <= MaxBeatBytes && !StartsWith(mimeType, "audio/") ==> err == Some(BeatNotAudioMessage)
  {
    if size > MaxBeatBytes then Some(BeatTooLargeMessage)
    else if !StartsWith(mimeType, "audio/") then Some(BeatNotAudioMessage)
    else None
  }

  // ---------------------------------------------------------------------
  // The generate gate and its settings
  // ---------------------------------------------------------------------

  /** What pressing generate leads to. */
  datatype Gate = NeedTopic | NeedLogin | NeedCredits | Proceed

  /** The three checks of `handleGenerate`, in their order. */
  function GenerateGate(topic: string, user: Option<User>): (g: Gate)
    ensures g == NeedTopic <==> Trim(topic) == ""
    ensures g == NeedLogin <==> Trim(topic) != "" && user.None?
    ensures g == NeedCredits <==> Trim(topic) != "" && user.Some? && user.value.credits < CreditCost
    ensures g == Proceed <==> Trim(topic) != "" && user.Some? && user.value.credits >= CreditCost
  {
    if Trim(topic) == "" then NeedTopic
    else if user.None? then NeedLogin
    else if user.value.credits < CreditCost then NeedCredits
    else Proceed
  }

  /** A user who passes the gate is debited exactly the cost; the clamp at zero never applies. */
  lemma GateDebitIsExact(topic: string, user: Option<User>)
    requires GenerateGate(topic, user) == Proceed
    ensures NewBalance(user.value.credits, -CreditCost) == user.value.credits - CreditCost
  {
  }

  /** The rhyme complexity: the default medium level or another chosen level. */
  datatype Complexity = MediumComplexity | ChosenComplexity(name: string)

  /** The generation settings passed to the lyric generator. */
  datatype Settings = Settings(
    complexity: Complexity, rhymeScheme: RhymeScheme,
    flowSpeed: string, stressLevel: string, rhythmicVariety: string,
    creativity: real, topK: int, topP: real, useThinking: bool, targetBpm: int,
    sequencer: Option<Grid>, beat: Option<Beat>, rules: seq<StructureRule>)

  /** Which feature groups are switched on. */
  datatype Toggles = Toggles(rhyme: bool, flow: bool, advanced: bool, drumSequencer: bool, beatUpload: bool, personalization: bool)

  /** The settings a switched-off group falls back to. */
  const Defaults: Settings := Settings(
    MediumComplexity, Freestyle, "Medium", "Medium", "Balanced",
    0.8, 40, 0.95, false, DefaultBpm, None, None, [])

  /** Every group switched the other way. */
  function Flip(t: Toggles): Toggles {
    Toggles(!t.rhyme, !t.flow, !t.advanced, !t.drumSequencer, !t.beatUpload, !t.personalization)
  }

  /** The `final…` values of `handleGenerate`: the chosen value of an enabled group, the default otherwise. */
  function Resolve(chosen: Settings, t: Toggles): (r: Settings)
    ensures AgreeOnEnabled(r, chosen, t)
    ensures AgreeOnEnabled(r, Defaults, Flip(t))
  {
    Settings(
      if t.rhyme then chosen.complexity else Defaults.complexity,
      if t.rhyme then chosen.rhymeScheme else Defaults.rhymeScheme,
      if t.flow then chosen.flowSpeed else Defaults.flowSpeed,
      if t.flow then chosen.stressLevel else Defaults.stressLevel,
      if t.flow then chosen.rhythmicVariety else Defaults.rhythmicVariety,
      if t.advanced then chosen.creativity else Defaults.creativity,
      if t.advanced then chosen.topK else Defaults.topK,
      if t.advanced then chosen.topP else Defaults.topP,
      if t.advanced then chosen.useThinking else Defaults.useThinking,
      if t.advanced then chosen.targetBpm else Defaults.targetBpm,
      if t.drumSequencer then chosen.sequencer else Defaults.sequencer,
      if t.beatUpload then chosen.beat else Defaults.beat,
      if t.personalization then chosen.rules else Defaults.rules)
  }

  /** Two choices that agree on every enabled group produce the same request. */
  predicate AgreeOnEnabled(a: Settings, b: Settings, t: Toggles) {
    && (t.rhyme ==> a.complexity == b.complexity && a.rhymeScheme == b.rhymeScheme)
    && (t.flow ==> a.flowSpeed == b.flowSpeed && a.stressLevel == b.stressLevel && a.rhythmicVariety == b.rhythmicVariety)
    && (t.advanced ==> a.creativity == b.creativity && a.topK == b.topK && a.topP == b.topP
                       && a.useThinking == b.useThinking && a.targetBpm == b.targetBpm)
    && (t.drumSequencer ==> a.sequencer == b.sequencer)
    && (t.beatUpload ==> a.beat == b.beat)
    && (t.personalization ==> a.rules == b.rules)
  }

  /**
   * Switched-off groups are ignored: the request depends only on the enabled
   * groups, all groups off gives the defaults, and all on gives the choice.
   */
  lemma DisabledGroupsIgnored(a: Settings, b: Settings, t: Toggles)
    ensures AgreeOnEnabled(a, b, t) <==> Resolve(a, t) == Resolve(b, t)
    ensures Resolve(a, Toggles(false, false, false, false, false, false)) == Defaults
    ensures Resolve(a, Toggles(true, true, true, true, true, true)) == a
  {
    if Resolve(a, t) == Resolve(b, t) {
      var ra, rb := Resolve(a, t), Resolve(b, t);
      assert ra.complexity == rb.complexity && ra.rhymeScheme == rb.rhymeScheme;
      assert ra.flowSpeed == rb.flowSpeed && ra.stressLevel == rb.stressLevel && ra.rhythmicVariety == rb.rhythmicVariety;
      assert ra.creativity == rb.creativity && ra.topK == rb.topK && ra.topP == rb.topP;
      assert ra.useThinking == rb.useThinking && ra.targetBpm == rb.targetBpm;
      assert ra.sequencer == rb.sequencer && ra.beat == rb.beat && ra.rules == rb.rules;
    }
  }

  /** The project `handleGenerate` saves for a new lyric. */
  function GeneratedProject(tempId: string, user: User, lyric: Lyric, style: string, now: int): CloudProject {
    CloudProject(tempId, user.id, lyric.title, lyric.content, style, now, [], Some(lyric.aiAnalysis))
  }

  // ---------------------------------------------------------------------
  // The loading indicator
  // ---------------------------------------------------------------------

  /** The progress updater: +1.5 below 50, +0.5 from 50, frozen from 95. */
  function ProgressStep(p: real): (q: real)
    ensures q >= p
    ensures p >= ProgressCap ==> q == p
    ensures p < ProgressCap ==> q > p
  {
    if p >= ProgressCap then p else p + (if p < 50.0 then 1.5 else 0.5)
  }

  /** `h` half-percent steps. */
  function Half(h: nat): real {
    h as real / 2.0
  }

  /** Progress values the updater can reach from 0: a whole number of half percents, at most 95. */
  predicate Reachable(p: real) {
    0.0 <= p <= ProgressCap && exists h: nat | h <= 190 :: p == Half(h)
  }

  /** Starting from 0 the bar never passes 95. */
  lemma ProgressStaysBelowCap(p: real)
    requires Reachable(p)
    ensures Reachable(ProgressStep(p))
  {
    var h: nat :| h <= 190 && p == Half(h);
    if p < ProgressCap {
      assert h < 190;
      if p < 50.0 {
        assert ProgressStep(p) == Half(h + 3);
      } else {
        assert ProgressStep(p) == Half(h + 1);
      }
    }
  }

  /** The loading-message updater `(prev + 1) % LOADING_STEPS.length`. */
  function NextLoadingStep(i: nat): (j: nat)
    ensures j < LoadingStepCount
    ensures i < LoadingStepCount - 1 ==> j == i + 1
    ensures i == LoadingStepCount - 1 ==> j == 0
  {
    (i + 1) % LoadingStepCount
  }

  // ---------------------------------------------------------------------
  // The studio page
  // ---------------------------------------------------------------------

  /** The interval that advances the playhead, with its period in milliseconds. */
  datatype Interval = Interval(periodMs: real)

  class StudioPage {
    var grid: Grid
    var samples: SampleBank
    var currentStep: nat
    var playing: bool
    var targetBpm: int
    /** `sequencerInterval.current` while it is live. */
    var timer: Option<Interval>
    var error: Option<string>
    var rules: seq<StructureRule>
    var uploadedBeat: Option<Beat>
    var processingAudio: bool
    var loading: bool
    var progress: real
    var loadingStep: nat
    var result: Option<Lyric>
    var authModalOpen: bool
    var creditModalOpen: bool
    const synth: DrumSynth

    /** The page's invariant: a well-formed grid and sample bank, a live timer exactly while playing, and the indicator in range. */
    predicate Valid()
      reads this
    {
      && IsGrid(grid) && IsSampleBank(samples) && currentStep < StepCount && targetBpm > 0
      && (timer.Some? <==> playing)
      && (timer.Some? ==> timer.value.periodMs == StepIntervalMs(targetBpm))
      && Reachable(progress) && loadingStep < LoadingStepCount
    }

    /** The drum grid and the custom samples are as they were. */
    twostate predicate PatternKept()
      reads this
    {
      grid == old(grid) && samples == old(samples)
    }

    /** The playhead, the running flag, the tempo and the interval are as they were. */
    twostate predicate TransportKept()
      reads this
    {
      currentStep == old(currentStep) && playing == old(playing) && targetBpm == old(targetBpm) && timer == old(timer)
    }

    /** The structure rules, the uploaded beat and its processing flag are as they were. */
    twostate predicate InputsKept()
      reads this
    {
      rules == old(rules) && uploadedBeat == old(uploadedBeat) && processingAudio == old(processingAudio)
    }

    /** The loading indicator and the shown result are as they were. */
    twostate predicate LoadingKept()
      reads this
    {
      loading == old(loading) && progress == old(progress) && loadingStep == old(loadingStep) && result == old(result)
    }

    /** Neither modal has been opened or closed. */
    twostate predicate ModalsKept()
      reads this
    {
      authModalOpen == old(authModalOpen) && creditModalOpen == old(creditModalOpen)
    }

    constructor (synth: DrumSynth)
      ensures Valid()
      ensures grid == InitialGrid() && samples == NoSamples && currentStep == 0 && !playing && timer == None
      ensures targetBpm == DefaultBpm && rules == [] && uploadedBeat == None && error == None
      ensures !loading && progress == 0.0 && loadingStep == 0 && result == None
      ensures !processingAudio && !authModalOpen && !creditModalOpen
      ensures this.synth == synth
    {
      grid := InitialGrid();
      samples := NoSamples;
      currentStep := 0;
      playing := false;
      targetBpm := DefaultBpm;
      timer := None;
      error := None;
      rules := [];
      uploadedBeat := None;
      processingAudio := false;
      loading := false;
      progress := 0.0;
      loadingStep := 0;
      result := None;
      authModalOpen := false;
      creditModalOpen := false;
      this.synth := synth;
      new;
      NoSamplesIsSampleBank();
      assert progress == Half(0);
    }

    // ----- sequencer transport -----

    /** The effect on `[isSequencerPlaying, targetBpm]`: the old interval is cleared and a new one set while playing. */
    method Reschedule()
      modifies this
      requires IsGrid(grid) && IsSampleBank(samples) && currentStep < StepCount && targetBpm > 0
      requires Reachable(progress) && loadingStep < LoadingStepCount
      ensures Valid()
      ensures timer == (if playing then Some(Interval(StepIntervalMs(targetBpm))) else None)
      ensures currentStep == old(currentStep) && playing == old(playing) && targetBpm == old(targetBpm)
      ensures PatternKept() && InputsKept() && LoadingKept() && ModalsKept() && error == old(error)
    {
      timer := None;
      if playing {
        timer := Some(Interval(StepIntervalMs(targetBpm)));
      }
    }

    /** Start or stop the sequencer; stopping keeps the playhead where it is. */
    method SetPlaying(on: bool)
      requires Valid()
      modifies this
      ensures Valid()
      ensures playing == on && currentStep == old(currentStep) && targetBpm == old(targetBpm)
      ensures timer == (if on then Some(Interval(StepIntervalMs(targetBpm))) else None)
      ensures PatternKept() && InputsKept() && LoadingKept() && ModalsKept() && error == old(error)
    {
      playing := on;
      Reschedule();
    }

    /** Change the tempo; a running sequencer is rescheduled at the new interval. */
    method SetBpm(bpm: int)
      requires Valid() && bpm > 0
      modifies this
      ensures Valid()
      ensures targetBpm == bpm && playing == old(playing) && currentStep == old(currentStep)
      ensures timer == (if playing then Some(Interval(StepIntervalMs(bpm))) else None)
      ensures PatternKept() && InputsKept() && LoadingKept() && ModalsKept() && error == old(error)
    {
      targetBpm := bpm;
      Reschedule();
    }

    /** The interval callback: the playhead moves on by one step; without a live interval nothing happens. */
    method Tick()
      requires Valid()
      modifies this
      ensures Valid()
      ensures currentStep == (if old(timer).Some? then NextStep(old(currentStep)) else old(currentStep))
      ensures playing == old(playing) && targetBpm == old(targetBpm) && timer == old(timer)
      ensures PatternKept() && InputsKept() && LoadingKept() && ModalsKept() && error == old(error)
    {
      if timer.Some? {
        currentStep := NextStep(currentStep);
      }
    }

    /**
     * The trigger effect: while playing, each voice whose cell at the
     * current step is set is played, kick to perc, with its own custom
     * sample; while stopped nothing plays and the synthesiser is untouched.
     */
    method TriggerEffect(initial: PowerState) returns (sounds: seq<Sound>)
      requires Valid()
      modifies synth, synth.ctx
      ensures sounds == Triggered(grid, samples, currentStep, playing)
      ensures !playing ==> synth.ctx == old(synth.ctx)
      ensures sounds != [] ==> synth.ctx != null && synth.ctx.state != Suspended
    {
      sounds := [];
      if !playing {
        return;
      }
      sounds := synth.PlayStep(grid, samples, currentStep, initial);
    }

    // ----- custom samples -----

    /**
     * `handleSampleUpload`: the context is readied, then the decoded buffer
     * replaces that voice's entry only; a file that does not decode leaves
     * the samples as they were and reports the format error.
     */
    method UploadSample(voice: Instrument, decoded: Option<AudioBuffer>, initial: PowerState)
      requires Valid()
      modifies this, synth, synth.ctx
      ensures Valid()
      ensures decoded.Some? ==> samples == old(samples)[voice := decoded] && error == old(error)
      ensures decoded.None? ==> samples == old(samples) && error == Some(UnsupportedSampleMessage)
      ensures grid == old(grid) && TransportKept() && InputsKept() && LoadingKept() && ModalsKept()
      ensures old(synth.ctx) != null ==> synth.ctx == old(synth.ctx)
      ensures old(synth.ctx) == null ==> fresh(synth.ctx)
      ensures synth.ctx != null && synth.ctx.state != Suspended
    {
      var c := synth.Init(initial);
      if decoded.Some? {
        samples := samples[voice := decoded];
      } else {
        error := Some(UnsupportedSampleMessage);
      }
    }

    /** `clearSample`: only that voice's entry becomes empty. */
    method ClearSample(voice: Instrument)
      requires Valid()
      modifies this
      ensures Valid()
      ensures samples == old(samples)[voice := None]
      ensures grid == old(grid) && error == old(error)
      ensures TransportKept() && InputsKept() && LoadingKept() && ModalsKept()
    {
      samples := samples[voice := None];
    }

    // ----- structure rules -----

    /**
     * `addStructureRule`: a start after the end is refused with an error
     * and no change; otherwise exactly the new rule is appended and the
     * error cleared. `newId` stands for the random id.
     */
    method AddStructureRule(section: string, start: int, end: int, scheme: RhymeScheme, newId: string)
      requires Valid()
      modifies this
      ensures Valid()
      ensures start > end ==> rules == old(rules) && error == Some(RuleOrderMessage)
      ensures start <= end ==> rules == old(rules) + [StructureRule(newId, section, start, end, scheme)] && error == None
      ensures uploadedBeat == old(uploadedBeat) && processingAudio == old(processingAudio)
      ensures PatternKept() && TransportKept() && LoadingKept() && ModalsKept()
    {
      if start > end {
        error := Some(RuleOrderMessage);
        return;
      }
      rules := rules + [StructureRule(newId, section, start, end, scheme)];
      error := None;
    }

    /** `removeStructureRule`: the rules without that id, the rest in their order. */
    method RemoveStructureRule(id: string)
      requires Valid()
      modifies this
      ensures Valid()
      ensures rules == RulesWithout(old(rules), id)
      ensures error == old(error) && uploadedBeat == old(uploadedBeat) && processingAudio == old(processingAudio)
      ensures PatternKept() && TransportKept() && LoadingKept() && ModalsKept()
    {
      rules := RulesWithout(rules, id);
    }

    // ----- beat upload -----

    /**
     * `handleBeatUpload`: a failed size or type check only reports it;
     * otherwise the error is cleared and, if the audio decodes, the tempo
     * becomes 90 (rescheduling a running sequencer) and the beat is kept;
     * if not, the processing error is reported and no beat is kept.
     * `data` stands for the file's base64 text.
     */
    method HandleBeatUpload(name: string, size: int, mimeType: string, decodes: bool, data: string)
      requires Valid()
      modifies this
      ensures Valid()
      ensures BeatCheck(size, mimeType).Some? ==>
        error == BeatCheck(size, mimeType) && TransportKept() && InputsKept()
      ensures BeatCheck(size, mimeType).None? && decodes ==>
        && uploadedBeat == Some(Beat(name, data, mimeType)) && error == None && !processingAudio
        && targetBpm == DefaultBpm && timer == (if playing then Some(Interval(StepIntervalMs(DefaultBpm))) else None)
      ensures BeatCheck(size, mimeType).None? && !decodes ==>
        && uploadedBeat == old(uploadedBeat) && error == Some(BeatProcessingMessage) && !processingAudio
        && TransportKept()
      ensures currentStep == old(currentStep) && playing == old(playing) && rules == old(rules)
      ensures PatternKept() && LoadingKept() && ModalsKept()
    {
      var check := BeatCheck(size, mimeType);
      if check.Some? {
        error := check;
        return;
      }
      processingAudio := true;
      error := None;
      if decodes {
        targetBpm := DefaultBpm;
        Reschedule();
        uploadedBeat := Some(Beat(name, data, mimeType));
        processingAudio := false;
      } else {
        error := Some(BeatProcessingMessage);
        processingAudio := false;
      }
    }

    // ----- loading indicator -----

    /** The effect on `isLoading`: either way the bar and the message start again from zero. */
    method SetLoading(on: bool)
      requires Valid()
      modifies this
      ensures Valid()
      ensures loading == on && progress == 0.0 && loadingStep == 0
      ensures result == old(result) && error == old(error)
      ensures PatternKept() && TransportKept() && InputsKept() && ModalsKept()
    {
      loading := on;
      progress := 0.0;
      loadingStep := 0;
      assert progress == Half(0);
    }

    /** The progress interval, live only while loading. */
    method ProgressTick()
      requires Valid()
      modifies this
      ensures Valid()
      ensures progress == (if loading then ProgressStep(old(progress)) else old(progress))
      ensures progress >= old(progress) && progress <= ProgressCap
      ensures loadingStep == old(loadingStep) && loading == old(loading) && result == old(result) && error == old(error)
      ensures PatternKept() && TransportKept() && InputsKept() && ModalsKept()
    {
      if loading {
        ProgressStaysBelowCap(progress);
        progress := ProgressStep(progress);
      }
    }

    /** The message interval, live only while loading. */
    method LoadingStepTick()
      requires Valid()
      modifies this
      ensures Valid()
      ensures loadingStep == (if loading then NextLoadingStep(old(loadingStep)) else old(loadingStep))
      ensures progress == old(progress) && loading == old(loading) && result == old(result) && error == old(error)
      ensures PatternKept() && TransportKept() && InputsKept() && ModalsKept()
    {
      if loading {
        loadingStep := NextLoadingStep(loadingStep);
      }
    }

    // ----- generate -----

    /** The selections a request starts from: the form's, with the page's tempo, grid, beat and rules. */
    function Chosen(form: Settings): (c: Settings)
      reads this
      ensures c.targetBpm == targetBpm && c.sequencer == Some(grid) && c.beat == uploadedBeat && c.rules == rules
    {
      form.(targetBpm := targetBpm, sequencer := Some(grid), beat := uploadedBeat, rules := rules)
    }

    /**
     * `handleGenerate`. The gate's first failing check reports an empty
     * topic, opens the sign-in modal or opens the credit modal, and nothing
     * else happens. Past the gate the request uses the resolved settings;
     * an answer becomes the result, debits `CREDIT_COST` through
     * `updateCredits` and is saved as a project of the user; a failure shows
     * its message (or the generic one). Loading is over at the end.
     * `form` carries the rhyme, flow and advanced selections; the tempo,
     * drum grid, uploaded beat and structure rules are the page's own.
     */
    method HandleGenerate(auth: AuthStore, topic: string, style: string, form: Settings, toggles: Toggles,
                          reply: Result<Lyric>, creditsServerOk: bool, saveReply: Outcome, tempId: string, now: int)
      returns (gate: Gate, request: Option<Settings>, saved: Option<CloudProject>)
      requires Valid()
      modifies this, auth
      ensures Valid()
      ensures gate == GenerateGate(topic, old(auth.user))
      ensures request.Some? <==> gate == Proceed
      ensures request.Some? ==> request.value == Resolve(old(Chosen(form)), toggles)
      ensures gate == NeedTopic ==> error == Some(EmptyTopicMessage) && ModalsKept()
      ensures gate == NeedLogin ==> authModalOpen && error == old(error) && creditModalOpen == old(creditModalOpen)
      ensures gate == NeedCredits ==> creditModalOpen && error == old(error) && authModalOpen == old(authModalOpen)
      ensures gate != Proceed ==> LoadingKept() && StoreKept(auth) && saved.None?
      ensures gate == Proceed && reply.Ok? ==>
        var u := old(auth.user).value;
        && result == Some(reply.value) && error == None
        && saved == Some(GeneratedProject(tempId, u, reply.value, style, now))
        && CreditsEffect(auth, -CreditCost, creditsServerOk)
        && auth.user == Some(if Syncs(auth.configured, u) && !creditsServerOk then u else u.(credits := u.credits - CreditCost))
      ensures gate == Proceed && reply.Err? ==>
        && result == None && saved.None? && StoreKept(auth)
        && error == Some(if reply.message != "" then reply.message else GenerateFailedMessage)
      ensures gate == Proceed ==> !loading && progress == 0.0 && loadingStep == 0 && ModalsKept()
      ensures PatternKept() && TransportKept() && InputsKept()
    {
      gate := GenerateGate(topic, auth.user);
      request, saved := None, None;
      if gate == Proceed {
        request := Some(Resolve(Chosen(form), toggles));
        saved := RunGeneration(auth, style, reply, creditsServerOk, saveReply, tempId, now);
      } else {
        Refuse(gate);
      }
    }

    /** A generate request stopped at the gate: the topic error, or the sign-in or credit modal. */
    method Refuse(gate: Gate)
      requires Valid() && gate != Proceed
      modifies this
      ensures Valid()
      ensures gate == NeedTopic ==> error == Some(EmptyTopicMessage) && authModalOpen == old(authModalOpen) && creditModalOpen == old(creditModalOpen)
      ensures gate == NeedLogin ==> authModalOpen && error == old(error) && creditModalOpen == old(creditModalOpen)
      ensures gate == NeedCredits ==> creditModalOpen && error == old(error) && authModalOpen == old(authModalOpen)
      ensures PatternKept() && TransportKept() && InputsKept() && LoadingKept()
    {
      match gate
      case NeedTopic =>
        error := Some(EmptyTopicMessage);
      case NeedLogin =>
        authModalOpen := true;
      case NeedCredits =>
        creditModalOpen := true;
    }

    /**
     * The part of `handleGenerate` past the gate: loading starts, the
     * previous result and error are cleared, and the generator's reply is
     * either shown, charged and saved, or reported; loading then ends.
     */
    method RunGeneration(auth: AuthStore, style: string, reply: Result<Lyric>, creditsServerOk: bool,
                         saveReply: Outcome, tempId: string, now: int)
      returns (saved: Option<CloudProject>)
      requires Valid()
      requires auth.user.Some? && auth.user.value.credits >= CreditCost
      modifies this, auth
      ensures Valid()
      ensures reply.Ok? ==>
        var u := old(auth.user).value;
        && result == Some(reply.value) && error == None
        && saved == Some(GeneratedProject(tempId, u, reply.value, style, now))
        && CreditsEffect(auth, -CreditCost, creditsServerOk)
        && auth.user == Some(if Syncs(auth.configured, u) && !creditsServerOk then u else u.(credits := u.credits - CreditCost))
      ensures reply.Err? ==>
        && result == None && saved.None? && StoreKept(auth)
        && error == Some(if reply.message != "" then reply.message else GenerateFailedMessage)
      ensures !loading && progress == 0.0 && loadingStep == 0
      ensures PatternKept() && TransportKept() && InputsKept() && ModalsKept()
    {
      var u := auth.user.value;
      SetLoading(true);
      error := None;
      result := None;
      saved := None;
      match reply {
      case Ok(lyric) =>
        result := Some(lyric);
        assert NewBalance(u.credits, -CreditCost) == u.credits - CreditCost;
        auth.UpdateCredits(-CreditCost, creditsServerOk);
        var project := GeneratedProject(tempId, u, lyric, style, now);
        var _ := SaveProject(project, saveReply);
        saved := Some(project);
      case Err(message) =>
        error := Some(if message != "" then message else GenerateFailedMessage);
      }
      SetLoading(false);
    }
  }

  /** `structureRules.filter(r => r.id !== id)`: the other rules, in their order. */
  function RulesWithout(rules: seq<StructureRule>, id: string): (r: seq<StructureRule>)
    ensures forall x :: x in r <==> x in rules && x.id != id
    ensures IsSubsequence(r, rules)
    ensures forall x :: multiset(r)[x] == if x.id != id then multiset(rules)[x] else 0
  {
    var keep := (x: StructureRule) => x.id != id;
    FilterMembers(rules, keep);
    FilterIsSubsequence(rules, keep);
    FilterCounts(rules, keep);
    Filter(rules, keep)
  }
}
