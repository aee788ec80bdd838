# RapGenAI logic core in Dafny

RapGenAI is a browser studio for writing Persian rap lyrics with a generative-AI
back end. This project models the logic layer under its UI and proves
properties of that layer. The modules are:

- **Drums** — the drum sequencer of `App.tsx`:
  - a 4-voice × 16-step grid and a playhead that wraps at 16;
  - the tick interval derived from the BPM;
  - which voices fire on a step, and whether each plays its custom sample or is synthesised;
  - `DrumSynth`, with its lazily created and resumed audio context.
- **Studio** — the rest of `App.tsx`'s page state:
  - timer start, stop and reschedule;
  - the trigger effect;
  - sample upload and clear;
  - structure-rule editing;
  - beat-upload checks;
  - the generate gate, its fallback settings and the credit debit;
  - the feature locks;
  - the loading indicator.
- **Auth** — the account provider of `context/AuthContext.tsx`:
  - clamped credit updates;
  - plugin purchase, including the path for a plugin already owned;
  - profile updates with optimistic write and revert;
  - logout;
  - demo-mode login and signup.
- **Prompt** — the helpers of `services/gemini.ts`:
  - base-URL sanitising;
  - the rhythm description;
  - the numbered structure map, built by a loop;
  - the conditional rhyme constraint;
  - response normalisation;
  - the retry and back-off schedule.
- **Dashboard** — `components/Dashboard.tsx`:
  - project filtering;
  - rank thresholds;
  - the favourite style, counted in a loop and reduced;
  - recent activity;
  - most-recent-first ordering;
  - the achievement bar;
  - the connection-test URL.
- **Store** — `components/PluginStore.tsx`: the catalogue, ownership, the card shown for each item, and the purchase handler.
- **AuthForm** — `components/AuthModal.tsx`: the arithmetic challenge, the reset run on opening, and the submit gate.
- **Storage** — `services/cloudStorage.ts`:
  - the singleton service;
  - row ↔ record mapping;
  - the save payload;
  - owner-scoped delete;
  - the comment append.
- **Common** and **Text** — shared helpers:
  - optional values and outcomes, and order-preserving filtering;
  - JavaScript-style trimming, prefix and suffix tests, `parseInt` and number printing.

Some inputs come from outside the program and are passed in as parameters:

- **Network and database:** every call is reduced to the reply it gives, such as `Outcome`, `Result`, `SignupReply` or `CommentFetch`.
- **Random draws:** `Math.random` values, such as challenge digits and ids.
- **Time:** `Date.now`.
- **Decoded audio:** the result of decoding an audio file.
- **Platform audio:** the power state the platform gives a new audio context.
- **Configuration:** `isSupabaseConfigured` is the `configured` flag.

Some parts of the code change state in place, and these are classes whose methods state the whole new state:

- React state (`StudioPage`, `AuthModal`, `StorePanel`);
- the auth provider (`AuthStore`);
- `DrumSynth`;
- the service registry.

The pure computations are functions and lemmas.

## Model

| member | source | states |
|---|---|---|
| Common.FilterMembers | components/Dashboard.tsx:161-165 | an element survives `filter` iff it is in the list and satisfies the predicate |
| Common.FilterIsSubsequence | components/Dashboard.tsx:161-165 | `filter` keeps the relative order of what it keeps |
| Common.FilterAllKept | components/Dashboard.tsx:161-165 | a predicate true on every element makes `filter` the identity |
| Text.Trim | services/gemini.ts:78 | the trimmed string is a contiguous middle of the input, with only white space cut at either end, and it neither starts nor ends with white space |
| Text.TrimEmptyIffAllSpace | App.tsx:370 | trimming leaves nothing iff the text is all white space |
| Text.StripTrailing | services/gemini.ts:78 | `replace(/\/+$/, '')`: a prefix with no trailing '/', and everything removed was '/' |
| Text.BeforeFirst | context/AuthContext.tsx:141 | `split('@')[0]`: the longest prefix without the separator, cut exactly at its first occurrence |
| Text.IntToString | services/gemini.ts:112 | `String(n)`: at least one character; decimal digits only for a non-negative number, a minus sign then digits for a negative one |
| Text.ParseInt | components/AuthModal.tsx:48 | `parseInt`: blank text is NaN, and a negative result needs a leading '-' after the white space |
| Text.ParseIntSkipsSpace | components/AuthModal.tsx:48 | white space in front of the number does not change what `parseInt` reads |
| Text.JoinCount | services/gemini.ts:112 | joining comma-free parts by ", " puts exactly one comma between each two parts |
| Text.SplitJoin | services/gemini.ts:112 | splitting joined parts at the separator's first character gives every part back, in order, each after the first behind the rest of the separator |
| Text.ParseIntOfIntToString | components/AuthModal.tsx:48 | `parseInt` reads back every integer printed in decimal |
| Drums.Rank | App.tsx:61-66 | each voice has a position in `INSTRUMENTS` holding that voice |
| Drums.AllInstrumentsListed | App.tsx:61-66 | `INSTRUMENTS` lists every voice |
| Drums.NoSamplesIsSampleBank | App.tsx:207-209 | the initial sample map has an entry, empty, for every voice |
| Drums.DistinctWithinBar | App.tsx:341 | two tick counts less than a bar apart give different playheads |
| Drums.InitialGrid | App.tsx:204-206 | every voice has exactly 16 cells, all off |
| Drums.NextStep | App.tsx:341 | the playhead updater stays below 16, adds one, and wraps 15 to 0 |
| Drums.StepAfterIsModular | App.tsx:340-342 | after n ticks from s the playhead is (s + n) mod 16 |
| Drums.FullBar | App.tsx:340-342 | 16 ticks return to the start and visit each of the 16 steps exactly once |
| Drums.StepIntervalMs | App.tsx:339 | the tick interval is positive and interval × BPM = 15000 ms |
| Drums.StepIntervalAt120 | App.tsx:339 | at 120 BPM a tick is 125 ms |
| Drums.SoundFor | App.tsx:89-90 | `if (customBuffer) return this.playSample(customBuffer)`: the custom buffer is played when present, otherwise that voice is synthesised |
| Drums.Triggered | App.tsx:328-335 | nothing while stopped; while playing one sound per active voice, and silence iff no voice's cell is set |
| Drums.ActiveVoices | App.tsx:330-333 | the voices fired on a step are exactly those whose cell is set, in kick, snare, hihat, perc order |
| Drums.TriggeredMeaning | App.tsx:328-335 | while playing, one sound per active voice in order, a voice with a custom buffer playing that buffer |
| Drums.TriggeredUnrolled | App.tsx:330-333 | the sounds started are those of the effect's four `if`s in turn |
| Drums.AudioContext.Resume | App.tsx:76 | a resumed context is running |
| Drums.DrumSynth.constructor | App.tsx:68-69 | a new synth has no context yet |
| Drums.DrumSynth.Init | App.tsx:71-79 | the context is created only when absent, the same one is returned afterwards, and a suspended one is resumed |
| Drums.DrumSynth.PlaySample | App.tsx:81-87 | the given buffer is played through a ready context |
| Drums.DrumSynth.Play | App.tsx:89-90 | a custom buffer is delegated to `playSample` and nothing is synthesised; otherwise the voice is synthesised |
| Drums.DrumSynth.PlayIf | App.tsx:330 | one `if (cell) playX(custom)`: one sound and a ready context when the cell is set; no sound and the context untouched otherwise |
| Drums.DrumSynth.PlayStep | App.tsx:330-333 | the four `if`s of the trigger effect start exactly `Triggered` of the grid, the samples and the step, through a ready context whenever any sound starts |
| Studio.IsLocked | App.tsx:431-434 | locked iff there is no user or the user does not own the feature |
| Studio.GatedFeaturesAreSold | App.tsx:628 | every feature id the page checks (`feature_tone`, `feature_keywords`, `feature_rhyme`, `feature_ai_advanced`) is a store item id |
| Studio.PurchaseUnlocks | context/AuthContext.tsx:263-272 | a completed or already-owned purchase leaves the feature unlocked; a refusal means it was locked or unaffordable |
| Studio.BeatCheck | App.tsx:293-300 | a beat passes iff it is at most 4 MiB and its type starts with `audio/`; size is checked first |
| Studio.GenerateGate | App.tsx:370-381 | the first failing check, in order: blank topic, no user, fewer than 10 credits; generation proceeds iff all pass |
| Studio.GateDebitIsExact | App.tsx:378-409 | past the gate the 10-credit debit is exact; the clamp at zero never applies |
| Studio.Resolve | App.tsx:385-397 | each enabled group carries the user's choice and each disabled group its fixed default |
| Studio.DisabledGroupsIgnored | App.tsx:385-397 | the request depends only on enabled groups; all groups off gives the fixed defaults, all on gives the choice |
| Studio.ProgressStep | App.tsx:236-239 | the progress updater never decreases, freezes at 95 or more, and grows below 95 |
| Studio.ProgressStaysBelowCap | App.tsx:232-239 | from 0, progress stays a multiple of 0.5 and never exceeds 95 |
| Studio.NextLoadingStep | App.tsx:242-244 | the loading message index stays below 7 and wraps |
| Studio.RulesWithout | App.tsx:288-290 | the rules left are exactly those with another id, every copy of each, in their order |
| Studio.StudioPage.constructor | App.tsx:177-219 | the initial grid, no samples, step 0, stopped with no timer, 90 BPM, no rules, beat, error or result, not loading, not processing audio, and both modals closed |
| Studio.StudioPage.Reschedule | App.tsx:337-347 | after the effect a timer at the BPM's interval exists iff playing; every other page field is unchanged |
| Studio.StudioPage.SetPlaying | App.tsx:337-347 | stop clears the timer and keeps the step; start sets exactly one timer; only `playing` and the timer change |
| Studio.StudioPage.SetBpm | App.tsx:337-347 | the new tempo is set and, while playing, rescheduled at its interval; only the tempo and the timer change |
| Studio.StudioPage.Tick | App.tsx:340-342 | a live interval advances the playhead with `NextStep`; nothing else on the page changes |
| Studio.StudioPage.TriggerEffect | App.tsx:328-335 | the sounds started are `Triggered` of grid, samples and step; nothing plays while stopped; whenever a sound starts the audio context exists and is not suspended |
| Studio.StudioPage.UploadSample | App.tsx:256-266 | the audio context is readied first (created once, not suspended afterwards); a decoded buffer replaces only that voice's entry; a decode failure keeps the samples and sets the format error; no other page field changes |
| Studio.StudioPage.ClearSample | App.tsx:268-270 | only that voice's entry becomes empty; no other page field changes |
| Studio.StudioPage.AddStructureRule | App.tsx:272-286 | start after end is refused with an error and the rules unchanged; otherwise exactly the new rule is appended and the error cleared; nothing else changes |
| Studio.StudioPage.RemoveStructureRule | App.tsx:288-290 | the rules become `RulesWithout` the id; nothing else changes |
| Studio.StudioPage.HandleBeatUpload | App.tsx:292-326 | a failed check only sets its error; a decoded beat is kept and sets 90 BPM, rescheduling a running sequencer; a processing failure reports and keeps the old beat and tempo; the grid, samples, rules, loading state and modals never change |
| Studio.StudioPage.SetLoading | App.tsx:227-254 | toggling loading resets the bar and the message index to 0; nothing else changes |
| Studio.StudioPage.ProgressTick | App.tsx:235-240 | while loading the bar takes one `ProgressStep`, never decreasing and never above 95; nothing else changes |
| Studio.StudioPage.LoadingStepTick | App.tsx:242-244 | while loading the message index takes one `NextLoadingStep`; nothing else changes |
| Studio.StudioPage.HandleGenerate | App.tsx:369-428 | the gate decides; a blank topic only sets the error, no user only opens the sign-in modal, too few credits only opens the credit modal, and the auth provider is untouched; past the gate the request uses the resolved settings built from the page's own tempo, drum grid, uploaded beat and structure rules, and an answer applies `CreditsEffect` of a 10-credit debit |
| Studio.StudioPage.Refuse | App.tsx:370-381 | a blank topic sets the error, no user opens the sign-in modal, too few credits opens the credit modal; nothing else changes |
| Studio.StudioPage.RunGeneration | App.tsx:382-428 | an answer becomes the result, is saved for the user and debits 10 with `updateCredits`'s whole effect (`CreditsEffect`: stored locally when unconfigured, written for a synced user, reverted if that write fails); a failure shows its message or the generic one and leaves the provider untouched; loading ends; the pattern, transport, inputs and modals never change |
| Prompt.SanitizeBaseUrl | services/gemini.ts:76-84 | the default endpoint for a missing or empty URL; otherwise the trimmed URL put through `DropEndpoint`, a prefix of it |
| Prompt.DropEndpoint | services/gemini.ts:78-82 | trailing slashes removed; then one `/chat/completions` is removed exactly when the result ends with it |
| Prompt.WhitespaceBaseUrlIsEmpty | services/gemini.ts:77-83 | a non-empty all-white-space URL sanitises to "" and the request goes to the bare `/chat/completions` |
| Prompt.SanitizeRecoversBase | services/gemini.ts:76-84 | a clean base URL is recovered after trailing slashes or a full `/chat/completions` endpoint is appended |
| Prompt.TrimmedWithSlashes | services/gemini.ts:77 | a base with no surrounding white space stays intact under trimming when slashes are appended |
| Prompt.EndpointUrl | services/gemini.ts:183 | the request URL is the base followed directly by `/chat/completions`, nothing in between |
| Prompt.ModelName | services/gemini.ts:181 | the configured model name, or `gpt-3.5-turbo` when missing or empty |
| Prompt.ActiveSteps | services/gemini.ts:112 | the 1-based indices of set cells, strictly ascending |
| Prompt.StepList | services/gemini.ts:112 | the positions joined by ", ": empty iff no cell is set, otherwise starting with the first position and holding one comma per further position |
| Prompt.StepListRoundTrip | services/gemini.ts:112 | the step list split at ',' has one piece per set cell, and `parseInt` of piece k reads the k-th position |
| Prompt.RhythmDescription | services/gemini.ts:110-121 | the custom rhythm only with a drum pattern and no beat audio; otherwise `Standard 4/4 Beat` |
| Prompt.RhythmIgnoresPerc | services/gemini.ts:113-120 | the rhythm text depends on kick, snare and hihat only |
| Prompt.StructureMap | services/gemini.ts:125-132 | empty iff there are no rules |
| Prompt.BuildStructureMap | services/gemini.ts:125-132 | the `+=` loop produces `StructureMap`: header, one line per rule numbered from 1, footer |
| Prompt.RhymeInstruction | services/gemini.ts:123-146 | the Double or Linear constraint is appended only when there are no structure rules |
| Prompt.ConstraintExcludesStructureMap | services/gemini.ts:126-146 | a constraint is added iff the structure map is empty and the scheme is Double or Linear |
| Prompt.ToStr | services/gemini.ts:211 | `String(v)`: a string is itself; a number or object gives non-empty text |
| Prompt.Normalise | services/gemini.ts:210-216 | the title defaults to "بدون عنوان"; content and analysis are strings; the variant is fixed; suggestedBpm is the target |
| Prompt.NormaliseIdempotent | services/gemini.ts:249-255 | normalising a normalised result changes nothing |
| Prompt.Backoff | services/gemini.ts:46-48 | the first wait is the initial delay and each later wait doubles the one before, as `retry(fn, retries - 1, delay * 2)` does |
| Prompt.BackoffStep | services/gemini.ts:48 | the recursive call's doubled schedule continues the caller's |
| Prompt.Retry | services/gemini.ts:42-52 | at most retries + 1 attempts with doubling waits; the last attempt's result is returned; every earlier attempt failed; an error means all were used |
| Prompt.DefaultRetrySchedule | services/gemini.ts:42 | by default at most 4 attempts, waiting 2000, 4000, 8000 ms |
| Storage.MapRow | services/cloudStorage.ts:40-49 | id, owner, title, content, style and analysis carried over; `last_modified` if truthy else the creation time; comments default to [] |
| Storage.GetProjects | services/cloudStorage.ts:34-49 | a query error gives []; otherwise one mapped record per row in order |
| Storage.SavePayload | services/cloudStorage.ts:52-69 | `id` is sent iff the project's id is non-empty, in both branches; the stamp is the save time |
| Storage.SaveThenLoad | services/cloudStorage.ts:40-69 | a saved project with an id reads back as itself with the new time stamp |
| Storage.SaveProject | services/cloudStorage.ts:71-81 | false with nothing logged on an upsert error; true only after logging the save |
| Storage.RowsAfterDelete | services/cloudStorage.ts:84-89 | exactly the rows matching both id and owner are removed; every copy of every other row stays, in order |
| Storage.DeleteKeepsOtherUsers | services/cloudStorage.ts:88-89 | another user's row survives any delete |
| Storage.DeleteProject | services/cloudStorage.ts:84-96 | success iff no error; the rows change only on success |
| Storage.AddComment | services/cloudStorage.ts:125-149 | null and no write after a failed fetch; otherwise exactly one comment appended after the existing ones, returned unless the update fails |
| Storage.ServiceRegistry.GetInstance | services/cloudStorage.ts:18-23 | created on first call only, the same instance afterwards |
| Storage.GetInstanceTwice | services/cloudStorage.ts:18-23 | two calls return the same instance |
| Auth.NewBalance | context/AuthContext.tsx:221 | `Math.max(0, credits + amount)`: never negative, the sum or 0 |
| Auth.Decide | context/AuthContext.tsx:264-272 | refused iff no user or credits < cost; already owned iff affordable and owned; a charge lowers credits by exactly cost and appends the id once |
| Auth.ChargeThenOwned | context/AuthContext.tsx:263-272 | after a charge the balance is non-negative, the id appears once, and buying again is free when affordable but refused otherwise |
| Auth.DemoLoginUser | context/AuthContext.tsx:132-145 | a stored user with that email is reused; otherwise a `demo-` user with 250 credits, no plugins, and the email's local part as name |
| Auth.DemoSignupUser | context/AuthContext.tsx:167-174 | a `demo-` user with 100 credits and no plugins |
| Auth.DemoNeverSyncs | context/AuthContext.tsx:228 | demo accounts never cause a server write |
| Auth.AuthStore.constructor | context/AuthContext.tsx:22 | no user is signed in at start; nothing written or logged |
| Auth.AuthStore.UpdateCredits | context/AuthContext.tsx:219-244 | `CreditsEffect`: no-op without a user; otherwise only credits change, clamped at 0, stored locally when unconfigured, written for a synced user, restored if that write fails, and an increase logged |
| Auth.AuthStore.UpdateProfile | context/AuthContext.tsx:246-261 | no-op without a user; only name and avatar change, even if the server write fails |
| Auth.AuthStore.BuyPlugin | context/AuthContext.tsx:263-291 | `BuyEffect`: refused or owned purchases change nothing; a charge is applied, stored locally when unconfigured, written and logged for a synced user, and reverted with false on a failed synced write |
| Auth.AuthStore.Logout | context/AuthContext.tsx:211-217 | no user and nothing stored afterwards |
| Auth.AuthStore.Login | context/AuthContext.tsx:128-161 | demo mode signs in `DemoLoginUser` and stores it; configured, an error is rethrown and success logs a login |
| Auth.AuthStore.Signup | context/AuthContext.tsx:163-209 | demo mode signs in `DemoSignupUser`; configured, errors and the unconfirmed account fail, a session signs in |
| Dashboard.FilteredProjects | components/Dashboard.tsx:160-166 | kept iff the lowered query occurs in the lowered title or content and the style filter is `all` or matches; every copy of a kept project stays; order kept |
| Dashboard.ClearedFiltersShowAll | components/Dashboard.tsx:160-166 | an empty query with `all` shows every project |
| Dashboard.UserRank | components/Dashboard.tsx:169-175 | Rap God above 50, Superstar above 20, Underground above 5, else Rookie |
| Dashboard.RankMonotone | components/Dashboard.tsx:169-175 | more projects never lower the rank |
| Dashboard.FirstSeen | components/Dashboard.tsx:180-181 | the object's keys are exactly the styles that occur, each once |
| Dashboard.CountStyles | components/Dashboard.tsx:179-180 | the loop's counts are the true occurrence counts, keyed in first-seen order |
| Dashboard.TopKey | components/Dashboard.tsx:181 | the reduce returns a key of maximal count that no later key equals |
| Dashboard.FavoriteStyle | components/Dashboard.tsx:177-183 | (`---`, 0) without projects; otherwise a style of maximal true count, the later key winning ties |
| Dashboard.ActivityLogs | components/Dashboard.tsx:185-192 | one entry for each of the first five projects at most, in order |
| Dashboard.ProgressWidth | components/Dashboard.tsx:284 | `Math.min(100, count)` |
| Dashboard.Insert | components/Dashboard.tsx:149 | inserting keeps most-recent-first order and the same projects |
| Dashboard.SortByRecent | components/Dashboard.tsx:149 | a permutation of the projects in non-increasing `lastModified` |
| Dashboard.TestConnectionBaseUrl | components/Dashboard.tsx:86-91 | the default for a missing or all-white-space URL; otherwise the trimmed URL without trailing slashes and one `/chat/completions` |
| Dashboard.DefaultIsClean | components/Dashboard.tsx:86-91 | the default base URL is left unchanged by endpoint stripping |
| Dashboard.TestUrlAgreesWithGenerator | components/Dashboard.tsx:86-91 | the test and the generator agree except on a non-empty all-white-space URL |
| Store.CatalogueWellFormed | components/PluginStore.tsx:19-28 | 8 items, distinct ids, positive costs |
| Store.IsOwned | components/PluginStore.tsx:78 | `ownedPlugins.includes(id)`: owned iff the id is at some position of the user's plugin list |
| Store.CardFor | components/PluginStore.tsx:78-123 | an owned item shows as activated with no buy action; otherwise processing while being bought, else a buy button at its cost, marked affordable iff credits ≥ cost |
| Store.StorePanel.HandleBuy | components/PluginStore.tsx:38-53 | a shortfall reports the positive missing amount and does not call `buyPlugin`; otherwise `buyPlugin` runs with its whole effect (`BuyEffect`), an error is set iff it fails, and `buyingId` ends null |
| Store.StorePanel.ErrorTimeout | components/PluginStore.tsx:41 | the timer clears the error |
| AuthForm.CorrectAnswerAccepted | components/AuthModal.tsx:48 | typing the sum in decimal passes the check |
| AuthForm.FailureMessage | components/AuthModal.tsx:62 | the error's message, or the generic one when empty |
| AuthForm.SubmitOutcome | components/AuthModal.tsx:55-56 | the reply `login` or `signup` gives: demo mode succeeds; a login carries the server's verdict; a signup succeeds iff an account signed in or none was returned |
| AuthForm.AuthModal.GenerateChallenge | components/AuthModal.tsx:25-30 | both numbers in [1, 10], the answer their sum, the input cleared |
| AuthForm.AuthModal.Open | components/AuthModal.tsx:32-41 | a new challenge and cleared email, password, name, error and input |
| AuthForm.AuthModal.HandleSubmit | components/AuthModal.tsx:45-65 | a wrong or unreadable answer sets the error, draws a new challenge and calls nobody; otherwise `SubmitEffect`: login's effect in login mode and signup's otherwise, closing only on success, loading false at the end |
| AuthForm.AuthModal.Submit | components/AuthModal.tsx:53-63 | the error is cleared; `SubmitEffect`: in login mode the demo login user is signed in and stored (configured: the user kept and a successful login logged), otherwise the demo signup user (configured: the signed-in profile); the modal closes iff the reply succeeds, otherwise shows its message or the generic one; loading ends false; no profile write |

## Left out

- The Web Audio synthesis itself is not modelled: oscillators, noise buffers, filters and gain ramps. A sound is `Synthesised(voice)`.
- Real timer scheduling, React effect ordering and async interleaving are not modelled. Ticks, effects and timeouts are discrete method calls. `setTimeout` UX delays are dropped.
- Network, SDK and database calls are replaced by their replies. This covers the Gemini and OpenAI-compatible requests and the auth listener.
- `extractJSON`, `generateRapAudio` and `generateRapCoverArt` are left out.
- `getActivityLogs` and the simulated collaborators are left out.
- `loginWithGoogle`, `initializeAuth` and `fetchProfile` are left out. A signed-in profile arrives as `SignedIn(profile)`.
- The configured signup's profile `upsert` is left out, since its outcome is only logged.
- The assembly of the full text prompt around the modelled pieces is left out.
- Telemetry is left out.
- The local-storage JSON encoding is left out. `stored` holds the account directly.
- The fix-up that adds a missing `ownedPlugins` to a stored demo user is left out.
- FileReader, base64 and `decodeAudioData` are left out. Their results are parameters (`decoded`, `decodes`, `data`).
- Random ids, `Date.now`, `toLocaleDateString` and `toLowerCase` are left out. Lower-casing is an abstract function parameter.
- Dashboard's loading path is left out. It calls `.sort` on a promise and `deleteProject` with one argument. The sort is modelled on a given list.
- All JSX, themes and `services/supabase.ts` are left out. `isSupabaseConfigured` is a parameter.
- Grid cell toggling is not modelled, because that handler is not part of the modelled source.
- Enum string values from `types.ts` are not modelled. `types.ts` is not part of this model, so rhyme schemes are printed by their member names, and a complexity other than the default is carried as an opaque name.
- Prompt.ToStr: `String(x)` is modelled for plain objects ("[object Object]") and integers only. `JsValue` has no array variant, so a JSON array is not modelled: `[]` is truthy yet `String([])` is "", and a non-empty array prints its elements joined by commas.
- Prompt.Normalise: the source keeps a truthy `title` as it is (`result.title || "بدون عنوان"`), so a non-string title such as a number stays a number. The model's lyric title is a string, and such a title is converted with `ToStr`.
- Prompt.Normalise: `JsNumber` holds integers only. Floating-point text forms are not modelled.
- Storage.CommentDraft: a comment's own fields are carried as an opaque map and not interpreted.
- Dashboard.FirstSeen: JavaScript's rule that integer-like keys are listed first is not modelled. Style names are not integer-like.
- Dashboard.SortByRecent: stability of `Array.prototype.sort` is not stated. Only order and permutation are proved.
- Studio.StudioPage.SetBpm: requires a positive BPM. The BPM control is not part of the modelled source, and `60 / bpm` has no meaning for 0.
- Studio.StudioPage.HandleGenerate: the rhyme, flow and advanced selections other than the tempo are a `form` parameter, because the page's state for them is not modelled as fields. The tempo, grid, beat and rules are the page's own.
- Studio.StudioPage.HandleGenerate: the outcome of the automatic save is computed and ignored, as in the source. Only the project passed to `saveProject` is stated.
- Studio.Settings: `creativity` and `topP` are exact reals, not IEEE doubles.
- StepIntervalMs: `(60 / targetBpm / 4) * 1000` is computed in exact reals, not IEEE doubles, so rounding of the interval for tempos that do not divide 15000 is not modelled.
- Auth.AuthStore.BuyPlugin: the source checks credits before ownership. An owned plugin is therefore refused (false) when credits are below its cost. The model keeps this order, and `Auth.ChargeThenOwned` states it, rather than the unconditional "already owned returns true".
- Prompt.SanitizeBaseUrl: for a non-empty all-white-space URL the source yields "". The connection test in `components/Dashboard.tsx` falls back to the default instead. Both behaviours are modelled as written, and `Dashboard.TestUrlAgreesWithGenerator` pins down exactly where they differ.
