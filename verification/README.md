# JobMatcher.ai interaction logic, modelled in Dafny

JobMatcher.ai is a landing site: a React front end and a small Flask back end
with a waitlist endpoint. Most of it is presentation. This project models the
parts that carry state or decisions, and proves what they promise:

- **Card-strip scanner** (`scanner_code.dfy`, `scanner_motion.dfy`,
  `scanner_beam.dfy`, `scanner_particles.dfy`):
  - the placeholder "encoded" text of each card (`generateCode`);
  - the strip's motion: friction decay towards a cruising speed, the
    wrap-around, and dragging;
  - the 4-pixel beam: the overlap test, the two clip percentages, the
    `scanned` flag and the ten-tick scramble;
  - the scanner-particle pool whose size eases towards a target;
  - the ambient particles' drift and opacity flicker.
- **Signup wizard** (`signup_wizard.dfy`): four steps with guarded next, back
  and jump transitions, the form's fields, the industry toggle, per-step
  validity, the forward button and the progress bar.
- **Waitlist endpoint** (`waitlist_api.dfy`): the guard chain of
  `POST /api/waitlist` that maps a JSON body to a 400/500 answer or to a
  sanitised entry, and maps the save's result to 201 or 500.
- **Save button** (`save_button.dfy`): the idle/saving/saved state machine
  with its bounce flag.
- **Apply & Track timeline** (`apply_steps.dfy`): the interval step counter
  and the completed/active/pending classification.
- **Fanned card deck** (`card_deck.dfy`): the reorder that brings a clicked
  card to the middle, done on an array with splices, and the tilt offsets.
- **Match section** (`match_cycle.dfy`): the three-feature cycle, click
  selection and score lookup.
- `text.dfy` holds what several of these share: JavaScript's `trim` and
  Python's `strip` with their own whitespace sets, and an `Option` type.
- `arith.dfy` holds `Math.abs`, `Math.max` and `Math.min` on reals and the
  smaller of two counts.

Timers, animation frames, intervals and awaited promises become event
methods the caller invokes: `Tick`, `Settle`, `ResetTimerFired`,
`SubmitTimerFired`, `ScrambleTick`, `Animate`. `Math.random()` becomes an
input sequence of draws in [0, 1), and the sine sway becomes an input
sequence. The e-mail validator, the database save, Python's `str()` of a
non-string value and the clock become function parameters of the waitlist
handler. Pixel positions, velocities and percentages are `real`.

The strip's wrap-around is applied on every frame, paused and dragging
included (`animate` in scanner-card-stream.tsx wraps unconditionally); it
does not wait for the next frame without a drag.

## Model

| member | source | states |
|---|---|---|
| Text.TrimStart | frontend/src/components/multistep-form.tsx:121 | the result is a suffix of the input that does not start with whitespace |
| Text.TrimEnd | frontend/src/components/multistep-form.tsx:121 | the result is a prefix of the input that does not end with whitespace |
| Text.TrimStartDrops | backend/app.py:48-50 | every leading character `strip`/`trim` removes is whitespace |
| Text.TrimEndDrops | backend/app.py:48-50 | every trailing character removed is whitespace |
| Text.Trim | frontend/src/components/multistep-form.tsx:121-123 | no whitespace at either end of the result; the result is empty exactly when the input is all whitespace, so `x.trim() !== ""` means "not blank" |
| Text.TrimIsSlice | backend/app.py:48-50 | the trimmed string is a slice of the input between a blank prefix and a blank suffix |
| Text.TrimKeeps | frontend/src/components/multistep-form.tsx:121 | a string with no whitespace at either end is left unchanged |
| Waitlist.FirstMissing | backend/app.py:42-45 | every required field before the returned index is truthy, and the field at the index, if any, is falsy |
| Waitlist.MissingField | backend/app.py:42-45 | `first_name` is checked before `email`; the message names the first falsy field; there is none exactly when both are truthy |
| Waitlist.Stripped | backend/app.py:48-50 | a missing key gives the empty string; a string value becomes its Python `strip`, which is empty exactly when the value is blank |
| Waitlist.CheckValues | backend/app.py:52-72 | a name over 100 characters is refused first, then an e-mail over 255; a rejected address answers 400 with the validator's message; an entry exists exactly when both limits hold and the validator accepts, and it holds the stripped name, the normalised e-mail, the stripped phone, the raw reason and the timestamp |
| Waitlist.Validate | backend/app.py:37-72 | an empty body gives 400 "No data provided"; a truthy non-object body gives 500; the required check sees raw values and precedes the stripped checks; an accepted entry had both required fields truthy; every refusal is a 400 or 500 error |
| Waitlist.SubmitWaitlist | backend/app.py:36-84 | the save is called exactly when validation accepts, and with the validated entry; 201 with the inserted id exactly when the save returns a result; a falsy or failing save gives 500; validation refusals are returned unchanged |
| Waitlist.BlankNameIsSaved | backend/app.py:44-48 | a whitespace-only name passes the raw required check and is saved as the empty string |
| ScannerCode.Glyph | frontend/src/components/ui/scanner-card-stream.tsx:12 | the character picked by a draw in [0, 1) is one of `ASCII_CHARS` |
| ScannerCode.Glyphs | frontend/src/components/ui/scanner-card-stream.tsx:11-13 | one character per draw, the `k`-th picked by the `k`-th draw |
| ScannerCode.AreaIsProduct | frontend/src/components/ui/scanner-card-stream.tsx:15-16 | `h` rows of `w` characters make `w * h` characters, so the row slices `[i*w, (i+1)*w)` tile the drawn text |
| ScannerCode.Lines | frontend/src/components/ui/scanner-card-stream.tsx:14-17 | cutting `h` rows of `w` characters and ending each with a newline yields `h * (w + 1)` characters, counted row by row |
| ScannerCode.LinesLength | frontend/src/components/ui/scanner-card-stream.tsx:14-18 | the text is exactly `h * (w + 1)` characters long |
| ScannerCode.LinesOfGlyphs | frontend/src/components/ui/scanner-card-stream.tsx:14-18 | the text is exactly `h` rows, each of `w` characters of the alphabet followed by a newline |
| ScannerCode.Code | frontend/src/components/ui/scanner-card-stream.tsx:9-19 | the code block drawn from the first `w * h` draws is a grid of `h` rows of `w` `ASCII_CHARS` characters, each ended by a newline |
| ScannerCode.DrawGlyphs | frontend/src/components/ui/scanner-card-stream.tsx:10-13 | the first loop draws `n` characters, the `k`-th from the `k`-th draw, all from `ASCII_CHARS` |
| ScannerCode.GenerateCode | frontend/src/components/ui/scanner-card-stream.tsx:9-19 | the result is the `height` rows of `width` drawn characters; it has `height * (width + 1)` characters and is a grid of `ASCII_CHARS` rows each ended by a newline |
| ScannerMotion.Cruise | frontend/src/components/ui/scanner-card-stream.tsx:363 | the cruising velocity has the base speed's magnitude, signed by the direction |
| ScannerMotion.NextVelocity | frontend/src/components/ui/scanner-card-stream.tsx:359-364 | at or below the base speed the strip cruises in the current direction; with a friction of at most 1 the speed never exceeds the larger of the old and the base speed |
| ScannerMotion.FrictionStep | frontend/src/components/ui/scanner-card-stream.tsx:360-361 | above the base speed one frame multiplies the speed by the friction and keeps the velocity's sign |
| ScannerMotion.Coast | frontend/src/components/ui/scanner-card-stream.tsx:359-364 | after `n` free frames: the start velocity when `n` is 0, and the cruising velocity after any frame that starts at or below the base speed |
| ScannerMotion.StepBound | frontend/src/components/ui/scanner-card-stream.tsx:360-364 | one frame above the base speed removes at least `1 - friction` times the base speed from the speed |
| ScannerMotion.CoastBound | frontend/src/components/ui/scanner-card-stream.tsx:359-364 | after `n` free frames the speed is at most the base speed or the starting speed less `n` such decrements |
| ScannerMotion.SettlesToCruise | frontend/src/components/ui/scanner-card-stream.tsx:359-364 | with friction below 1 and a non-zero base speed, a released strip reaches exactly `initialSpeed * direction` after finitely many frames |
| ScannerMotion.Seconds | frontend/src/components/ui/scanner-card-stream.tsx:356 | the elapsed seconds are never negative for a later timestamp, and are the milliseconds difference over 1000 |
| ScannerMotion.Advance | frontend/src/components/ui/scanner-card-stream.tsx:365 | the strip moves in the direction of its velocity, and stays put with no time or no velocity |
| ScannerMotion.Wrap | frontend/src/components/ui/scanner-card-stream.tsx:369-374 | below `-cardLineWidth` the strip jumps to the container width, beyond the width to `-cardLineWidth`, otherwise it stays; for non-negative widths the result lies in `[-cardLineWidth, width]` |
| ScannerMotion.DragTelescopes | frontend/src/components/ui/scanner-card-stream.tsx:338-345 | a drag moves the strip by exactly the pointer's distance from where the drag started to its last position |
| ScannerMotion.Dragged | frontend/src/components/ui/scanner-card-stream.tsx:338-345 | a single pointer move shifts the strip by the pointer's step (DragTelescopes: any run of moves by the total) |
| ScannerMotion.CardStream.constructor | frontend/src/components/ui/scanner-card-stream.tsx:114-118 | the strip starts at position 0 with the initial speed, not dragging, with `cardLineWidth = (350 + gap) * cards` |
| ScannerMotion.CardStream.ChangeDirection | frontend/src/components/ui/scanner-card-stream.tsx:123 | the direction is negated and nothing else changes |
| ScannerMotion.CardStream.ToggleAnimation | frontend/src/components/ui/scanner-card-stream.tsx:122 | the pause flag flips and nothing else changes |
| ScannerMotion.CardStream.MouseDown | frontend/src/components/ui/scanner-card-stream.tsx:333-337 | a drag starts and remembers the pointer's x |
| ScannerMotion.CardStream.MouseMove | frontend/src/components/ui/scanner-card-stream.tsx:338-345 | outside a drag nothing changes; during one the strip moves by the pointer's step, the velocity becomes 50 times the step and the pointer's x is remembered |
| ScannerMotion.CardStream.MouseUp | frontend/src/components/ui/scanner-card-stream.tsx:346 | the drag ends; position and velocity are kept |
| ScannerMotion.CardStream.Animate | frontend/src/components/ui/scanner-card-stream.tsx:355-374 | unpaused and not dragged: one `NextVelocity` step, then the position advances by velocity times the elapsed seconds; paused or dragged: the velocity is kept; the wrap applies in both cases, so the position ends in `[-cardLineWidth, width]` |
| ScannerMotion.CardStream.Glide | frontend/src/components/ui/scanner-card-stream.tsx:359-365 | the new velocity is `NextVelocity` of the old one and the position advances by it |
| ScannerMotion.CardStream.WrapAround | frontend/src/components/ui/scanner-card-stream.tsx:369-374 | the position becomes `Wrap` of the old position; nothing else changes |
| ScannerBeam.BeamOf | frontend/src/components/ui/scanner-card-stream.tsx:225-228 | the beam is 4 pixels wide and centred 60 pixels left of the container's middle |
| ScannerBeam.CardLeft | frontend/src/components/ui/scanner-card-stream.tsx:234-256 | card 0 starts at the strip's offset |
| ScannerBeam.CardsSpaced | frontend/src/components/ui/scanner-card-stream.tsx:234-256 | a later card lies at least one card width plus the gap to the right of an earlier one |
| ScannerBeam.OverlapsIsIntersection | frontend/src/components/ui/scanner-card-stream.tsx:263 | the overlap test holds exactly when some point lies strictly inside both the card and the beam |
| ScannerBeam.OneUnderBeam | frontend/src/components/ui/scanner-card-stream.tsx:234-263 | with a gap at least the beam's 4 pixels, two different cards are never under the beam at once |
| ScannerBeam.OverlapClip | frontend/src/components/ui/scanner-card-stream.tsx:273-295 | for a card under the beam, `0 <= clip-right <= clip-left <= 100`, strictly ordered for a beam of positive width; clip-right is 0 once the card's left edge is past the beam's left edge, and clip-left is 100 once its right edge is inside the beam |
| ScannerBeam.ClipAsWritten | frontend/src/components/ui/scanner-card-stream.tsx:263-324 | the clip exactly as the frame computes it: the overlap clip under the beam, 100%/100% only when the right edge is strictly left of the beam, 0%/0% otherwise |
| ScannerBeam.ClipFor | frontend/src/components/ui/scanner-card-stream.tsx:263-324 | the corrected clip: the overlap clip under the beam, 100%/100% once the card has fully passed the beam, 0%/0% before it arrives, always `0 <= right <= left <= 100` |
| ScannerBeam.ClipMonotone | frontend/src/components/ui/scanner-card-stream.tsx:263-324 | the further left a card is, the larger both of its corrected clip percentages |
| ScannerBeam.ClipAsWrittenSkips | frontend/src/components/ui/scanner-card-stream.tsx:316-324 | a card whose right edge touches the beam's left edge is shown unencoded by the code as written, while cards half a pixel either side are (almost) fully encoded |
| ScannerBeam.FrameCard | frontend/src/components/ui/scanner-card-stream.tsx:263-324 | `scanned` follows the overlap; a scramble starts only when the card comes under the beam unscanned, with the scramble effect, and none running; otherwise the scramble state and text are untouched |
| ScannerBeam.TickCard | frontend/src/components/ui/scanner-card-stream.tsx:213-220 | a tick shows fresh noise and counts up; the tenth ends the scramble and restores the original text |
| ScannerBeam.Scrambled | frontend/src/components/ui/scanner-card-stream.tsx:213-220 | after fewer than ten ticks the card shows the latest noise; after the tenth it shows the original and no scramble runs |
| ScannerBeam.ScrambleLastsTenTicks | frontend/src/components/ui/scanner-card-stream.tsx:207-222 | a scramble started by a frame runs through ticks 1 to 9 and stops after exactly ten, with the original text back |
| ScannerBeam.FrameKeepsScramble | frontend/src/components/ui/scanner-card-stream.tsx:208 | a frame neither restarts nor ends a running scramble |
| ScannerBeam.OneScramblePerPass | frontend/src/components/ui/scanner-card-stream.tsx:263-311 | while a card stays under the beam, its frames start at most one scramble, and none if it was already scanned |
| ScannerBeam.AnyOverlap | frontend/src/components/ui/scanner-card-stream.tsx:236-264 | true exactly when some card among the first `n` is under the beam |
| ScannerBeam.ScanBoard.constructor | frontend/src/components/ui/scanner-card-stream.tsx:103-138 | for a measured container (width above 0, as the effect waits for at line 138) every card starts unscanned, not scrambling, showing its own encoded text |
| ScannerBeam.ScanBoard.UpdateCardEffects | frontend/src/components/ui/scanner-card-stream.tsx:224-331 | every card gets its `FrameCard` update in one pass, and `isScanning` becomes whether any card is under the beam |
| ScannerBeam.ScanBoard.ScrambleTick | frontend/src/components/ui/scanner-card-stream.tsx:213-221 | only card `i` changes, by `TickCard` with the noise `generateCode` draws; every card keeps a scramble count below ten |
| ScannerParticles.CreateScannerParticle | frontend/src/components/ui/scanner-card-stream.tsx:201-204 | each attribute of a new particle lies in its drawn range, e.g. x within 1.5 pixels of the beam centre, life 1 |
| ScannerParticles.Eased | frontend/src/components/ui/scanner-card-stream.tsx:392 | the bound moves towards its target, never past it, and the remaining distance shrinks to 95% |
| ScannerParticles.Scaled | frontend/src/components/ui/scanner-card-stream.tsx:197-199 | `Math.floor` of the width times the factor |
| ScannerParticles.ParticlePool.constructor | frontend/src/components/ui/scanner-card-stream.tsx:196-205 | the pool starts with `floor(width * 0.8)` particles made from successive draws, bound at the base target |
| ScannerParticles.ParticlePool.Resize | frontend/src/components/ui/scanner-card-stream.tsx:391-394 | the bound eases towards the target; the pool ends with `floor(bound)` particles; the old ones keep their order, new ones come from successive draws |
| ScannerParticles.GrowPool | frontend/src/components/ui/scanner-card-stream.tsx:393 | pushing stops at the first length not below the bound; old particles stay in front |
| ScannerParticles.ShrinkPool | frontend/src/components/ui/scanner-card-stream.tsx:394 | popping leaves a prefix no longer than the bound, and a pool already within the bound whole |
| ScannerParticles.ClampAlpha | frontend/src/components/ui/scanner-card-stream.tsx:384 | the result lies in `[0.1, 1]` and equals the input when the input does |
| ScannerParticles.Flicker | frontend/src/components/ui/scanner-card-stream.tsx:384 | an opacity stays in `[0.1, 1]` and, from inside that range, moves by at most 0.025 |
| ScannerParticles.DriftX | frontend/src/components/ui/scanner-card-stream.tsx:381-382 | a particle drifts 16 ms worth of speed, and restarts 100 pixels left of the view exactly when that drift takes it beyond 100 pixels right of it; it never stays beyond that margin |
| ScannerParticles.InitAmbient | frontend/src/components/ui/scanner-card-stream.tsx:176-181 | positions, speeds (`60 r + 30`) and opacities (`(8 r + 2) / 10`) come from their own draws, so speeds lie in `[30, 90)` and opacities in `[0.2, 1)`; depths are untouched |
| ScannerParticles.DriftAmbient | frontend/src/components/ui/scanner-card-stream.tsx:380-385 | every particle drifts by `DriftX`, sways by its input and flickers; depths are untouched and every opacity ends in `[0.1, 1]` |
| SignupWizard.UpdateFormData | frontend/src/components/multistep-form.tsx:79-81 | the named field takes the value and every other field, industries included, is unchanged |
| SignupWizard.RemoveAll | frontend/src/components/multistep-form.tsx:87 | the filtered list no longer contains the industry and is no longer than before |
| SignupWizard.RemoveAllCounts | frontend/src/components/multistep-form.tsx:87 | the filter drops exactly the copies of the industry and keeps every other item as often as before |
| SignupWizard.RemoveAllAbsent | frontend/src/components/multistep-form.tsx:87 | filtering out an absent industry leaves the list unchanged |
| SignupWizard.RemoveAllAppend | frontend/src/components/multistep-form.tsx:87 | filtering distributes over concatenation, so the kept items keep their order |
| SignupWizard.ToggleIndustry | frontend/src/components/multistep-form.tsx:83-92 | the industry is present afterwards exactly when it was absent before, and other industries' membership is unchanged; an absent one is appended at the end; a present one loses every copy while the rest keep their counts |
| SignupWizard.ToggleTwiceRestores | frontend/src/components/multistep-form.tsx:83-92 | ticking an unticked industry and unticking it again restores the list |
| SignupWizard.ToggleTwiceMoves | frontend/src/components/multistep-form.tsx:83-92 | unticking and re-ticking a ticked industry moves it to the end |
| SignupWizard.IsStepValid | frontend/src/components/multistep-form.tsx:118-129 | step 0 needs a non-blank name and e-mail, step 1 a non-blank role and a chosen experience, step 2 a job type; later steps are always valid |
| SignupWizard.OptionalFieldsIgnored | frontend/src/components/multistep-form.tsx:118-129 | LinkedIn, location, additional information and the industries never affect validity |
| SignupWizard.ProgressPercent | frontend/src/components/multistep-form.tsx:185 | the bar's width lies in `[0, 100]`; it is 0 exactly on the first step and 100 exactly on the last |
| SignupWizard.ProgressIncreases | frontend/src/components/multistep-form.tsx:185 | a later step has a strictly wider bar |
| SignupWizard.Wizard.ForwardGuards | frontend/src/components/multistep-form.tsx:499 | the forward button is disabled whenever a submission is in flight; on the last step it is enabled exactly when none is; on the earlier steps only once that step's required fields are filled in |
| SignupWizard.Wizard.constructor | frontend/src/components/multistep-form.tsx:65-77 | the wizard opens on step 0 with an empty form, not submitting |
| SignupWizard.Wizard.NextStep | frontend/src/components/multistep-form.tsx:94-98 | one step forward unless on the last; validity is not checked; the step stays in `[0, 3]` |
| SignupWizard.Wizard.PrevStep | frontend/src/components/multistep-form.tsx:100-104 | one step back unless on the first; the step stays in `[0, 3]` |
| SignupWizard.Wizard.JumpTo | frontend/src/components/multistep-form.tsx:160-165 | a dot click moves to its step only when that step is at or before the current one; otherwise nothing changes |
| SignupWizard.Wizard.Update | frontend/src/components/multistep-form.tsx:79-81 | the form becomes `UpdateFormData` of the old form; the step and submission flag are unchanged |
| SignupWizard.Wizard.ToggleIndustryClick | frontend/src/components/multistep-form.tsx:83-92 | the industries become `ToggleIndustry` of the old list; nothing else changes |
| SignupWizard.Wizard.HandleSubmit | frontend/src/components/multistep-form.tsx:106-107 | a submission starts; step and form are unchanged |
| SignupWizard.Wizard.SubmitTimerFired | frontend/src/components/multistep-form.tsx:110-114 | the submission ends and the wizard is closed |
| SignupWizard.Wizard.ForwardClick | frontend/src/components/multistep-form.tsx:494-499 | a disabled button does nothing; an enabled one submits on the last step and advances on the others |
| SaveButtonMachine.SettledStatus | frontend/src/components/ui/save-button.tsx:38-64 | a settled save never leaves the button saving; it is saved exactly when the handler's result was not `false` or there was no handler, and idle on `false` or an error |
| SaveButtonMachine.LabelShowsStatus | frontend/src/components/ui/save-button.tsx:169 | with three distinct captions the caption identifies the status |
| SaveButtonMachine.HoverScale | frontend/src/components/ui/save-button.tsx:112 | the button grows on hover only when idle |
| SaveButtonMachine.TapScale | frontend/src/components/ui/save-button.tsx:113 | the button shrinks when pressed only when idle |
| SaveButtonMachine.SaveButton.constructor | frontend/src/components/ui/save-button.tsx:30-31 | the button starts idle without bounce |
| SaveButtonMachine.SaveButton.Click | frontend/src/components/ui/save-button.tsx:35-37 | only an idle button reacts, and it becomes saving; bounce and confetti are untouched |
| SaveButtonMachine.SaveButton.Settle | frontend/src/components/ui/save-button.tsx:38-64 | the status becomes `SettledStatus`; bounce is on exactly after a success; confetti fires once exactly on a success; bounce holds exactly while saved |
| SaveButtonMachine.SaveButton.ResetTimerFired | frontend/src/components/ui/save-button.tsx:57-60 | the timer after a success returns the button to idle with bounce off |
| ApplySteps.Next | frontend/src/components/ui/apply-section.tsx:98-100 | the counter stays in `[0, n]`, climbs by one below `n` and wraps to 0 from `n` |
| ApplySteps.Ticks | frontend/src/components/ui/apply-section.tsx:98-100 | any number of ticks keeps the counter in `[0, n]` |
| ApplySteps.TicksCompose | frontend/src/components/ui/apply-section.tsx:98-100 | `a` ticks followed by `b` ticks are `a + b` ticks |
| ApplySteps.TicksClimb | frontend/src/components/ui/apply-section.tsx:98-100 | before reaching `n` the counter climbs one step per tick |
| ApplySteps.FullCycle | frontend/src/components/ui/apply-section.tsx:98-100 | `n + 1` ticks bring the counter back to where it was |
| ApplySteps.StatusOf | frontend/src/components/ui/apply-section.tsx:176-178 | a step is pending exactly when the counter has not reached it and completed exactly when the counter has passed it |
| ApplySteps.StatusLayout | frontend/src/components/ui/apply-section.tsx:176-178 | completed steps form a prefix and pending steps a suffix; at most one step is active; all are completed when the counter is `n`; the counter's step is active below `n` |
| ApplySteps.ConnectorsFillFromTop | frontend/src/components/ui/apply-section.tsx:175-197 | every step but the last has a connector; the full connectors form an unbroken run from the top; a full connector always leads to a completed or active step |
| ApplySteps.FilledCount | frontend/src/components/ui/apply-section.tsx:175-197 | among the first `k` steps, `min(k, current, n - 1)` connectors are full: the filled line is as long as the run of completed steps, less the last step's missing connector |
| ApplySteps.FilledEnds | frontend/src/components/ui/apply-section.tsx:175-197 | all `n - 1` connectors are full when every step is completed, none when none is |
| ApplySteps.TextOpacity | frontend/src/components/ui/apply-section.tsx:206-209 | a step's text is dimmed to 40% exactly when it is pending (after the counter) |
| ApplySteps.StepCycle.constructor | frontend/src/components/ui/apply-section.tsx:95 | the counter starts at 0 |
| ApplySteps.StepCycle.Tick | frontend/src/components/ui/apply-section.tsx:97-100 | the counter becomes `Next` of the old counter and stays in `[0, n]` |
| MatchCycle.Next | frontend/src/components/ui/match-section.tsx:47-49 | the active feature moves to the next card, and from the last card back to the first |
| MatchCycle.ThreeTicksReturn | frontend/src/components/ui/match-section.tsx:48 | three ticks return to the start, visiting every feature once |
| MatchCycle.Score | frontend/src/components/ui/match-section.tsx:122 | the shown score is 92 for Profile Analysis, 88 for AI Matching and 95 for Culture Fit |
| MatchCycle.ScoresDistinct | frontend/src/components/ui/match-section.tsx:122 | different features show different scores |
| MatchCycle.OneHighlighted | frontend/src/components/ui/match-section.tsx:72-74 | whatever feature is active, exactly one of the three cards, the active one, gets the highlighted border |
| MatchCycle.FeatureCycle.constructor | frontend/src/components/ui/match-section.tsx:44 | the first feature starts active |
| MatchCycle.FeatureCycle.Tick | frontend/src/components/ui/match-section.tsx:47-49 | the active feature becomes `Next` of the old one |
| MatchCycle.FeatureCycle.Click | frontend/src/components/ui/match-section.tsx:66 | the clicked card becomes active and is the one highlighted |
| CardDeck.Without | frontend/src/components/ui/animated-card.tsx:178 | removing one card shortens the list by one, keeps the cards before it in place and moves those after it one place left |
| CardDeck.Slot | frontend/src/components/ui/animated-card.tsx:179 | the insertion point is 1, or 0 for an empty remainder |
| CardDeck.Reordered | frontend/src/components/ui/animated-card.tsx:175-181 | a click on position 1 leaves the list as it is; otherwise the reorder keeps the number of cards and puts the clicked card at position 1 once there are two (ReorderedPositions, ReorderedIsPermutation: the rest) |
| CardDeck.SplicesAtOneKeep | frontend/src/components/ui/animated-card.tsx:175-179 | the early return for index 1 agrees with what the two splices would do |
| CardDeck.ReorderedIsPermutation | frontend/src/components/ui/animated-card.tsx:175-180 | the reorder keeps the length and the multiset of cards |
| CardDeck.ReorderedPositions | frontend/src/components/ui/animated-card.tsx:175-179 | with two or more cards the clicked card ends at position 1; a click on index 0 swaps the first two; cards between position 1 and the click shift one place; all others stay |
| CardDeck.RemoveAt | frontend/src/components/ui/animated-card.tsx:178 | after the first splice the array's first `length - 1` cells hold the list without the clicked card |
| CardDeck.InsertAt | frontend/src/components/ui/animated-card.tsx:179 | after the second splice the array holds the shortened list with the card inserted at the slot |
| CardDeck.HandleCardClick | frontend/src/components/ui/animated-card.tsx:175-181 | the new list is the reordered list, a permutation of the old one; the old list is only read |
| CardDeck.Offset | frontend/src/components/ui/animated-card.tsx:49-50 | the offset is zero exactly at the card's centre and positive exactly to its right or below it |
| CardDeck.TiltCard.constructor | frontend/src/components/ui/animated-card.tsx:41-42 | both offsets start at 0 |
| CardDeck.TiltCard.MouseMove | frontend/src/components/ui/animated-card.tsx:46-51 | before the card is mounted nothing changes; afterwards the offsets are the pointer's offsets from the card's centre |
| CardDeck.TiltCard.MouseLeave | frontend/src/components/ui/animated-card.tsx:53-56 | leaving the card resets both offsets to 0 |

## Left out

- Rendering: the Three.js scene, shaders and textures, the 2D canvas, CSS transforms, and framer-motion springs, variants and `useTransform`. These are graphics library calls.
- Motion of the scanner particles after creation (move, decay, respawn, drawing). It is per-particle floating-point animation with no stated property.
- The sine sway of the ambient particles. It is an input sequence.
- The speed readout (`Math.round` of the velocity). It is display only.
- Floating-point rounding. Positions, velocities and percentages are exact reals.
- One animation frame is four calls the caller makes in order: `CardStream.Animate`, `ScanBoard.UpdateCardEffects`, `DriftAmbient` and `ParticlePool.Resize`. There is no single frame method.
- Re-running the scanner's effect when `width`, `isPaused` or a prop changes rebuilds the particle systems. It is not modelled; `width` is fixed per `ScanBoard` and `ParticlePool`.
- The DOM lookups of the scanner (`children`, `.ascii-content`, the `originalAscii` map with its `''` default). Every card is assumed to have its encoded layer and its original text.
- ScannerBeam.ScanBoard.UpdateCardEffects: uses the corrected left-of-beam test of `ClipFor` (see Findings), not the strict test of the source.
- ScannerBeam.FrameCard: its clip is the corrected `ClipFor`, not the strict test of the source; `ClipAsWritten` keeps the test as written (see Findings).
- SignupWizard.Wizard.ToggleIndustryClick: models one `toggleIndustry` call. The row's `onClick` and the checkbox's `onCheckedChange` both call it, and whether one click on the box reaches both depends on event propagation, which is not modelled.
- Random draws are finite sequences. Methods that draw (`GenerateCode`, `ScrambleTick`, `Resize`, the pool constructor, `InitAmbient`, `DriftAmbient`) require enough draws to be supplied.
- Timers, intervals, animation frames, `ResizeObserver` and event registration and cleanup. They become explicit event methods, with no model of interleaving or of timers cleared on unmount.
- React's asynchronous state updates and stale closures. Two clicks on the save button before a re-render could both see `idle`; the model treats each event as seeing the latest state.
- The confetti burst is counted (`bursts`) but not drawn.
- Flask details: parsing the request body (a malformed body raises inside `request.json` and ends in the catch-all 500), rate limiting, CORS, `/health` and `/api/logs`.
- The database client (`backend/database.py`) and `email_validator`. They are parameters whose answers the handler sees; backend/database.py is not part of this model.
- The timestamp clock (`time.strftime`). It is a parameter.
- The signup and waitlist forms' `fetch`, toast and alert plumbing. They are outside the modelled components.
- Text.Trim: whitespace is the set both runtimes define, as code points; Unicode normalisation and encodings are not modelled.
- `CardDeck.RemoveAt` and `CardDeck.InsertAt`: JavaScript's `splice` shortens and regrows the array; the model keeps a fixed-length array and states which cells hold the list.

## Findings

| source | as written | input that shows it | evidently intended | confidence | as-written member | corrected member |
|---|---|---|---|---|---|---|
| frontend/src/components/ui/scanner-card-stream.tsx:316 | a card off the beam is treated as left of it only when its right edge is strictly less than the beam's left edge; a card whose right edge equals the beam's left edge gets 0%/0%, the "right of the beam" clip | container width 800 (beam `[338, 342]`), card left edge at -12: the card has fully passed the beam but is shown unencoded, while the cards at -12.5 and -11.5 are shown (almost) fully encoded | `relativeRight <= scannerLeft`, so that a card that has left the beam stays fully encoded and the clip never goes down as the card moves left | low: a single exact position, visible for one frame; not executed | ScannerBeam.ClipAsWrittenSkips | ScannerBeam.ClipFor |
