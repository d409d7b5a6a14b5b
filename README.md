# reddy-pet, modelled in Dafny

This project models the virtual pet shipped with reddy-pet and the toy pet on its landing page.

The widget keeps one pet record. It has a name, four stats in [0, 100], the time of the last tick, the current day and the day of birth. Its rules are:

- A one-second timer applies passive decay. One step is applied per whole 6000 ms elapsed, always at least one. Each step adds 1 to hunger, takes 0.5 from fun and 0.4 from clean, and adds 0.2 to energy. Every result is clamped to [0, 100].
- Six buttons feed, play, clean, sleep, rename and reset. Each saves the whole record to the storage slot, except a rename that is cancelled or answered with blanks, which changes and saves nothing.
- Loading the slot takes a parsed record field by field. It fills in a missing or empty `born` from `dayId`, or else from today. Without a readable record it starts a fresh `EGG-420`.
- The render derives:
  - a mood, from ordered thresholds;
  - the health, as the rounded mean of fullness, fun, clean and energy;
  - a stage from the health;
  - the age in whole days, the day counter and the age bar;
  - the egg id, the upper-cased name without an `EGG-` prefix;
  - six bars with a severity each.
- A bar pulses when its drawn percentage moved by 5 or more since the last render.
- The sprite is one of six ASCII templates, chosen by mood, with a blinking eye glyph. The face the widget draws is that sprite with blank edge lines and trailing white space removed.

The landing page keeps two counters, `happy` (starting at 50, at most 100) and `score` (starting at 1). Three buttons raise them. A label and an XP counter padded to four digits show them.

Modules:

- `JsStrings` restates the JavaScript string built-ins the code uses over `seq<char>`: `trim`, `replace(/\s+$/, '')`, `split('\n')`, `join('\n')`, `toUpperCase`, `startsWith`, `padStart` and `String(n)`.
- `Ascii` holds `petSprite` and what is proved about the sprites.
- `PetModel` holds the pet record and its rules as pure functions, with lemmas about them.
- `PetApp` holds the state the component mutates:
  - a `PetController` class whose methods apply a tick or an action and then save;
  - the loop that records bar percentages and decides the pulses;
  - the loop that trims the sprite into the face.
- `Landing` holds the landing-page class `LandingPet` and the pure step function it is proved against.

Stats are exact reals. `Math.round(x)` is `floor(x + 0.5)`. `Math.floor` of a millisecond difference divided by a positive constant is Dafny's integer division, which rounds the same way.

Each action clamps on its own. Feeding a fresh egg and then playing with it therefore leaves hunger at 8, not 3 = 20 - 25 + 8: feed takes hunger from 20 to 0 (src/client/App.tsx:156), and play raises it to 8 (src/client/App.tsx:165). `PetModel.FeedThenPlay` states this.

The tick runs every second, but each tick applies at least one step. A pet whose tab stays open therefore ages six steps per 6000 ms, although the comment promises one step per 6 s. `PetModel.FastPolling` states this, and `PetModel.CatchUp` shows that a late tick applies exactly the missed steps.

## Model

| member | source | states |
|---|---|---|
| JsStrings.TrimStart | src/client/App.tsx:191 | the result is a suffix of the input, what it drops is all white space, and the result does not start with white space |
| JsStrings.TrimEnd | src/client/App.tsx:254 | `replace(/\s+$/, '')`: the result is a prefix, what it drops is all white space, and the result does not end with white space |
| JsStrings.Trim | src/client/App.tsx:191 | the trimmed string is empty or starts and ends with a character that is not white space |
| JsStrings.TrimEmptyIffAllSpace | src/client/App.tsx:252-253 | `line.trim() === ''` holds exactly when every character of the line is white space |
| JsStrings.TrimIdempotent | src/client/App.tsx:191 | trimming a trimmed string changes nothing |
| JsStrings.Split | src/client/App.tsx:251 | `split('\n')` yields at least one piece, and no piece holds a line feed |
| JsStrings.SplitJoin | src/client/App.tsx:251 | splitting the join of line-feed-free lines gives the lines back |
| JsStrings.JoinSplit | src/client/App.tsx:251-254 | joining the pieces of a split gives the text back |
| JsStrings.ToUpper | src/client/App.tsx:218 | same length, and each character is upper-cased on its own |
| JsStrings.PadStart | docs/assets/js/app.js:26 | `padStart(width, fill)` has length max(width, length), ends with the original string and is filled before it |
| JsStrings.NatDigits | docs/assets/js/app.js:26 | `String(n)` for 0 <= n < 10^21 (where JavaScript would switch to exponent form) is a non-empty string of digits with no leading zero |
| JsStrings.DigitsRoundTrip | docs/assets/js/app.js:26 | reading back the decimal digits of n gives n |
| JsStrings.LeadingZeros | docs/assets/js/app.js:26 | zeros in front of a digit string do not change the number it denotes |
| JsStrings.Join | src/client/App.tsx:254 | `join('\n')`: the lines with one line feed between neighbours; its inverse is stated by SplitJoin and JoinSplit |
| JsStrings.IntString | docs/assets/js/app.js:26 | `String(n)`: a minus sign before the digits of a negative n, else the digits of n, as NatDigits and DigitsRoundTrip state |
| Ascii.PetSprite | src/client/ascii.ts:3-65 | the sprite for a mood and blink flag: a line feed, then the mood's seven template lines with the eye glyph `-` when blinking and `•` otherwise; SpriteLines, BlinkOnlyChangesEyes and DistinctMoodsDistinctSprites state its properties |
| Ascii.TemplateHasNoLineFeeds | src/client/ascii.ts:3-65 | each template has seven lines, none holding a line feed |
| Ascii.SpriteLines | src/client/ascii.ts:7-14 | every sprite starts with a line feed and splits into an empty line followed by the seven template lines |
| Ascii.BlinkOnlyChangesEyes | src/client/ascii.ts:4-5 | the blinking frame is the open frame with every open eye `•` replaced by `-` and nothing else changed |
| Ascii.BlinkChangesSpriteIff | src/client/ascii.ts:36-55 | the blink flag leaves the sprite unchanged exactly for the sleep and bored moods, whose templates have no eye glyph |
| Ascii.EyeLineBlinks | src/client/ascii.ts:4-5 | for every mood with eyes, the eye line of the blinking template differs from the open one |
| Ascii.MouthLineDistinct | src/client/ascii.ts:6-64 | the fifth template line differs between any two moods, whatever the eye glyph |
| Ascii.DistinctMoodsDistinctSprites | src/client/ascii.ts:3-65 | for a fixed blink flag, different moods draw different sprites |
| PetModel.DefaultPet | src/client/App.tsx:18-27 | the fresh egg, as DefaultPetValues states |
| PetModel.Load | src/client/App.tsx:29-41 | the stored record with `born` backfilled, or the fresh egg without a readable record; LoadWithoutSnapshot, LoadStored and LoadSaveRoundTrip state it |
| PetModel.Save | src/client/App.tsx:42 | the record written to the slot, which Load inverts (LoadSaveRoundTrip) |
| PetModel.Steps | src/client/App.tsx:83 | the number of decay steps for an elapsed time, as StepsCount and StepsWholePeriods state |
| PetModel.Decay | src/client/App.tsx:81-92 | one tick's update, as DecayFrame, DecayMinimumStep, PollsStats and CatchUp state |
| PetModel.Feed | src/client/App.tsx:156 | hunger -25 and energy +5, clamped, as ActionFrames and ActionAmounts state |
| PetModel.Play | src/client/App.tsx:165 | fun +20, energy -8 and hunger +8, clamped, as ActionFrames and ActionAmounts state |
| PetModel.CleanUp | src/client/App.tsx:174 | clean +30, clamped, as ActionFrames and ActionAmounts state |
| PetModel.Sleep | src/client/App.tsx:183 | energy +25, clamped, as ActionFrames and ActionAmounts state |
| PetModel.Rename | src/client/App.tsx:189-199 | the pet with the trimmed answer as its name, or unchanged for a cancelled or blank answer, as RenameSpec states |
| PetModel.MoodOf | src/client/App.tsx:144-151 | the mood by ordered thresholds, as MoodPrecedence states |
| PetModel.Health | src/client/App.tsx:214 | the rounded mean of fullness, fun, clean and energy; ViewBounds states its range |
| PetModel.Stage | src/client/App.tsx:215 | 3 above 85, 2 above 65, else 1; ViewBounds states the bands |
| PetModel.AgePercent | src/client/App.tsx:217 | the age bar, a week of age filling it; ViewBounds states its bounds |
| PetModel.EggId | src/client/App.tsx:218 | the upper-cased name without an `EGG-` prefix, as EggIdLabel states |
| PetModel.Day | src/client/App.tsx:219 | the day counter, at least 1; ViewBounds states it |
| PetModel.Bars | src/client/App.tsx:221-229 | the six bars in drawing order, as ViewBounds and ViewBarsDistinct state |
| PetModel.BarSeverity | src/client/App.tsx:273-274 | a bar's severity, as SeverityBands states |
| PetModel.Project | src/client/App.tsx:144-231 | the read model drawn from the pet, as ViewBounds states |
| PetModel.Clamp | src/client/App.tsx:15 | the result lies in [0, 100], equals the value inside that range and the nearer bound outside it |
| PetModel.DefaultPetValues | src/client/App.tsx:18-27 | a fresh egg is `EGG-420` with hunger 20, fun 60, clean 70, energy 80, born and dated today, ticked now and in range |
| PetModel.LoadWithoutSnapshot | src/client/App.tsx:29-41 | an empty or unparsable slot loads the default pet |
| PetModel.LoadStored | src/client/App.tsx:33-35 | a parsed record is taken field by field; a missing or empty `born` becomes `dayId`, or today when `dayId` is missing too |
| PetModel.LoadSaveRoundTrip | src/client/App.tsx:29-42 | loading a saved pet gives it back, except that an empty `born` is backfilled |
| PetModel.StepsCount | src/client/App.tsx:83 | a tick applies at least one step, one step under 6000 ms, and otherwise the number of whole 6000 ms periods elapsed |
| PetModel.StepsWholePeriods | src/client/App.tsx:83 | exactly k periods elapsed give k steps |
| PetModel.DecayFrame | src/client/App.tsx:82-92 | after a tick every stat is in range, the tick time and day are the current ones, and the name and birth day are kept |
| PetModel.DecayMinimumStep | src/client/App.tsx:83-90 | a tick less than one period after the previous one still applies one whole step |
| PetModel.PollsStats | src/client/App.tsx:80-96 | k ticks less than two periods apart move each stat of an in-range pet by k steps, saturating at the bounds |
| PetModel.CatchUp | src/client/App.tsx:82-92 | for an in-range pet, one tick k whole periods late equals k ticks one period apart |
| PetModel.FastPolling | src/client/App.tsx:78-96 | six one-second polls add 6 to hunger over 6000 ms, where one tick over the same time adds 1 |
| PetModel.DecaySaturation | src/client/App.tsx:87-88 | ticking a fresh egg once per period, hunger reaches 100 at exactly 80 ticks and stays there, and fun reaches 0 at exactly 120 |
| PetModel.ActionFrames | src/client/App.tsx:153-188 | each action writes only its own stats, and writes them into [0, 100] whatever the record held |
| PetModel.ActionAmounts | src/client/App.tsx:156-183 | on an in-range pet: feed -25 hunger +5 energy, play +20 fun -8 energy +8 hunger, clean +30 clean, sleep +25 energy, each stopping at the bounds |
| PetModel.FeedThenPlay | src/client/App.tsx:156-165 | a fresh egg fed and then played with has hunger 8, energy 77, fun 80 and clean 70 |
| PetModel.RenameSpec | src/client/App.tsx:189-200 | a rename stores the trimmed input and nothing else; a cancelled or blank input leaves the pet unchanged, and only such an input is ignored |
| PetModel.MoodPrecedence | src/client/App.tsx:144-151 | each mood holds exactly when its threshold matches and no earlier one does: sleep, hungry, dirty, happy, bored, idle |
| PetModel.SleepOutranksHunger | src/client/App.tsx:145-146 | a pet with energy 10 and hunger 90 is asleep, not hungry |
| PetModel.Round | src/client/App.tsx:214 | `Math.round` gives the nearest integer, halves rounded up |
| PetModel.AgeDays | src/client/App.tsx:216 | the age is the number of whole days elapsed since birth, rounded down |
| PetModel.EggIdLabel | src/client/App.tsx:218 | with an `EGG-` prefix, "EGG-" + egg id is the upper-cased name; without it, the egg id is the upper-cased name |
| PetModel.DefaultEggId | src/client/App.tsx:19 | the default pet's egg id is `420` |
| PetModel.BarPercent | src/client/App.tsx:235 | a bar's percentage lies in [0, 100]: within one half of an in-range value, 0 for a negative value and 100 for a value above 100 |
| PetModel.SeverityBands | src/client/App.tsx:273-274 | the age bar is always ok; any other bar is bad below 25, warn from 25 to 49 and ok from 50 |
| PetModel.ViewBounds | src/client/App.tsx:209-231 | for in-range stats: health in [0, 100], the stage steps at 65 and 85, the day is at least 1, the age bar is at most 100 and full from day 7, and the six bars show fullness, fun, clean, energy, age and health |
| PetApp.FaceOf | src/client/App.tsx:251-254 | the face drawn for a sprite text; TrimFace computes it and SpriteFace states it for every sprite |
| PetApp.Synced | src/client/App.tsx:234-247 | one pass of the bar bookkeeping, as SyncSpec states against PulsedKeys |
| PetApp.DropLeadingBlank | src/client/App.tsx:252 | the result is a suffix, the lines it drops are all blank, and its first line is not blank |
| PetApp.DropTrailingBlank | src/client/App.tsx:253 | the result is a prefix, the lines it drops are all blank, and its last line is not blank |
| PetApp.TrimEachEnd | src/client/App.tsx:254 | each line loses its trailing white space, and the number of lines is kept |
| PetApp.TrimsToEmpty | src/client/App.tsx:252-253 | the test `line.trim() === ''` answers whether the line is blank |
| PetApp.TrimFace | src/client/App.tsx:251-254 | the shift and pop loops followed by the per-line strip compute the face of the sprite text |
| PetApp.TrimEachEndClean | src/client/App.tsx:254 | lines that end in a character other than white space are kept as they are |
| PetApp.FaceOfCleanLines | src/client/App.tsx:251-254 | a line feed followed by clean lines is drawn as those lines |
| PetApp.SpriteFace | src/client/App.tsx:250-254 | the face drawn for any sprite is the sprite without its opening line feed |
| PetApp.SyncSpec | src/client/App.tsx:233-248 | with distinct keys, one pass pulses exactly the bars whose percentage moved by 5 or more against the previous one, records every bar's percentage, and keeps other keys |
| PetApp.SyncRecords | src/client/App.tsx:234-247 | with distinct keys, after one pass each bar's key holds that bar's drawn percentage |
| PetApp.SyncKeepsOthers | src/client/App.tsx:234-247 | a pass leaves the recorded percentage of any key not among the bars unchanged |
| PetApp.PulsedKeysAgree | src/client/App.tsx:236-241 | the pulsed bars depend only on the recorded percentages of the bars' own keys |
| PetApp.SettledBarsDoNotPulse | src/client/App.tsx:241-246 | bars whose recorded percentage equals the current one do not pulse |
| PetApp.EmptyNeverFires | src/client/App.tsx:237-240 | with nothing recorded yet, no bar pulses |
| PetApp.PulsesNeedChange | src/client/App.tsx:233-248 | the first render pulses nothing, and rendering the same values twice pulses nothing the second time |
| PetApp.ViewBarsDistinct | src/client/App.tsx:221-229 | the six bars have distinct keys |
| PetApp.PetController.constructor | src/client/App.tsx:70 | mounting loads the pet from the storage slot, with no percentages recorded |
| PetApp.PetController.Tick | src/client/App.tsx:81-94 | a tick replaces the pet by its decayed state, leaves it in range with its name and birth day, and saves it |
| PetApp.PetController.Feed | src/client/App.tsx:153-161 | feeding replaces the pet by its fed state and saves it |
| PetApp.PetController.Play | src/client/App.tsx:162-170 | playing replaces the pet by its played state and saves it |
| PetApp.PetController.CleanUp | src/client/App.tsx:171-179 | cleaning replaces the pet by its cleaned state and saves it |
| PetApp.PetController.Sleep | src/client/App.tsx:180-188 | sleeping replaces the pet by its rested state and saves it |
| PetApp.PetController.Rename | src/client/App.tsx:189-200 | a non-blank answer renames the pet to the trimmed answer and saves it; otherwise neither the pet nor the slot changes |
| PetApp.PetController.Reset | src/client/App.tsx:201-207 | reset saves and shows a fresh egg |
| PetApp.PetController.SyncBars | src/client/App.tsx:233-248 | the loop records each bar's percentage and returns the pulsed keys in order, as one pass of the specification does |
| PetApp.ReopenRestores | src/client/App.tsx:29-42 | after any tick or action, loading the slot gives back the pet on screen, if its birth day is not empty |
| Landing.Step | docs/assets/js/app.js:31-34 | one click's effect on the counters, as StepMonotone and RunBounds state |
| Landing.MoodLabel | docs/assets/js/app.js:24 | the label for `happy`, as MoodLabelBands states |
| Landing.XpText | docs/assets/js/app.js:26 | the XP read-out, as XpTextSpec states |
| Landing.StepMonotone | docs/assets/js/app.js:32-34 | a click never lowers `happy` nor lifts it past 100, raises `score` for feed, play and clean, and changes nothing for any other action |
| Landing.RunBounds | docs/assets/js/app.js:29-38 | over any run of clicks `happy` never falls nor exceeds 100, and `score` grows by at least one per recognised click |
| Landing.MoodLabelBands | docs/assets/js/app.js:24 | Vibing above 70, Chill above 45 up to 70, Meh above 20 up to 45, Grumpy from 20 down |
| Landing.ChillOrVibing | docs/assets/js/app.js:24-25 | above 45 the mood text reads "Mood: Chill" or "Mood: Vibing" |
| Landing.ReachableMoods | docs/assets/js/app.js:8-38 | from the initial counters, every run of clicks keeps `happy` in [50, 100] and shows only Chill or Vibing |
| Landing.XpTextSpec | docs/assets/js/app.js:26 | the XP text is "XP: " and then the score's digits, zero-padded to four; longer scores are shown whole, and the digits read back as the score |
| Landing.InitialTexts | docs/assets/js/app.js:8-9 | at start the page shows "Mood: Chill" and "XP: 0001" |
| Landing.LandingPet.constructor | docs/assets/js/app.js:8-46 | the page starts at score 1 and happy 50, showing "Mood: Chill" and "XP: 0001" |
| Landing.LandingPet.SetMood | docs/assets/js/app.js:23-27 | the two texts show the current counters |
| Landing.LandingPet.Click | docs/assets/js/app.js:30-36 | the counters move as the step function says; happy never falls nor exceeds 100; the score rises on a recognised action; the texts follow; only Chill or Vibing can show |

## Left out

- Audio (`playClick`, `sfx`), the `console.warn` on a snapshot that fails to parse, the screen flash, the CSS blink class and the landing page's year text are left out: they are effects on the browser with no state the model needs.
- The blink timer is left out, and `blinkOn` is a parameter. The pulse timers and the `activePulses` map are left out too; a pulse is the list of keys `SyncBars` returns.
- The clock and the calendar are parameters. `now` is the current time in milliseconds, `today` is today's day string and `bornMs` is `new Date(pet.born).getTime()`. The two `Date.now()` calls of one tick read the same `now`.
- `localStorage` and `JSON.parse` are modelled as a `Snapshot`. A slot that is empty or missing is `Absent`. Text that does not parse, or parses to something other than an object, is `Unparsable`, and both load the default pet.
- PetModel.LoadStored: a stored record whose numeric fields are missing, NaN or not numbers, or whose name is not a string, is not modelled, because the record type requires each field.
- PetModel.AgeDays: an unparsable `born` date, which gives NaN in the source, is not modelled, because `bornMs` is an integer.
- JsStrings.ToUpper: upper-cases ASCII letters only, because Unicode case mapping is not modelled.
- PetModel.Clamp: models `clamp` with its default bounds only, because the code never passes others.
- Floating-point rounding is not modelled, because stats are exact reals. For example, 0.4 steps add up exactly.
- `prompt` is modelled as the answer it returns: `None` when cancelled.
- React's rendering, `useMemo` and state batching are not modelled. Each `setPet` updater runs on the current pet, in order.
- The blog script, the server code and the build configuration are not part of this model.
