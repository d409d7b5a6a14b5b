/** The pet record of the widget and its rules: clamping, the defaults, loading
    a stored snapshot with the `born` backfill, the timed decay step, the
    discrete actions and the derived read model (mood, health, stage, age,
    day, egg id and the stat bars with their severity). All pure. */
module PetModel {
  import opened JsStrings
  import Ascii

  datatype Option<T> = None | Some(value: T)

  /** The pet. The four stats are in [0, 100] once written by any rule, but a
      loaded record is taken as stored; `dayId` is absent when the pet came
      from a snapshot that had none and no tick has run since. Times are
      milliseconds since the epoch; `born` and `dayId` are day strings. */
  datatype Pet = Pet(
    name: string,
    hunger: real,  // higher is worse
    fun: real,
    clean: real,
    energy: real,
    dayId: Option<string>,
    lastTick: int,
    born: string)

  const DefaultName: string := "EGG-420"
  /** One decay step per 6000 ms of wall-clock time. */
  const TickMs: int := 6000
  const DayMs: int := 86400000

  function MaxR(a: real, b: real): real { if a >= b then a else b }
  function MinR(a: real, b: real): real { if a <= b then a else b }
  function MaxI(a: int, b: int): int { if a >= b then a else b }
  function MinI(a: int, b: int): int { if a <= b then a else b }

  /** `clamp(v)` with its default bounds 0 and 100. */
  function Clamp(v: real): (r: real)
    ensures 0.0 <= r <= 100.0
    ensures 0.0 <= v <= 100.0 ==> r == v
    ensures v < 0.0 ==> r == 0.0
    ensures v > 100.0 ==> r == 100.0
  {
    MaxR(0.0, MinR(100.0, v))
  }

  predicate InRange(p: Pet) {
    && 0.0 <= p.hunger <= 100.0 && 0.0 <= p.fun <= 100.0
    && 0.0 <= p.clean <= 100.0 && 0.0 <= p.energy <= 100.0
  }

  /** A fresh egg, created at time `now` on day `today`. */
  function DefaultPet(now: int, today: string): Pet {
    Pet(DefaultName, 20.0, 60.0, 70.0, 80.0, Some(today), now, today)
  }

  lemma DefaultPetValues(now: int, today: string)
    ensures var p := DefaultPet(now, today);
      && p.name == "EGG-420" && p.hunger == 20.0 && p.fun == 60.0
      && p.clean == 70.0 && p.energy == 80.0
      && p.born == today && p.dayId == Some(today) && p.lastTick == now
      && InRange(p)
  {
  }

  // ---------------------------------------------------------------------------
  // Persistence

  /** A parsed snapshot: a record whose `dayId` and `born` may be missing. */
  datatype Record = Record(
    name: string,
    hunger: real,
    fun: real,
    clean: real,
    energy: real,
    dayId: Option<string>,
    lastTick: int,
    born: Option<string>)

  /** What the storage slot holds: nothing (or an empty string), text that does
      not parse to an object, or a parsed record. */
  datatype Snapshot = Absent | Unparsable | Stored(record: Record)

  /** `!data.born` is true for a missing and for an empty `born`. */
  predicate NeedsBackfill(born: Option<string>) {
    born == None || born == Some("")
  }

  /** `data.dayId ?? today`. */
  function BackfillBorn(dayId: Option<string>, today: string): string {
    match dayId
    case Some(d) => d
    case None => today
  }

  /** `load()`: the stored record with `born` backfilled, or a fresh egg. */
  function Load(stored: Snapshot, now: int, today: string): Pet {
    match stored
    case Stored(r) =>
      var born := if NeedsBackfill(r.born) then BackfillBorn(r.dayId, today) else r.born.value;
      Pet(r.name, r.hunger, r.fun, r.clean, r.energy, r.dayId, r.lastTick, born)
    case _ => DefaultPet(now, today)
  }

  /** `save(p)`: the record written to storage. */
  function Save(p: Pet): Record {
    Record(p.name, p.hunger, p.fun, p.clean, p.energy, p.dayId, p.lastTick, Some(p.born))
  }

  /** A missing or unparsable snapshot yields the defaults. */
  lemma LoadWithoutSnapshot(stored: Snapshot, now: int, today: string)
    requires !stored.Stored?
    ensures var p := Load(stored, now, today);
      && p.name == "EGG-420" && p.hunger == 20.0 && p.fun == 60.0
      && p.clean == 70.0 && p.energy == 80.0 && p.born == today && p.lastTick == now
  {
  }

  /** A parsed record is taken field by field, without validation; only `born`
      is filled in, from `dayId` or else from today, when it is missing or empty. */
  lemma LoadStored(r: Record, now: int, today: string)
    ensures var p := Load(Stored(r), now, today);
      && p.name == r.name && p.hunger == r.hunger && p.fun == r.fun
      && p.clean == r.clean && p.energy == r.energy
      && p.dayId == r.dayId && p.lastTick == r.lastTick
      && (r.born.Some? && r.born.value != "" ==> p.born == r.born.value)
      && (NeedsBackfill(r.born) && r.dayId.Some? ==> p.born == r.dayId.value)
      && (NeedsBackfill(r.born) && r.dayId == None ==> p.born == today)
  {
  }

  /** Saving and loading again restores the pet, unless its `born` is empty,
      in which case the load backfills it. */
  lemma LoadSaveRoundTrip(p: Pet, now: int, today: string)
    ensures p.born != "" ==> Load(Stored(Save(p)), now, today) == p
    ensures p.born == "" ==> Load(Stored(Save(p)), now, today) == p.(born := BackfillBorn(p.dayId, today))
  {
  }

  // ---------------------------------------------------------------------------
  // Decay

  /** `Math.max(1, Math.floor(elapsed / 6000))`; Dafny's `/` on int rounds
      toward minus infinity for a positive divisor, as `Math.floor` does. */
  function Steps(elapsed: int): int {
    MaxI(1, elapsed / TickMs)
  }

  /** At least one step is applied, and otherwise one per whole period elapsed. */
  lemma StepsCount(elapsed: int)
    ensures Steps(elapsed) >= 1
    ensures elapsed < TickMs ==> Steps(elapsed) == 1
    ensures elapsed >= TickMs ==>
      TickMs * Steps(elapsed) <= elapsed < TickMs * (Steps(elapsed) + 1)
  {
  }

  lemma StepsWholePeriods(k: int)
    requires k >= 1
    ensures Steps(TickMs * k) == k
  {
  }

  /** The interval callback's update: `steps` times +1 hunger, -0.5 fun,
      -0.4 clean and +0.2 energy, each clamped; then the tick time and day. */
  function Decay(p: Pet, now: int, today: string): Pet {
    var s := Steps(now - p.lastTick) as real;
    p.(hunger := Clamp(p.hunger + 1.0 * s),
       fun := Clamp(p.fun - 0.5 * s),
       clean := Clamp(p.clean - 0.4 * s),
       energy := Clamp(p.energy + 0.2 * s),
       lastTick := now,
       dayId := Some(today))
  }

  /** Whatever record it starts from, a tick leaves every stat in range, sets
      the tick time and day, and keeps the name and birth day. */
  lemma DecayFrame(p: Pet, now: int, today: string)
    ensures var r := Decay(p, now, today);
      && InRange(r)
      && r.lastTick == now && r.dayId == Some(today)
      && r.name == p.name && r.born == p.born
  {
  }

  /** Less than one period after the last tick, a tick still applies one whole step. */
  lemma DecayMinimumStep(p: Pet, now: int, today: string)
    requires now - p.lastTick < TickMs
    ensures var r := Decay(p, now, today);
      && r.hunger == Clamp(p.hunger + 1.0) && r.fun == Clamp(p.fun - 0.5)
      && r.clean == Clamp(p.clean - 0.4) && r.energy == Clamp(p.energy + 0.2)
  {
  }

  /** `k` ticks, each `gap` milliseconds after the one before. */
  function Polls(p: Pet, k: nat, gap: int, today: string): Pet
    decreases k
  {
    if k == 0 then p else Polls(Decay(p, p.lastTick + gap, today), k - 1, gap, today)
  }

  lemma ClampRising(h: real, a: real, b: real)
    requires 0.0 <= h <= 100.0 && a >= 0.0 && b >= 0.0
    ensures Clamp(Clamp(h + a) + b) == Clamp(h + a + b)
  {
  }

  lemma ClampFalling(h: real, a: real, b: real)
    requires 0.0 <= h <= 100.0 && a <= 0.0 && b <= 0.0
    ensures Clamp(Clamp(h + a) + b) == Clamp(h + a + b)
  {
  }

  /** Ticks closer together than two periods apply one step each, so `k` of them
      move each stat of an in-range pet by `k` steps, saturating at the bounds. */
  lemma {:induction false} PollsStats(p: Pet, k: nat, gap: int, today: string)
    requires InRange(p) && gap < 2 * TickMs
    ensures var r := Polls(p, k, gap, today);
      && r.hunger == Clamp(p.hunger + k as real)
      && r.fun == Clamp(p.fun - 0.5 * k as real)
      && r.clean == Clamp(p.clean - 0.4 * k as real)
      && r.energy == Clamp(p.energy + 0.2 * k as real)
      && r.lastTick == p.lastTick + k * gap
      && r.name == p.name && r.born == p.born
      && r.dayId == (if k == 0 then p.dayId else Some(today))
    decreases k
  {
    if k > 0 {
      var q := Decay(p, p.lastTick + gap, today);
      assert Steps(gap) == 1;
      assert q.hunger == Clamp(p.hunger + 1.0) && q.fun == Clamp(p.fun - 0.5);
      assert q.clean == Clamp(p.clean - 0.4) && q.energy == Clamp(p.energy + 0.2);
      assert InRange(q) && q.lastTick == p.lastTick + gap;
      PollsStats(q, k - 1, gap, today);
      assert Polls(p, k, gap, today) == Polls(q, k - 1, gap, today);
      var j := (k - 1) as real;
      assert k as real == j + 1.0;
      assert (k - 1) * gap + gap == k * gap;
      ClampRising(p.hunger, 1.0, j);
      ClampFalling(p.fun, -0.5, -0.5 * j);
      ClampFalling(p.clean, -0.4, -0.4 * j);
      ClampRising(p.energy, 0.2, 0.2 * j);
    }
  }

  /** Catching up after the app was closed: one tick `k` whole periods late does
      exactly what `k` ticks one period apart would have done. */
  lemma CatchUp(p: Pet, k: nat, today: string)
    requires InRange(p) && k >= 1
    ensures Decay(p, p.lastTick + TickMs * k, today) == Polls(p, k, TickMs, today)
  {
    StepsWholePeriods(k);
    PollsStats(p, k, TickMs, today);
  }

  /** The minimum step makes a 1-second poll run pet time six times faster than
      one step per 6000 ms: six polls in 6000 ms apply six steps, while a
      single tick over the same 6000 ms applies one. */
  lemma FastPolling(p: Pet, today: string)
    requires InRange(p) && p.hunger <= 94.0
    ensures Polls(p, 6, 1000, today).lastTick == Decay(p, p.lastTick + TickMs, today).lastTick
    ensures Polls(p, 6, 1000, today).hunger == p.hunger + 6.0
    ensures Decay(p, p.lastTick + TickMs, today).hunger == p.hunger + 1.0
  {
    PollsStats(p, 6, 1000, today);
  }

  /** Ticking a fresh egg once per period: hunger reaches 100 after exactly 80
      ticks and stays there, fun reaches 0 after exactly 120 ticks. */
  lemma DecaySaturation(now: int, today: string)
    ensures Polls(DefaultPet(now, today), 79, TickMs, today).hunger == 99.0
    ensures Polls(DefaultPet(now, today), 80, TickMs, today).hunger == 100.0
    ensures Polls(DefaultPet(now, today), 100, TickMs, today).hunger == 100.0
    ensures Polls(DefaultPet(now, today), 119, TickMs, today).fun == 0.5
    ensures Polls(DefaultPet(now, today), 120, TickMs, today).fun == 0.0
  {
    var p := DefaultPet(now, today);
    PollsStats(p, 79, TickMs, today);
    PollsStats(p, 80, TickMs, today);
    PollsStats(p, 100, TickMs, today);
    PollsStats(p, 119, TickMs, today);
    PollsStats(p, 120, TickMs, today);
  }

  // ---------------------------------------------------------------------------
  // Actions

  function Feed(p: Pet): Pet {
    p.(hunger := Clamp(p.hunger - 25.0), energy := Clamp(p.energy + 5.0))
  }

  function Play(p: Pet): Pet {
    p.(fun := Clamp(p.fun + 20.0), energy := Clamp(p.energy - 8.0), hunger := Clamp(p.hunger + 8.0))
  }

  function CleanUp(p: Pet): Pet {
    p.(clean := Clamp(p.clean + 30.0))
  }

  function Sleep(p: Pet): Pet {
    p.(energy := Clamp(p.energy + 25.0))
  }

  /** Each action writes only its own stats, and those land in [0, 100]
      whatever the record held: putting the old values back gives the old pet. */
  lemma ActionFrames(p: Pet)
    ensures Feed(p).(hunger := p.hunger, energy := p.energy) == p
    ensures 0.0 <= Feed(p).hunger <= 100.0 && 0.0 <= Feed(p).energy <= 100.0
    ensures Play(p).(fun := p.fun, energy := p.energy, hunger := p.hunger) == p
    ensures 0.0 <= Play(p).fun <= 100.0 && 0.0 <= Play(p).energy <= 100.0
    ensures 0.0 <= Play(p).hunger <= 100.0
    ensures CleanUp(p).(clean := p.clean) == p && 0.0 <= CleanUp(p).clean <= 100.0
    ensures Sleep(p).(energy := p.energy) == p && 0.0 <= Sleep(p).energy <= 100.0
  {
  }

  /** On an in-range pet each action moves its stats by the fixed amounts and
      stops at whichever bound the move would cross. */
  lemma ActionAmounts(p: Pet)
    requires InRange(p)
    ensures Feed(p).hunger == MaxR(0.0, p.hunger - 25.0) && Feed(p).energy == MinR(100.0, p.energy + 5.0)
    ensures Play(p).fun == MinR(100.0, p.fun + 20.0) && Play(p).energy == MaxR(0.0, p.energy - 8.0)
    ensures Play(p).hunger == MinR(100.0, p.hunger + 8.0)
    ensures CleanUp(p).clean == MinR(100.0, p.clean + 30.0)
    ensures Sleep(p).energy == MinR(100.0, p.energy + 25.0)
    ensures InRange(Feed(p)) && InRange(Play(p)) && InRange(CleanUp(p)) && InRange(Sleep(p))
  {
  }

  /** A fresh egg fed and then played with. Each action clamps on its own, so
      the feed's overshoot below 0 is lost: hunger ends at 8, not 20 - 25 + 8. */
  lemma FeedThenPlay(now: int, today: string)
    ensures var p := Play(Feed(DefaultPet(now, today)));
      p.hunger == 8.0 && p.energy == 77.0 && p.fun == 80.0 && p.clean == 70.0
  {
  }

  /** `prompt(...)?.trim()`: `None` when the prompt was cancelled. */
  function TrimmedInput(input: Option<string>): string {
    match input
    case Some(s) => Trim(s)
    case None => ""
  }

  /** The name a rename stores, if it stores one. */
  predicate RenameApplies(input: Option<string>) {
    TrimmedInput(input) != ""
  }

  function Rename(p: Pet, input: Option<string>): Pet {
    if RenameApplies(input) then p.(name := TrimmedInput(input)) else p
  }

  /** A rename stores the trimmed input, which then neither starts nor ends with
      white space, and changes nothing else; a cancelled, empty or all-blank
      input leaves the pet as it was. */
  lemma RenameSpec(p: Pet, input: Option<string>)
    ensures Rename(p, input).(name := p.name) == p
    ensures RenameApplies(input) ==> Rename(p, input).name == Trim(input.value)
    ensures RenameApplies(input) ==>
      !IsSpace(Rename(p, input).name[0]) && !IsSpace(Rename(p, input).name[|Rename(p, input).name| - 1])
    ensures !RenameApplies(input) <==> input == None || AllSpace(input.value)
    ensures !RenameApplies(input) ==> Rename(p, input) == p
  {
    if input.Some? {
      TrimEmptyIffAllSpace(input.value);
    }
  }

  // ---------------------------------------------------------------------------
  // Read model

  /** The mood rules, first match wins. */
  function MoodOf(p: Pet): Ascii.Mood {
    if p.energy < 20.0 then Ascii.Sleep
    else if p.hunger > 70.0 then Ascii.Hungry
    else if p.clean < 30.0 then Ascii.Dirty
    else if p.fun > 80.0 then Ascii.Happy
    else if p.fun < 30.0 then Ascii.Bored
    else Ascii.Idle
  }

  /** Each mood holds exactly when its rule matches and no earlier rule does. */
  lemma MoodPrecedence(p: Pet)
    ensures MoodOf(p) == Ascii.Sleep <==> p.energy < 20.0
    ensures MoodOf(p) == Ascii.Hungry <==> p.energy >= 20.0 && p.hunger > 70.0
    ensures MoodOf(p) == Ascii.Dirty <==> p.energy >= 20.0 && p.hunger <= 70.0 && p.clean < 30.0
    ensures MoodOf(p) == Ascii.Happy <==>
      p.energy >= 20.0 && p.hunger <= 70.0 && p.clean >= 30.0 && p.fun > 80.0
    ensures MoodOf(p) == Ascii.Bored <==>
      p.energy >= 20.0 && p.hunger <= 70.0 && p.clean >= 30.0 && p.fun < 30.0
    ensures MoodOf(p) == Ascii.Idle <==>
      p.energy >= 20.0 && p.hunger <= 70.0 && p.clean >= 30.0 && 30.0 <= p.fun <= 80.0
  {
  }

  /** A tired and starving pet sleeps: low energy outranks hunger. */
  lemma SleepOutranksHunger(p: Pet)
    requires p.energy == 10.0 && p.hunger == 90.0
    ensures MoodOf(p) == Ascii.Sleep
  {
  }

  /** `Math.round`: the nearest integer, halves rounded up. */
  function Round(x: real): (r: int)
    ensures r as real - 0.5 <= x < r as real + 0.5
  {
    (x + 0.5).Floor
  }

  function Health(p: Pet): int {
    Round(((100.0 - p.hunger) + p.fun + p.clean + p.energy) / 4.0)
  }

  function Stage(health: int): int {
    if health > 85 then 3 else if health > 65 then 2 else 1
  }

  /** Whole days since birth, `bornMs` being the birth day's time stamp. */
  function AgeDays(now: int, bornMs: int): (age: int)
    ensures DayMs * age <= now - bornMs < DayMs * (age + 1)
  {
    (now - bornMs) / DayMs
  }

  /** The age bar: a week of age fills it. */
  function AgePercent(age: int): int {
    MinI(100, Round(age as real / 7.0 * 100.0))
  }

  function Day(age: int): int {
    MaxI(1, age + 1)
  }

  /** The name shown after "EGG-": the upper-cased name without its "EGG-" prefix. */
  function EggId(name: string): string {
    var upper := ToUpper(name);
    if StartsWith(upper, "EGG-") then upper[4..] else upper
  }

  /** The meta line shows "EGG-" + egg id: the upper-cased name itself when it
      already has the prefix, the name behind the prefix otherwise. */
  lemma EggIdLabel(name: string)
    ensures StartsWith(ToUpper(name), "EGG-") ==> "EGG-" + EggId(name) == ToUpper(name)
    ensures !StartsWith(ToUpper(name), "EGG-") ==> EggId(name) == ToUpper(name)
    ensures |EggId(name)| <= |name|
  {
  }

  lemma DefaultEggId()
    ensures EggId(DefaultName) == "420"
  {
    assert ToUpper(DefaultName) == DefaultName;
  }

  datatype Severity = Ok | Warn | Bad

  /** One stat bar: its key, its caption, the value it shows and whether it is
      the age bar. */
  datatype Bar = Bar(key: string, caption: string, value: real, isAge: bool)

  /** The six bars, in the order they are drawn. */
  function Bars(p: Pet, agePercent: int, health: int): seq<Bar> {
    [ Bar("hunger", "Hunger", 100.0 - p.hunger, false),
      Bar("fun", "Fun", p.fun, false),
      Bar("clean", "Clean", p.clean, false),
      Bar("energy", "Energy", p.energy, false),
      Bar("age", "Age", agePercent as real, true),
      Bar("health", "Health", health as real, false) ]
  }

  /** The width a bar is drawn at: the rounded value, clamped to [0, 100]. */
  function BarPercent(value: real): (pct: int)
    ensures 0 <= pct <= 100
    ensures 0.0 <= value <= 100.0 ==> pct as real - 0.5 <= value < pct as real + 0.5
    ensures value < 0.0 ==> pct == 0
    ensures value > 100.0 ==> pct == 100
  {
    MaxI(0, MinI(100, Round(value)))
  }

  function BarSeverity(bar: Bar): Severity {
    var pct := BarPercent(bar.value);
    if bar.isAge then Ok else if pct < 25 then Bad else if pct < 50 then Warn else Ok
  }

  /** The read model a renderer draws. */
  datatype View = View(
    mood: Ascii.Mood,
    health: int,
    stage: int,
    age: int,
    day: int,
    agePercent: int,
    eggId: string,
    bars: seq<Bar>)

  function Project(p: Pet, now: int, bornMs: int): View {
    var health := Health(p);
    var age := AgeDays(now, bornMs);
    var agePercent := AgePercent(age);
    View(MoodOf(p), health, Stage(health), age, Day(age), agePercent, EggId(p.name),
         Bars(p, agePercent, health))
  }

  /** Severity bands: "bad" below 25, "warn" below 50, "ok" otherwise, and the
      age bar is always "ok". */
  lemma SeverityBands(bar: Bar)
    ensures bar.isAge ==> BarSeverity(bar) == Ok
    ensures !bar.isAge ==> (BarSeverity(bar) == Bad <==> BarPercent(bar.value) < 25)
    ensures !bar.isAge ==> (BarSeverity(bar) == Warn <==> 25 <= BarPercent(bar.value) < 50)
    ensures !bar.isAge ==> (BarSeverity(bar) == Ok <==> BarPercent(bar.value) >= 50)
  {
  }

  /** With the stats in range: health lies in [0, 100], the stage is 1, 2 or 3
      as health passes 65 and 85, the day counter is at least 1, the age bar
      never exceeds 100 and is full from day 7 on, and the bars are the
      fullness, fun, clean, energy, age and health values. */
  lemma ViewBounds(p: Pet, now: int, bornMs: int)
    requires InRange(p)
    ensures var v := Project(p, now, bornMs);
      && 0 <= v.health <= 100
      && v.stage in {1, 2, 3}
      && (v.stage == 3 <==> v.health > 85)
      && (v.stage == 2 <==> 65 < v.health <= 85)
      && v.day >= 1 && (v.age >= 0 ==> v.day == v.age + 1)
      && v.agePercent <= 100 && (v.age >= 0 ==> v.agePercent >= 0)
      && (v.age >= 7 ==> v.agePercent == 100)
      && v.mood == MoodOf(p)
      && |v.bars| == 6
      && v.bars[0].value == 100.0 - p.hunger && v.bars[1].value == p.fun
      && v.bars[2].value == p.clean && v.bars[3].value == p.energy
      && v.bars[4].isAge && BarSeverity(v.bars[4]) == Ok
      && v.bars[5].value == v.health as real
      && (forall i :: 0 <= i < 6 ==> 0 <= BarPercent(v.bars[i].value) <= 100)
      && (forall i :: 0 <= i < 6 && i != 4 ==> !v.bars[i].isAge)
  {
    var v := Project(p, now, bornMs);
    var x := ((100.0 - p.hunger) + p.fun + p.clean + p.energy) / 4.0;
    assert 0.0 <= x <= 100.0;
    if v.age >= 7 {
      assert v.age as real / 7.0 * 100.0 >= 100.0;
    }
  }
}
