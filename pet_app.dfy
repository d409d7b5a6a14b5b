/** The stateful side of the pet widget: the controller that holds the current
    pet and the stored snapshot and applies each tick and action followed by a
    save, the bookkeeping that decides which stat bars pulse, and the trimming
    of the sprite into the face that is drawn. */
module PetApp {
  import opened JsStrings
  import opened PetModel
  import Ascii

  // ---------------------------------------------------------------------------
  // The face: the sprite without its blank first and last lines and without
  // white space at the end of any line. A blank line is one made of white space
  // only (`AllSpace`), which is what `line.trim() === ''` tests.

  /** What the `shift` loop leaves: the lines from the first non-blank one on. */
  function DropLeadingBlank(lines: seq<string>): (r: seq<string>)
    ensures |r| <= |lines| && r == lines[|lines| - |r|..]
    ensures forall i :: 0 <= i < |lines| - |r| ==> AllSpace(lines[i])
    ensures r == [] || !AllSpace(r[0])
  {
    if |lines| > 0 && AllSpace(lines[0]) then DropLeadingBlank(lines[1..]) else lines
  }

  /** What the `pop` loop leaves: the lines up to the last non-blank one. */
  function DropTrailingBlank(lines: seq<string>): (r: seq<string>)
    ensures |r| <= |lines| && r == lines[..|r|]
    ensures forall i :: |r| <= i < |lines| ==> AllSpace(lines[i])
    ensures r == [] || !AllSpace(r[|r| - 1])
  {
    if |lines| > 0 && AllSpace(lines[|lines| - 1]) then DropTrailingBlank(lines[..|lines| - 1]) else lines
  }

  /** `lines.map(line => line.replace(/\s+$/, ''))`. */
  function TrimEachEnd(lines: seq<string>): (r: seq<string>)
    ensures |r| == |lines| && forall i :: 0 <= i < |r| ==> r[i] == TrimEnd(lines[i])
  {
    seq(|lines|, i requires 0 <= i < |lines| => TrimEnd(lines[i]))
  }

  /** `line.trim() === ''`. */
  method TrimsToEmpty(line: string) returns (empty: bool)
    ensures empty <==> AllSpace(line)
  {
    empty := Trim(line) == "";
    TrimEmptyIffAllSpace(line);
  }

  /** The face drawn for sprite text `ascii`. */
  function FaceOf(ascii: string): string {
    Join(TrimEachEnd(DropTrailingBlank(DropLeadingBlank(Split(ascii)))))
  }

  /** The render's trimming: split into lines, shift blank lines off the front,
      pop them off the back, strip each line's trailing white space, join. */
  method TrimFace(ascii: string) returns (face: string)
    ensures face == FaceOf(ascii)
  {
    var lines := Split(ascii);
    while |lines| > 0
      invariant DropLeadingBlank(lines) == DropLeadingBlank(Split(ascii))
      decreases |lines|
    {
      var blank := TrimsToEmpty(lines[0]);
      if !blank { break; }
      lines := lines[1..];
    }
    while |lines| > 0
      invariant DropTrailingBlank(lines) == DropTrailingBlank(DropLeadingBlank(Split(ascii)))
      decreases |lines|
    {
      var blank := TrimsToEmpty(lines[|lines| - 1]);
      if !blank { break; }
      lines := lines[..|lines| - 1];
    }
    face := Join(TrimEachEnd(lines));
  }

  /** A line that is not empty and does not end in white space. */
  predicate EndsClean(line: string) {
    line != [] && !IsSpace(line[|line| - 1])
  }

  lemma BrowEnds()
    ensures !AllSpace(Ascii.Brow[0])
    ensures forall i :: 0 <= i < 3 ==> EndsClean(Ascii.Brow[i])
  {
    assert !IsSpace(Ascii.Brow[0][2]);
    assert EndsClean(Ascii.Brow[0]) && EndsClean(Ascii.Brow[1]) && EndsClean(Ascii.Brow[2]);
  }

  lemma FaceEnds(mood: Ascii.Mood, eye: char)
    ensures var f := Ascii.Face(mood, eye);
      && |f| == 4 && !AllSpace(f[3]) && forall i :: 0 <= i < 4 ==> EndsClean(f[i])
  {
    var f := Ascii.Face(mood, eye);
    assert !IsSpace(f[3][2]);
    assert EndsClean(f[0]) && EndsClean(f[1]) && EndsClean(f[2]) && EndsClean(f[3]);
  }

  lemma TemplateEnds(mood: Ascii.Mood, eye: char)
    ensures var t := Ascii.Template(mood, eye);
      && |t| == 7 && !AllSpace(t[0]) && !AllSpace(t[6])
      && forall i :: 0 <= i < 7 ==> EndsClean(t[i])
  {
    var t := Ascii.Template(mood, eye);
    var f := Ascii.Face(mood, eye);
    BrowEnds();
    FaceEnds(mood, eye);
    forall i | 3 <= i < 7 ensures EndsClean(t[i]) {
      assert t[i] == f[i - 3];
    }
    assert t[6] == f[3];
  }

  lemma TrimEachEndClean(lines: seq<string>)
    requires forall i :: 0 <= i < |lines| ==> EndsClean(lines[i])
    ensures TrimEachEnd(lines) == lines
  {
    forall i | 0 <= i < |lines| ensures TrimEnd(lines[i]) == lines[i] {
      var l := lines[i];
      assert !IsSpace(l[|l| - 1]);
    }
  }

  lemma SplitAfterLineFeed(lines: seq<string>)
    requires |lines| > 0 && NoLineFeeds(lines)
    ensures Split("\n" + Join(lines)) == [""] + lines
  {
    SplitLeadingLineFeed(Join(lines));
    SplitJoin(lines);
  }

  lemma DropBlankEdges(lines: seq<string>)
    requires |lines| > 0 && !AllSpace(lines[0]) && !AllSpace(lines[|lines| - 1])
    ensures DropTrailingBlank(DropLeadingBlank([""] + lines)) == lines
  {
    assert ([""] + lines)[1..] == lines;
    assert DropLeadingBlank([""] + lines) == DropLeadingBlank(lines);
  }

  /** Lines that start and end with a non-blank line, each ending in a
      character that is not white space, are drawn as they are. */
  lemma FaceOfCleanLines(lines: seq<string>)
    requires |lines| > 0 && !AllSpace(lines[0]) && !AllSpace(lines[|lines| - 1])
    requires forall i :: 0 <= i < |lines| ==> EndsClean(lines[i])
    requires NoLineFeeds(lines)
    ensures FaceOf("\n" + Join(lines)) == Join(lines)
  {
    SplitAfterLineFeed(lines);
    DropBlankEdges(lines);
    TrimEachEndClean(lines);
  }

  /** The face drawn for any sprite is the sprite without its opening line
      feed: trimming removes only that empty first line. */
  lemma SpriteFace(mood: Ascii.Mood, blinkOn: bool)
    ensures FaceOf(Ascii.PetSprite(mood, blinkOn)) == Ascii.PetSprite(mood, blinkOn)[1..]
  {
    var t := Ascii.Template(mood, Ascii.EyeGlyph(blinkOn));
    TemplateEnds(mood, Ascii.EyeGlyph(blinkOn));
    Ascii.TemplateHasNoLineFeeds(mood, Ascii.EyeGlyph(blinkOn));
    FaceOfCleanLines(t);
  }

  // ---------------------------------------------------------------------------
  // Bar pulses: each render records every bar's drawn percentage, and a bar
  // whose percentage moved by 5 or more since the last render pulses.

  function Abs(x: int): int { if x < 0 then -x else x }

  predicate Fires(last: map<string, int>, bar: Bar) {
    bar.key in last && Abs(BarPercent(bar.value) - last[bar.key]) >= 5
  }

  /** The recorded percentages and the keys pulsed, in order. */
  datatype Sync = Sync(last: map<string, int>, pulsed: seq<string>)

  /** The `forEach` over the bars, one bar after the other. */
  function Synced(last: map<string, int>, bars: seq<Bar>): Sync
    decreases |bars|
  {
    if bars == [] then Sync(last, [])
    else
      var rest := Synced(last[bars[0].key := BarPercent(bars[0].value)], bars[1..]);
      Sync(rest.last, (if Fires(last, bars[0]) then [bars[0].key] else []) + rest.pulsed)
  }

  /** Reference definition: the bars whose change against `last` reaches 5. */
  function PulsedKeys(last: map<string, int>, bars: seq<Bar>): seq<string>
    decreases |bars|
  {
    if bars == [] then []
    else (if Fires(last, bars[0]) then [bars[0].key] else []) + PulsedKeys(last, bars[1..])
  }

  /** One bar of the pass: the rest of the pass runs on the updated record. */
  lemma SyncedStep(last: map<string, int>, bars: seq<Bar>, i: int)
    requires 0 <= i < |bars|
    ensures var r := Synced(last[bars[i].key := BarPercent(bars[i].value)], bars[i + 1..]);
      Synced(last, bars[i..]) ==
        Sync(r.last, (if Fires(last, bars[i]) then [bars[i].key] else []) + r.pulsed)
  {
    assert bars[i..][0] == bars[i] && bars[i..][1..] == bars[i + 1..];
  }

  predicate DistinctKeys(bars: seq<Bar>) {
    forall i, j :: 0 <= i < j < |bars| ==> bars[i].key != bars[j].key
  }

  function KeySet(bars: seq<Bar>): set<string> {
    set i | 0 <= i < |bars| :: bars[i].key
  }

  lemma {:induction false} PulsedKeysAgree(l1: map<string, int>, l2: map<string, int>, bars: seq<Bar>)
    requires forall i :: 0 <= i < |bars| ==>
      (bars[i].key in l1 <==> bars[i].key in l2) && (bars[i].key in l1 ==> l1[bars[i].key] == l2[bars[i].key])
    ensures PulsedKeys(l1, bars) == PulsedKeys(l2, bars)
    decreases |bars|
  {
    if bars != [] {
      PulsedKeysAgree(l1, l2, bars[1..]);
    }
  }

  lemma KeySetCons(bars: seq<Bar>)
    requires |bars| > 0
    ensures KeySet(bars) == {bars[0].key} + KeySet(bars[1..])
  {
    forall k | k in KeySet(bars) ensures k in {bars[0].key} + KeySet(bars[1..]) {
      var i :| 0 <= i < |bars| && bars[i].key == k;
      if i > 0 { assert bars[1..][i - 1].key == k; }
    }
    forall k | k in KeySet(bars[1..]) ensures k in KeySet(bars) {
      var i :| 0 <= i < |bars[1..]| && bars[1..][i].key == k;
      assert bars[i + 1].key == k;
    }
  }

  lemma DistinctTail(bars: seq<Bar>)
    requires |bars| > 0 && DistinctKeys(bars)
    ensures DistinctKeys(bars[1..])
    ensures forall i :: 0 <= i < |bars[1..]| ==> bars[1..][i].key != bars[0].key
  {
    forall i | 0 <= i < |bars[1..]| ensures bars[1..][i].key != bars[0].key {
      assert bars[1..][i] == bars[i + 1];
    }
  }

  lemma {:induction false} SyncPulses(last: map<string, int>, bars: seq<Bar>)
    requires DistinctKeys(bars)
    ensures Synced(last, bars).pulsed == PulsedKeys(last, bars)
    decreases |bars|
  {
    if bars != [] {
      var next := last[bars[0].key := BarPercent(bars[0].value)];
      DistinctTail(bars);
      SyncPulses(next, bars[1..]);
      PulsedKeysAgree(next, last, bars[1..]);
    }
  }

  lemma {:induction false} SyncKeys(last: map<string, int>, bars: seq<Bar>)
    ensures Synced(last, bars).last.Keys == last.Keys + KeySet(bars)
    decreases |bars|
  {
    if bars == [] {
      assert KeySet(bars) == {};
    } else {
      var next := last[bars[0].key := BarPercent(bars[0].value)];
      SyncKeys(next, bars[1..]);
      KeySetCons(bars);
    }
  }

  lemma {:induction false} SyncKeepsOthers(last: map<string, int>, bars: seq<Bar>, k: string)
    requires k in last && k !in KeySet(bars)
    ensures k in Synced(last, bars).last && Synced(last, bars).last[k] == last[k]
    decreases |bars|
  {
    if bars != [] {
      var next := last[bars[0].key := BarPercent(bars[0].value)];
      KeySetCons(bars);
      SyncKeepsOthers(next, bars[1..], k);
    }
  }

  lemma {:induction false} SyncRecords(last: map<string, int>, bars: seq<Bar>, i: int)
    requires DistinctKeys(bars) && 0 <= i < |bars|
    ensures bars[i].key in Synced(last, bars).last
    ensures Synced(last, bars).last[bars[i].key] == BarPercent(bars[i].value)
    decreases |bars|
  {
    var next := last[bars[0].key := BarPercent(bars[0].value)];
    DistinctTail(bars);
    if i > 0 {
      SyncRecords(next, bars[1..], i - 1);
      assert bars[1..][i - 1] == bars[i];
    } else {
      KeySetCons(bars);
      assert bars[0].key !in KeySet(bars[1..]);
      SyncKeepsOthers(next, bars[1..], bars[0].key);
    }
  }

  /** With distinct keys, one pass pulses exactly the bars that moved by 5 or
      more against the previous render, records every bar's percentage, and
      keeps every other key's entry. */
  lemma SyncSpec(last: map<string, int>, bars: seq<Bar>)
    requires DistinctKeys(bars)
    ensures var r := Synced(last, bars);
      && r.pulsed == PulsedKeys(last, bars)
      && r.last.Keys == last.Keys + KeySet(bars)
      && (forall i :: 0 <= i < |bars| ==> r.last[bars[i].key] == BarPercent(bars[i].value))
      && (forall k :: k in last && k !in KeySet(bars) ==> r.last[k] == last[k])
  {
    SyncPulses(last, bars);
    SyncKeys(last, bars);
    forall i | 0 <= i < |bars| ensures Synced(last, bars).last[bars[i].key] == BarPercent(bars[i].value) {
      SyncRecords(last, bars, i);
    }
    forall k | k in last && k !in KeySet(bars) ensures Synced(last, bars).last[k] == last[k] {
      SyncKeepsOthers(last, bars, k);
    }
  }

  lemma {:induction false} SettledBarsDoNotPulse(last: map<string, int>, bars: seq<Bar>)
    requires forall i :: 0 <= i < |bars| ==> bars[i].key in last && last[bars[i].key] == BarPercent(bars[i].value)
    ensures PulsedKeys(last, bars) == []
    decreases |bars|
  {
    if bars != [] {
      SettledBarsDoNotPulse(last, bars[1..]);
    }
  }

  /** The first render pulses nothing, and a render that sees the same values
      as the one before pulses nothing either. */
  lemma PulsesNeedChange(last: map<string, int>, bars: seq<Bar>)
    requires DistinctKeys(bars)
    ensures var r := Synced(map[], bars); r.pulsed == []
    ensures var r := Synced(last, bars); Synced(r.last, bars).pulsed == []
  {
    SyncSpec(map[], bars);
    SyncSpec(last, bars);
    var r := Synced(last, bars);
    SyncSpec(r.last, bars);
    SettledBarsDoNotPulse(r.last, bars);
    assert PulsedKeys(map[], bars) == [] by {
      EmptyNeverFires(bars);
    }
  }

  lemma {:induction false} EmptyNeverFires(bars: seq<Bar>)
    ensures PulsedKeys(map[], bars) == []
    decreases |bars|
  {
    if bars != [] {
      EmptyNeverFires(bars[1..]);
    }
  }

  /** The six bars of the view have distinct keys. */
  lemma ViewBarsDistinct(p: Pet, agePercent: int, health: int)
    ensures DistinctKeys(Bars(p, agePercent, health))
  {
  }

  // ---------------------------------------------------------------------------
  // The controller

  /** Holds the current pet (`setPet`), the storage slot (`save` writes it) and
      the last percentage drawn for each stat bar. */
  class PetController {
    var pet: Pet
    var saved: Snapshot
    var lastValues: map<string, int>

    /** After every tick or action the storage slot holds the current pet. */
    ghost predicate Persisted()
      reads this
    {
      saved == Stored(Save(pet))
    }

    /** Mounting: the pet is whatever `load` makes of the slot. */
    constructor (stored: Snapshot, now: int, today: string)
      ensures pet == Load(stored, now, today) && saved == stored && lastValues == map[]
    {
      pet := Load(stored, now, today);
      saved := stored;
      lastValues := map[];
    }

    method Tick(now: int, today: string)
      modifies this`pet, this`saved
      ensures pet == Decay(old(pet), now, today) && Persisted()
      ensures InRange(pet) && pet.name == old(pet).name && pet.born == old(pet).born
    {
      pet := Decay(pet, now, today);
      saved := Stored(Save(pet));
      DecayFrame(old(pet), now, today);
    }

    method Feed()
      modifies this`pet, this`saved
      ensures pet == PetModel.Feed(old(pet)) && Persisted()
    {
      pet := PetModel.Feed(pet);
      saved := Stored(Save(pet));
    }

    method Play()
      modifies this`pet, this`saved
      ensures pet == PetModel.Play(old(pet)) && Persisted()
    {
      pet := PetModel.Play(pet);
      saved := Stored(Save(pet));
    }

    method CleanUp()
      modifies this`pet, this`saved
      ensures pet == PetModel.CleanUp(old(pet)) && Persisted()
    {
      pet := PetModel.CleanUp(pet);
      saved := Stored(Save(pet));
    }

    method Sleep()
      modifies this`pet, this`saved
      ensures pet == PetModel.Sleep(old(pet)) && Persisted()
    {
      pet := PetModel.Sleep(pet);
      saved := Stored(Save(pet));
    }

    /** `input` is what the prompt returned, `None` when it was cancelled. */
    method Rename(input: Option<string>)
      modifies this`pet, this`saved
      ensures RenameApplies(input) ==> pet == old(pet).(name := Trim(input.value)) && Persisted()
      ensures !RenameApplies(input) ==> pet == old(pet) && saved == old(saved)
    {
      var name := TrimmedInput(input);
      if name != "" {
        pet := pet.(name := name);
        saved := Stored(Save(pet));
      }
    }

    method Reset(now: int, today: string)
      modifies this`pet, this`saved
      ensures pet == DefaultPet(now, today) && Persisted()
    {
      var n := DefaultPet(now, today);
      saved := Stored(Save(n));
      pet := n;
    }

    /** The render effect over the bars: records each bar's percentage and
      returns the keys that pulse, in order. */
    method SyncBars(bars: seq<Bar>) returns (pulsed: seq<string>)
      modifies this`lastValues
      ensures Sync(lastValues, pulsed) == Synced(old(lastValues), bars)
    {
      pulsed := [];
      var i := 0;
      while i < |bars|
        invariant 0 <= i <= |bars|
        invariant var r := Synced(lastValues, bars[i..]);
          Sync(r.last, pulsed + r.pulsed) == Synced(old(lastValues), bars)
      {
        var key := bars[i].key;
        var pct := BarPercent(bars[i].value);
        ghost var fired := if Fires(lastValues, bars[i]) then [key] else [];
        ghost var r := Synced(lastValues[key := pct], bars[i + 1..]);
        SyncedStep(lastValues, bars, i);
        assert pulsed + (fired + r.pulsed) == (pulsed + fired) + r.pulsed;
        if key in lastValues && Abs(pct - lastValues[key]) >= 5 {
          pulsed := pulsed + [key];
        } else {
          assert pulsed + fired == pulsed;
        }
        lastValues := lastValues[key := pct];
        i := i + 1;
      }
    }

    /** What the widget shows now, given the birth day's time stamp. */
    function View(now: int, bornMs: int): View
      reads this
    {
      Project(pet, now, bornMs)
    }
  }

  /** Reopening after any tick or action restores the pet that was showing
      (the snapshot holds it and `load` gives it back), provided its birth day
      is not empty. */
  lemma ReopenRestores(c: PetController, now: int, today: string)
    requires c.Persisted() && c.pet.born != ""
    ensures Load(c.saved, now, today) == c.pet
  {
    LoadSaveRoundTrip(c.pet, now, today);
  }
}
