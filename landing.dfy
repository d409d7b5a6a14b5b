/** The toy pet on the landing page: two counters, `happy` and `score`, three
    buttons that raise them, a mood label with four thresholds and the XP
    read-out padded to four digits. */
module Landing {
  import opened JsStrings
  import PetModel

  /** The two module-level counters. */
  datatype Counters = Counters(score: int, happy: int)

  const Initial: Counters := Counters(1, 50)

  predicate IsAction(act: string) {
    act == "feed" || act == "play" || act == "clean"
  }

  /** One click on a button whose `data-action` is `act`; any other value,
      including a missing one, changes neither counter. */
  function Step(c: Counters, act: string): Counters {
    if act == "feed" then Counters(c.score + 2, PetModel.MinI(100, c.happy + 8))
    else if act == "play" then Counters(c.score + 3, PetModel.MinI(100, c.happy + 6))
    else if act == "clean" then Counters(c.score + 1, PetModel.MinI(100, c.happy + 4))
    else c
  }

  /** `happy` never falls and never passes 100 (from at most 100), and `score`
      rises with every recognised click and only then. */
  lemma StepMonotone(c: Counters, act: string)
    requires c.happy <= 100
    ensures c.happy <= Step(c, act).happy <= 100
    ensures IsAction(act) ==> Step(c, act).score > c.score
    ensures !IsAction(act) ==> Step(c, act) == c
  {
  }

  /** A run of clicks, in order. */
  function Run(c: Counters, acts: seq<string>): Counters
    decreases |acts|
  {
    if acts == [] then c else Run(Step(c, acts[0]), acts[1..])
  }

  function Recognised(acts: seq<string>): nat
    decreases |acts|
  {
    if acts == [] then 0 else (if IsAction(acts[0]) then 1 else 0) + Recognised(acts[1..])
  }

  lemma {:induction false} RunBounds(c: Counters, acts: seq<string>)
    requires c.happy <= 100
    ensures c.happy <= Run(c, acts).happy <= 100
    ensures Run(c, acts).score >= c.score + Recognised(acts)
    decreases |acts|
  {
    if acts != [] {
      StepMonotone(c, acts[0]);
      RunBounds(Step(c, acts[0]), acts[1..]);
    }
  }

  /** `setMood`'s label. */
  function MoodLabel(happy: int): string {
    if happy > 70 then "Vibing" else if happy > 45 then "Chill" else if happy > 20 then "Meh" else "Grumpy"
  }

  lemma MoodLabelBands(happy: int)
    ensures MoodLabel(happy) == "Vibing" <==> happy > 70
    ensures MoodLabel(happy) == "Chill" <==> 45 < happy <= 70
    ensures MoodLabel(happy) == "Meh" <==> 20 < happy <= 45
    ensures MoodLabel(happy) == "Grumpy" <==> happy <= 20
  {
  }

  /** Whatever is clicked, the page only ever says "Chill" or "Vibing": `happy`
      starts at 50 and never falls, so "Meh" and "Grumpy" are unreachable. */
  lemma ReachableMoods(acts: seq<string>)
    ensures var c := Run(Initial, acts);
      && 50 <= c.happy <= 100 && c.score >= 1 + Recognised(acts)
      && (MoodLabel(c.happy) == "Chill" || MoodLabel(c.happy) == "Vibing")
  {
    RunBounds(Initial, acts);
  }

  function MoodText(happy: int): string {
    "Mood: " + MoodLabel(happy)
  }

  lemma ChillOrVibing(happy: int)
    requires 45 < happy
    ensures MoodText(happy) == "Mood: Chill" || MoodText(happy) == "Mood: Vibing"
  {
    if happy > 70 {
      assert MoodText(happy) == "Mood: " + "Vibing";
    } else {
      assert MoodText(happy) == "Mood: " + "Chill";
    }
  }

  /** `XP: ${String(score).padStart(4,'0')}`. */
  function XpText(score: int): string {
    "XP: " + PadStart(IntString(score), 4, '0')
  }

  /** For a non-negative score the XP text is "XP: " and then the score's
      digits, left-padded with zeros to four characters (more digits are shown
      as they are), and reading the digits back gives the score. */
  lemma XpTextSpec(score: nat)
    ensures var t := XpText(score);
      && t[..4] == "XP: "
      && |t| == 4 + (if |NatDigits(score)| >= 4 then |NatDigits(score)| else 4)
      && (|NatDigits(score)| >= 4 ==> t == "XP: " + NatDigits(score))
      && (forall i :: 4 <= i < |t| - |NatDigits(score)| ==> t[i] == '0')
      && AllDigits(t[4..]) && DigitsValue(t[4..]) == score
  {
    var d := NatDigits(score);
    var padded := PadStart(d, 4, '0');
    var z := padded[..|padded| - |d|];
    assert padded == z + d;
    LeadingZeros(z, d);
    DigitsRoundTrip(score);
    assert XpText(score)[4..] == padded;
  }

  lemma InitialTexts()
    ensures MoodText(Initial.happy) == "Mood: Chill"
    ensures XpText(Initial.score) == "XP: 0001"
  {
    assert NatDigits(1) == "1";
    assert PadStart("1", 4, '0') == "0001";
  }

  /** The page's state: the two counters and the two texts `setMood` writes. */
  class LandingPet {
    var score: int
    var happy: int
    var moodText: string
    var xpText: string

    /** Holds on every reachable state: the texts show the counters, `happy`
        stays in [50, 100] and `score` is positive. */
    ghost predicate Valid()
      reads this
    {
      && 50 <= happy <= 100 && score >= 1
      && moodText == MoodText(happy) && xpText == XpText(score)
    }

    /** Script start: `score = 1`, `happy = 50`, then `setMood()`. */
    constructor ()
      ensures score == 1 && happy == 50 && Valid()
      ensures moodText == "Mood: Chill" && xpText == "XP: 0001"
    {
      score := 1;
      happy := 50;
      moodText := MoodText(50);
      xpText := XpText(1);
      InitialTexts();
    }

    method SetMood()
      modifies this`moodText, this`xpText
      ensures moodText == MoodText(happy) && xpText == XpText(score)
    {
      var caption := if happy > 70 then "Vibing" else if happy > 45 then "Chill" else if happy > 20 then "Meh" else "Grumpy";
      moodText := "Mood: " + caption;
      xpText := "XP: " + PadStart(IntString(score), 4, '0');
    }

    /** The click handler. */
    method Click(act: string)
      requires Valid()
      modifies this
      ensures Counters(score, happy) == Step(old(Counters(score, happy)), act)
      ensures old(happy) <= happy <= 100
      ensures IsAction(act) ==> score > old(score)
      ensures Valid()
      ensures moodText == "Mood: Chill" || moodText == "Mood: Vibing"
    {
      ghost var before := Counters(score, happy);
      if act == "feed" { happy := PetModel.MinI(100, happy + 8); score := score + 2; }
      if act == "play" { happy := PetModel.MinI(100, happy + 6); score := score + 3; }
      if act == "clean" { happy := PetModel.MinI(100, happy + 4); score := score + 1; }
      assert Counters(score, happy) == Step(before, act);
      StepMonotone(before, act);
      SetMood();
      ChillOrVibing(happy);
    }
  }
}
