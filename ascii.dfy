/** The pet's ASCII sprites: one of six fixed templates chosen by mood, with
    the eye glyph switched by a blink flag. */
module Ascii {
  import opened JsStrings

  datatype Mood = Idle | Happy | Hungry | Dirty | Sleep | Bored

  /** The open eye, U+2022 BULLET, and the closed one. */
  const OpenEye: char := '\U{2022}'
  const ShutEye: char := '-'

  function EyeGlyph(blinkOn: bool): char {
    if blinkOn then ShutEye else OpenEye
  }

  /** The three lines every template starts with. */
  const Brow: seq<string> := [
    "  .-\"\"\"\"-.",
    " /  .--.  \\",
    "|  /    \\  |"
  ]

  /** The seven lines of the template for `mood`, drawn with eye glyph `eye`:
      the three shared lines, then the four lines of the mood's face. */
  function Template(mood: Mood, eye: char): seq<string> {
    Brow + Face(mood, eye)
  }

  /** The four face lines of each mood's template. The idle face is the
      fallback of the source's chain of tests, reached by the one mood left. */
  function Face(mood: Mood, eye: char): seq<string> {
    var eyes := [eye, eye];
    match mood
    case Happy => ["| |  " + eyes + "  | |", "|  \\ -- /  |", " \\  '--'  /", "  '-.__.-'"]
    case Hungry => ["| |  " + [eye] + "_  | |", "|  \\ __/   |", " \\  '--.  /", "  '-.__\\-'"]
    case Dirty => ["| |  " + eyes + "  | |  ~", "|  \\ .. /  | ~", " \\  '--'  /  ~", "  '-.__.-'"]
    case Sleep => ["| |  - - | | z", "|  \\ __/  |  z", " \\  '--'  /   z", "  '-.__.-'"]
    case Bored => ["| |  - - | |", "|  \\ ___/  |", " \\  '--'  /", "  '-.__.-'"]
    case Idle => ["| |  " + eyes + "  | |", "|  \\ __/  |", " \\  '--'  /", "  '-.__.-'"]
  }

  /** `petSprite(mood, blinkOn)`: the template text, which opens with a line feed. */
  function PetSprite(mood: Mood, blinkOn: bool): string {
    "\n" + Join(Template(mood, EyeGlyph(blinkOn)))
  }

  lemma TemplateHasNoLineFeeds(mood: Mood, eye: char)
    requires eye != '\n'
    ensures |Template(mood, eye)| == 7 && NoLineFeeds(Template(mood, eye))
  {
    BrowNoLineFeeds();
    FaceNoLineFeeds(mood, eye);
    var t := Template(mood, eye);
    forall i | 3 <= i < 7 ensures '\n' !in t[i] {
      assert t[i] == Face(mood, eye)[i - 3];
    }
  }

  lemma BrowNoLineFeeds()
    ensures NoLineFeeds(Brow)
  {
    assert '\n' !in Brow[0] && '\n' !in Brow[1] && '\n' !in Brow[2];
  }

  lemma FaceNoLineFeeds(mood: Mood, eye: char)
    requires eye != '\n'
    ensures |Face(mood, eye)| == 4 && NoLineFeeds(Face(mood, eye))
  {
    var f := Face(mood, eye);
    assert '\n' !in f[0];
    assert '\n' !in f[1];
    assert '\n' !in f[2];
    assert '\n' !in f[3];
  }

  /** Every sprite starts with a line feed and splits into an empty first line
      followed by the seven template lines: eight lines in all. */
  lemma SpriteLines(mood: Mood, blinkOn: bool)
    ensures PetSprite(mood, blinkOn)[0] == '\n'
    ensures Split(PetSprite(mood, blinkOn)) == [""] + Template(mood, EyeGlyph(blinkOn))
    ensures |Split(PetSprite(mood, blinkOn))| == 8
  {
    var lines := Template(mood, EyeGlyph(blinkOn));
    TemplateHasNoLineFeeds(mood, EyeGlyph(blinkOn));
    SplitLeadingLineFeed(Join(lines));
    SplitJoin(lines);
  }

  /** `a` is `b` with every open eye replaced by a closed one. */
  predicate IsBlinkOf(a: string, b: string) {
    |a| == |b| && forall i :: 0 <= i < |a| ==> a[i] == (if b[i] == OpenEye then ShutEye else b[i])
  }

  lemma BlinkConcat(a1: string, b1: string, a2: string, b2: string)
    requires IsBlinkOf(a1, b1) && IsBlinkOf(a2, b2)
    ensures IsBlinkOf(a1 + a2, b1 + b2)
  {
    forall i | 0 <= i < |a1 + a2|
      ensures (a1 + a2)[i] == (if (b1 + b2)[i] == OpenEye then ShutEye else (b1 + b2)[i])
    {
      if i >= |a1| {
        assert (a1 + a2)[i] == a2[i - |a1|] && (b1 + b2)[i] == b2[i - |a1|];
      }
    }
  }

  lemma {:induction false} BlinkJoin(a: seq<string>, b: seq<string>)
    requires |a| == |b| && forall i :: 0 <= i < |a| ==> IsBlinkOf(a[i], b[i])
    ensures IsBlinkOf(Join(a), Join(b))
    decreases |a|
  {
    if |a| > 1 {
      BlinkJoin(a[1..], b[1..]);
      BlinkConcat(a[0], b[0], "\n", "\n");
      BlinkConcat(a[0] + "\n", b[0] + "\n", Join(a[1..]), Join(b[1..]));
    }
  }

  lemma BlinkFixed(s: string)
    requires OpenEye !in s
    ensures IsBlinkOf(s, s)
  {
  }

  /** An eye line: fixed text around `n` eye glyphs. */
  lemma BlinkEyeLine(pre: string, n: nat, post: string)
    requires OpenEye !in pre && OpenEye !in post
    ensures IsBlinkOf(pre + seq(n, _ => ShutEye) + post, pre + seq(n, _ => OpenEye) + post)
  {
    BlinkFixed(pre);
    BlinkFixed(post);
    BlinkConcat(pre, pre, seq(n, _ => ShutEye), seq(n, _ => OpenEye));
    BlinkConcat(pre + seq(n, _ => ShutEye), pre + seq(n, _ => OpenEye), post, post);
  }

  lemma BlinkBrow()
    ensures forall i :: 0 <= i < |Brow| ==> IsBlinkOf(Brow[i], Brow[i])
  {
    BlinkFixed(Brow[0]);
    BlinkFixed(Brow[1]);
    BlinkFixed(Brow[2]);
  }

  /** A face whose first line is an eye line and whose other lines hold no eye. */
  lemma BlinkFaceLines(a: seq<string>, b: seq<string>)
    requires |a| == |b| == 4 && IsBlinkOf(a[0], b[0]) && a[1..] == b[1..]
    requires OpenEye !in a[1] && OpenEye !in a[2] && OpenEye !in a[3]
    ensures forall i :: 0 <= i < 4 ==> IsBlinkOf(a[i], b[i])
  {
    BlinkFixed(a[1]);
    BlinkFixed(a[2]);
    BlinkFixed(a[3]);
  }

  lemma BlinkFace(mood: Mood)
    ensures |Face(mood, ShutEye)| == |Face(mood, OpenEye)| == 4
    ensures forall i :: 0 <= i < 4 ==> IsBlinkOf(Face(mood, ShutEye)[i], Face(mood, OpenEye)[i])
  {
    var a, b := Face(mood, ShutEye), Face(mood, OpenEye);
    var two, one := seq(2, _ => ShutEye), seq(1, _ => ShutEye);
    var open2, open1 := seq(2, _ => OpenEye), seq(1, _ => OpenEye);
    assert two == [ShutEye, ShutEye] && open2 == [OpenEye, OpenEye];
    assert one == [ShutEye] && open1 == [OpenEye];
    match mood
    case Happy =>
      BlinkEyeLine("| |  ", 2, "  | |");
      BlinkFaceLines(a, b);
    case Dirty =>
      BlinkEyeLine("| |  ", 2, "  | |  ~");
      BlinkFaceLines(a, b);
    case Idle =>
      BlinkEyeLine("| |  ", 2, "  | |");
      BlinkFaceLines(a, b);
    case Hungry =>
      BlinkEyeLine("| |  ", 1, "_  | |");
      BlinkFaceLines(a, b);
    case Sleep =>
      BlinkFixed(a[0]);
      BlinkFaceLines(a, b);
    case Bored =>
      BlinkFixed(a[0]);
      BlinkFaceLines(a, b);
  }

  lemma BlinkTemplate(mood: Mood)
    ensures |Template(mood, ShutEye)| == |Template(mood, OpenEye)|
    ensures forall i :: 0 <= i < |Template(mood, ShutEye)| ==>
      IsBlinkOf(Template(mood, ShutEye)[i], Template(mood, OpenEye)[i])
  {
    BlinkBrow();
    BlinkFace(mood);
    var a, b := Template(mood, ShutEye), Template(mood, OpenEye);
    forall i | 0 <= i < |a| ensures IsBlinkOf(a[i], b[i]) {
      if i >= 3 {
        assert a[i] == Face(mood, ShutEye)[i - 3] && b[i] == Face(mood, OpenEye)[i - 3];
      }
    }
  }

  /** Blinking changes nothing but the eyes: the blink frame has the same
      length, and differs from the open-eyed frame exactly where the open
      frame shows an open eye, which becomes '-'. */
  lemma BlinkOnlyChangesEyes(mood: Mood)
    ensures IsBlinkOf(PetSprite(mood, true), PetSprite(mood, false))
    ensures |Split(PetSprite(mood, true))| == |Split(PetSprite(mood, false))|
  {
    BlinkTemplate(mood);
    BlinkJoin(Template(mood, ShutEye), Template(mood, OpenEye));
    BlinkConcat("\n", "\n", Join(Template(mood, ShutEye)), Join(Template(mood, OpenEye)));
    SpriteLines(mood, true);
    SpriteLines(mood, false);
  }

  /** The eye line of a mood with eyes changes when the eyes close. */
  lemma EyeLineBlinks(mood: Mood)
    requires mood != Sleep && mood != Bored
    ensures Template(mood, ShutEye)[3] != Template(mood, OpenEye)[3]
  {
    assert Template(mood, ShutEye)[3] == Face(mood, ShutEye)[0];
    assert Template(mood, OpenEye)[3] == Face(mood, OpenEye)[0];
    assert Face(mood, ShutEye)[0][5] != Face(mood, OpenEye)[0][5];
  }

  /** The sleep and bored sprites have no eye glyph, so the blink flag does not
      change them; every other sprite shows its eyes and changes when it blinks. */
  lemma BlinkChangesSpriteIff(mood: Mood)
    ensures PetSprite(mood, true) == PetSprite(mood, false) <==> mood == Sleep || mood == Bored
  {
    if mood == Sleep || mood == Bored {
      assert Face(mood, ShutEye) == Face(mood, OpenEye);
    } else {
      SpriteLines(mood, true);
      SpriteLines(mood, false);
      EyeLineBlinks(mood);
      var a, b := [""] + Template(mood, ShutEye), [""] + Template(mood, OpenEye);
      assert a[4] != b[4];
    }
  }

  /** The mouth line, the fifth line of each template, is told apart by mood alone. */
  lemma MouthLineDistinct(m1: Mood, m2: Mood, e1: char, e2: char)
    requires m1 != m2
    ensures Template(m1, e1)[4] != Template(m2, e2)[4]
  {
    var a, b := Template(m1, e1)[4], Template(m2, e2)[4];
    if |a| == |b| {
      if {m1, m2} == {Happy, Hungry} || {m1, m2} == {Bored, Happy} {
        assert a[5] != b[5];
      } else if {m1, m2} == {Hungry, Bored} {
        assert a[7] != b[7];
      } else if {m1, m2} == {Dirty, Sleep} {
        assert a[5] != b[5];
      }
    }
  }

  /** For a fixed blink flag the six moods draw six different sprites. */
  lemma DistinctMoodsDistinctSprites(m1: Mood, m2: Mood, blinkOn: bool)
    requires m1 != m2
    ensures PetSprite(m1, blinkOn) != PetSprite(m2, blinkOn)
  {
    SpriteLines(m1, blinkOn);
    SpriteLines(m2, blinkOn);
    MouthLineDistinct(m1, m2, EyeGlyph(blinkOn), EyeGlyph(blinkOn));
    assert Split(PetSprite(m1, blinkOn))[5] != Split(PetSprite(m2, blinkOn))[5];
  }
}
