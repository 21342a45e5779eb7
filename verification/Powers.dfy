/** src/game.hpp and src/game.cpp: which emoji have a power, and when two of them are the same one. */
module Powers {
  import opened Basics

  datatype Power =
    | Pleading | Rocket | Bolt | Lobster | Poo | Bomb | Nuke | Dog | Balloon | Mailbox
    | Ninja | Alarm | Pirate | Seed | Hen | Ice | Fire | Hourglass | Dino | Salt

  datatype Kind = Home | Carried | Thrown

  function KindOf(power: Power): Kind {
    match power
    case Pleading | Dog | Mailbox | Alarm | Hen | Dino | Salt => Home
    case Poo | Bomb | Nuke | Seed | Ice => Thrown
    case _ => Carried
  }

  /** What a power's emoji comes down to, without colour and skin tone, in UTF-8. The two flags are poo as well. */
  function Marks(): seq<(string, Power)> {[
    ("\U{F0}\U{9F}\U{A5}\U{BA}", Pleading),
    ("\U{F0}\U{9F}\U{9A}\U{80}", Rocket),
    ("\U{E2}\U{9A}\U{A1}", Bolt),
    ("\U{F0}\U{9F}\U{A6}\U{9E}", Lobster),
    ("\U{F0}\U{9F}\U{92}\U{A9}", Poo),
    ("\U{F0}\U{9F}\U{87}\U{B7}\U{F0}\U{9F}\U{87}\U{BA}", Poo),
    ("\U{F0}\U{9F}\U{87}\U{AE}\U{F0}\U{9F}\U{87}\U{B1}", Poo),
    ("\U{F0}\U{9F}\U{92}\U{A3}", Bomb),
    ("\U{E2}\U{98}\U{A2}", Nuke),
    ("\U{F0}\U{9F}\U{90}\U{B6}", Dog),
    ("\U{F0}\U{9F}\U{8E}\U{88}", Balloon),
    ("\U{F0}\U{9F}\U{93}\U{AE}", Mailbox),
    ("\U{F0}\U{9F}\U{A5}\U{B7}", Ninja),
    ("\U{F0}\U{9F}\U{94}\U{8A}", Alarm),
    ("\U{F0}\U{9F}\U{8F}\U{B4}\U{E2}\U{80}\U{8D}\U{E2}\U{98}\U{A0}", Pirate),
    ("\U{F0}\U{9F}\U{92}\U{A6}", Seed),
    ("\U{F0}\U{9F}\U{90}\U{94}", Hen),
    ("\U{F0}\U{9F}\U{A7}\U{8A}", Ice),
    ("\U{F0}\U{9F}\U{94}\U{A5}", Fire),
    ("\U{E2}\U{8F}\U{B3}", Hourglass),
    ("\U{F0}\U{9F}\U{A6}\U{96}", Dino),
    ("\U{F0}\U{9F}\U{A7}\U{82}", Salt)
  ]}

  const BALLOON := "\U{F0}\U{9F}\U{8E}\U{88}"
  const NUKE := "\U{E2}\U{98}\U{A2}"

  /** Every copy of the mark taken out of the text. */
  function Without(text: string, mark: string): string
    requires mark != ""
  {
    if text == "" then ""
    else if mark <= text then Without(text[|mark|..], mark)
    else [text[0]] + Without(text[1..], mark)
  }

  /** without_variation: the same emoji whether or not it asks to be drawn in colour. */
  function Plain(emoji: string): string {
    if emoji == "" then ""
    else if "\U{EF}\U{B8}\U{8F}" <= emoji || "\U{EF}\U{B8}\U{8E}" <= emoji then Plain(emoji[3..])
    else [emoji[0]] + Plain(emoji[1..])
  }

  /** The five tones of skin. */
  function Tones(): seq<string> {[
    "\U{F0}\U{9F}\U{8F}\U{BB}", "\U{F0}\U{9F}\U{8F}\U{BC}", "\U{F0}\U{9F}\U{8F}\U{BD}",
    "\U{F0}\U{9F}\U{8F}\U{BE}", "\U{F0}\U{9F}\U{8F}\U{BF}"
  ]}

  /** without_tone: one tone after the other. */
  function Untoned(emoji: string, tones: nat): string
    requires tones <= |Tones()|
  {
    if tones == 0 then emoji else Without(Untoned(emoji, tones - 1), Tones()[tones - 1])
  }

  function Bare(emoji: string): string {
    Untoned(Plain(emoji), |Tones()|)
  }

  /** power_of: the first power whose emoji it is. */
  function PowerOf(emoji: string): Option<Power> {
    Marked(Bare(emoji), 0)
  }

  function Marked(bare: string, from: nat): Option<Power>
    requires from <= |Marks()|
    decreases |Marks()| - from
  {
    if from == |Marks()| then None
    else if Marks()[from].0 == bare then Some(Marks()[from].1)
    else Marked(bare, from + 1)
  }

  predicate IsPower(emoji: string, power: Power) {
    PowerOf(emoji) == Some(power)
  }

  predicate IsThrown(emoji: string) {
    PowerOf(emoji).Some? && KindOf(PowerOf(emoji).value) == Thrown
  }

  predicate WorksOnHim(emoji: string) {
    PowerOf(emoji).Some? && KindOf(PowerOf(emoji).value) == Carried
  }

  predicate SameEmoji(one: string, other: string) {
    Plain(one) == Plain(other)
  }

  /** The two loops over the emoji: the colour selectors left out. */
  method WithoutVariation(emoji: string) returns (plain: string)
    ensures plain == Plain(emoji)
  {
    plain := "";
    var view := emoji;
    while view != ""
      invariant plain + Plain(view) == Plain(emoji)
      decreases |view|
    {
      if "\U{EF}\U{B8}\U{8F}" <= view || "\U{EF}\U{B8}\U{8E}" <= view {
        view := view[3..];
      } else {
        plain := plain + [view[0]];
        view := view[1..];
      }
    }
  }

  // ---------------------------------------------------------------- children

  /** child_emoji: what a child looks like at each of its four ages, and nothing once it has lived them all. */
  function ChildEmoji(male: bool, age: int): string {
    match age
    case 0 => "\U{F0}\U{9F}\U{91}\U{B6}"
    case 1 => if male then "\U{F0}\U{9F}\U{91}\U{A6}" else "\U{F0}\U{9F}\U{91}\U{A7}"
    case 2 => if male then "\U{F0}\U{9F}\U{91}\U{A8}" else "\U{F0}\U{9F}\U{91}\U{A9}"
    case 3 => if male then "\U{F0}\U{9F}\U{91}\U{B4}" else "\U{F0}\U{9F}\U{91}\U{B5}"
    case _ => ""
  }

  ghost predicate IsChildFace(emoji: string) {
    exists male: bool, age: int :: 0 <= age < 4 && emoji == ChildEmoji(male, age)
  }

  lemma {:induction false} WithoutShorter(text: string, mark: string)
    requires |text| < |mark|
    ensures Without(text, mark) == text
  {
    if text != "" {
      WithoutShorter(text[1..], mark);
    }
  }

  lemma WithoutOther(text: string, mark: string)
    requires |text| == |mark| > 0 && text != mark
    ensures Without(text, mark) == text
  {
    WithoutShorter(text[1..], mark);
  }

  lemma {:induction false} NoColour(text: string)
    requires forall k | 0 <= k < |text| :: text[k] != '\U{EF}'
    ensures Plain(text) == text
  {
    if text != "" {
      NoColour(text[1..]);
    }
  }

  lemma {:induction false} UntonedStays(emoji: string, tones: nat)
    requires |emoji| == 4 && emoji[2] != '\U{8F}' && tones <= |Tones()|
    ensures Untoned(emoji, tones) == emoji
  {
    if tones > 0 {
      UntonedStays(emoji, tones - 1);
      WithoutOther(emoji, Tones()[tones - 1]);
    }
  }

  /** An emoji of four bytes that is no skin tone is already bare. */
  lemma FourBytes(emoji: string)
    requires |emoji| == 4 && emoji[2] != '\U{8F}' && forall k | 0 <= k < 4 :: emoji[k] != '\U{EF}'
    ensures Plain(emoji) == Bare(emoji) == emoji
  {
    NoColour(emoji);
    UntonedStays(emoji, |Tones()|);
  }

  lemma ChildPowerless(male: bool, age: int)
    requires 0 <= age < 4
    ensures |ChildEmoji(male, age)| == 4
    ensures PowerOf(ChildEmoji(male, age)).None?
  {
    hide Bare;
    hide Marked;
    FourBytes(ChildEmoji(male, age));
    NotMarked(ChildEmoji(male, age), 0);
  }

  /** A child has no power at any age, the balloon has its own. */
  lemma Faces()
    ensures forall male: bool, age: int | 0 <= age < 4 :: ChildEmoji(male, age) != "" && PowerOf(ChildEmoji(male, age)).None?
    ensures BALLOON != "" && PowerOf(BALLOON) == Some(Balloon)
  {
    hide Bare;
    hide Marked;
    FourBytes(BALLOON);
    BalloonMarked(0);
    forall male: bool, age: int | 0 <= age < 4
      ensures ChildEmoji(male, age) != "" && PowerOf(ChildEmoji(male, age)).None?
    {
      ChildPowerless(male, age);
    }
  }

  lemma {:induction false} BalloonMarked(from: nat)
    requires from <= 10
    ensures Marked(BALLOON, from) == Some(Balloon)
    decreases 10 - from
  {
    if from < 10 {
      BalloonMarked(from + 1);
    }
  }

  /** The nuke starts somebody over. */
  lemma NukePower()
    ensures PowerOf(NUKE) == Some(Nuke)
  {
    hide Marked;
    NoColour(NUKE);
    UntonedShort(NUKE, |Tones()|);
    NukeMarked(0);
  }

  lemma {:induction false} UntonedShort(emoji: string, tones: nat)
    requires |emoji| < 4 && tones <= |Tones()|
    ensures Untoned(emoji, tones) == emoji
  {
    if tones > 0 {
      UntonedShort(emoji, tones - 1);
      WithoutShorter(emoji, Tones()[tones - 1]);
    }
  }

  lemma {:induction false} NukeMarked(from: nat)
    requires from <= 8
    ensures Marked(NUKE, from) == Some(Nuke)
    decreases 8 - from
  {
    if from < 8 {
      NukeMarked(from + 1);
    }
  }

  /** Nothing has no power. */
  lemma NothingPower()
    ensures PowerOf("").None?
  {
    hide Marked;
    UntonedShort("", |Tones()|);
    NothingMarked(0);
  }

  lemma {:induction false} NothingMarked(from: nat)
    requires from <= |Marks()|
    ensures Marked("", from).None?
    decreases |Marks()| - from
  {
    if from < |Marks()| {
      NothingMarked(from + 1);
    }
  }

  lemma {:induction false} NotMarked(face: string, from: nat)
    requires |face| == 4 && face[2] == '\U{91}' && from <= |Marks()|
    ensures Marked(face, from).None?
    decreases |Marks()| - from
  {
    if from < |Marks()| {
      NotMarked(face, from + 1);
    }
  }
}
