/** src/commands.cpp: the lines the game understands, and the commands the retired ones turned into. */
module Grammar {
  import opened Basics
  import opened Text
  import opened Numbers
  import opened Emoji

  const RAID := "We "
  const PLACE := "@TheConquister37"
  const TRIGGER := "We @TheConquister37"

  // ---------------------------------------------------------------- words

  /** What separates one word from the next. */
  predicate Separates(c: char) {
    c == ' ' || c == '\t' || c == '\r' || c == '\n'
  }

  predicate IsBlank(c: char) {
    c == ' ' || c == '\t'
  }

  /** How many characters the first word has. */
  function WordEnd(text: string): (end: nat)
    ensures end <= |text|
    ensures end < |text| ==> Separates(text[end])
    ensures forall k | 0 <= k < end :: !Separates(text[k])
  {
    if text == "" || Separates(text[0]) then 0 else 1 + WordEnd(text[1..])
  }

  /** The first blank, or the end. */
  function FirstBlank(text: string): (at: nat)
    ensures at <= |text|
    ensures at < |text| ==> IsBlank(text[at])
    ensures forall k | 0 <= k < at :: !IsBlank(text[k])
  {
    if text == "" || IsBlank(text[0]) then 0 else 1 + FirstBlank(text[1..])
  }

  /** The last blank, if there is one. */
  function LastBlank(text: string): (at: Option<nat>)
    ensures at.Some? ==> at.value < |text| && IsBlank(text[at.value])
    ensures at.Some? ==> forall k | at.value < k < |text| :: !IsBlank(text[k])
    ensures at.None? ==> forall k | 0 <= k < |text| :: !IsBlank(text[k])
  {
    if text == "" then None
    else if IsBlank(text[|text| - 1]) then Some(|text| - 1)
    else LastBlank(text[..|text| - 1])
  }

  // ---------------------------------------------------------------- the four parsers

  /** valid_raid_target: one name, with at most the mention in front. */
  predicate IsName(target: string) {
    && target != "" && target != "@"
    && (forall k | 0 <= k < |target| :: !Separates(target[k]))
    && (forall k | 1 <= k < |target| :: target[k] != '@')
  }

  /** raid_target: the name alone, nothing for any other line. */
  function RaidTarget(message: string): string {
    if RAID <= message && message != TRIGGER && IsName(message[|RAID|..]) then message[|RAID|..] else ""
  }

  /** "We name ...": the name, and whatever follows it from the separator on. */
  datatype Named = Named(target: string, rest: string)

  function NamedLine(message: string): Option<Named> {
    if !(RAID <= message) then None else
    var line := message[|RAID|..];
    var end := WordEnd(line);
    if end == |line| || !IsName(line[..end]) then None else Some(Named(line[..end], line[end..]))
  }

  datatype Amount = Amount(target: string, amount: int)

  /** amount_target. */
  function AmountTarget(message: string): Option<Amount> {
    var line :- NamedLine(message);
    var amount :- ParseInt64(line.rest);
    Some(Amount(line.target, amount))
  }

  datatype Move = Move(target: string, from: int, to: int)

  /** slot_move. */
  function SlotMove(message: string): Option<Move> {
    var line :- NamedLine(message);
    var slots := Trim(line.rest);
    var blank := FirstBlank(slots);
    if blank == |slots| then None else
    var from :- ParseInt64(slots[..blank]);
    var to :- ParseInt64(slots[blank + 1..]);
    Some(Move(line.target, from, to))
  }

  datatype Parcel = Parcel(target: string, emoji: string, position: Option<int>)

  /** The emoji and the slot after it, if one is. */
  function EmojiAndSlot(text: string): (string, Option<int>) {
    match LastBlank(text)
    case None => (text, None)
    case Some(blank) =>
      match ParseInt64(text[blank + 1..])
      case None => (text, None)
      case Some(position) => (Trim(text[..blank]), Some(position))
  }

  /** emoji_target. */
  function EmojiTarget(message: string): Option<Parcel> {
    var line :- NamedLine(message);
    var carried := EmojiAndSlot(Trim(line.rest));
    if ParseInt64(carried.0).Some? || Split(carried.0).None? then None
    else Some(Parcel(line.target, carried.0, carried.1))
  }

  lemma WordEnds(word: string, rest: string)
    requires forall k | 0 <= k < |word| :: !Separates(word[k])
    requires rest != "" ==> Separates(rest[0])
    ensures WordEnd(word + rest) == |word|
  {
    forall k | 0 <= k < |word|
      ensures !Separates((word + rest)[k])
    {
    }
    assert rest != "" ==> (word + rest)[|word|] == rest[0];
  }

  lemma NamedParts(message: string)
    ensures var line := NamedLine(message);
            line.Some? ==> message == RAID + line.value.target + line.value.rest && IsName(line.value.target)
                           && line.value.rest != "" && Separates(line.value.rest[0])
  {
    hide IsName;
    if RAID <= message {
      var line := message[|RAID|..];
      var end := WordEnd(line);
      assert message == RAID + line && line == line[..end] + line[end..];
      assert RAID + line[..end] + line[end..] == RAID + (line[..end] + line[end..]);
    }
  }

  lemma NamedWhole(target: string, rest: string)
    requires IsName(target) && rest != "" && Separates(rest[0])
    ensures NamedLine(RAID + target + rest) == Some(Named(target, rest))
  {
    var message, line := RAID + target + rest, target + rest;
    assert message == RAID + line;
    WordEnds(target, rest);
    assert message[|RAID|..] == line && line[..|target|] == target && line[|target|..] == rest;
  }

  /** A line names somebody exactly when it is "We ", his name, and something after it that begins with a separator. */
  lemma NamedExactly(message: string, target: string, rest: string)
    ensures NamedLine(message) == Some(Named(target, rest)) <==>
              message == RAID + target + rest && IsName(target) && rest != "" && Separates(rest[0])
  {
    hide IsName; hide NamedLine;
    NamedParts(message);
    if IsName(target) && rest != "" && Separates(rest[0]) {
      NamedWhole(target, rest);
    }
  }

  /** A line is about so many palle exactly when what follows the name is that number and nothing else. */
  lemma AmountExactly(message: string, target: string, amount: int)
    ensures AmountTarget(message) == Some(Amount(target, amount)) <==>
              exists rest :: rest != "" && Separates(rest[0]) && message == RAID + target + rest && IsName(target)
                             && ParseInt64(rest) == Some(amount)
  {
    hide NamedLine; hide IsName; hide ParseInt64;
    var line := NamedLine(message);
    if line.Some? {
      NamedExactly(message, line.value.target, line.value.rest);
    }
    forall rest | rest != "" && Separates(rest[0]) && message == RAID + target + rest && IsName(target)
      ensures line == Some(Named(target, rest))
    {
      NamedExactly(message, target, rest);
    }
  }

  // ---------------------------------------------------------------- no line is two things

  lemma NoBlanks(text: string)
    requires forall k | 0 <= k < |text| :: !IsBlank(text[k])
    ensures FirstBlank(text) == |text| && LastBlank(text).None?
  {
  }

  lemma NumberChars(text: string)
    requires ParseInt64(text).Some?
    ensures forall k | 0 <= k < |Trim(text)| :: IsOfNumber(Trim(text)[k])
  {
    hide ParseInt64; hide Trim;
    NumberText(text);
    forall k | 0 <= k < |Trim(text)|
      ensures IsOfNumber(Trim(text)[k])
    {
      assert Trim(text)[k] in Trim(text);
    }
  }

  /** A number has no blank inside. */
  lemma NumberHasNoBlank(text: string)
    requires ParseInt64(text).Some?
    ensures FirstBlank(Trim(text)) == |Trim(text)| && LastBlank(Trim(text)).None?
  {
    hide ParseInt64; hide Trim;
    NumberChars(text);
    NoBlanks(Trim(text));
  }

  lemma TrimTwice(text: string)
    ensures Trim(Trim(text)) == Trim(text)
  {
    TrimCuts(text);
    TrimmedStays(Trim(text));
  }

  /** Blanks around a text change nothing about the number it is. */
  lemma SameNumber(text: string, other: string)
    requires Trim(text) == Trim(other)
    ensures ParseInt64(text) == ParseInt64(other)
  {
  }

  /** A lone name is no name with something after it. */
  lemma AloneOrNot(message: string)
    requires RaidTarget(message) != ""
    ensures NamedLine(message).None?
  {
    assert WordEnd(message[|RAID|..]) == |message[|RAID|..]|;
  }

  /** An amount is neither two slots nor an emoji. */
  lemma AmountOnly(message: string)
    requires AmountTarget(message).Some?
    ensures SlotMove(message).None? && EmojiTarget(message).None?
  {
    hide ParseInt64; hide Trim; hide Split;
    var rest := NamedLine(message).value.rest;
    NumberHasNoBlank(rest);
    TrimTwice(rest);
    SameNumber(rest, Trim(rest));
  }

  predicate AllSpaces(text: string) {
    forall k | 0 <= k < |text| :: IsSpace(text[k])
  }

  lemma {:induction false} SkipFront(front: string, text: string)
    requires AllSpaces(front)
    ensures SkipSpaces(front + text) == SkipSpaces(text)
  {
    if front == "" {
      assert front + text == text;
    } else {
      assert (front + text)[1..] == front[1..] + text;
      SkipFront(front[1..], text);
    }
  }

  lemma {:induction false} DropBack(text: string, back: string)
    requires AllSpaces(back)
    ensures DropSpaces(text + back) == DropSpaces(text)
  {
    if back == "" {
      assert text + back == text;
    } else {
      assert (text + back)[..|text + back| - 1] == text + back[..|back| - 1];
      DropBack(text, back[..|back| - 1]);
    }
  }

  lemma {:induction false} SkipBack(text: string, back: string)
    requires AllSpaces(back)
    ensures SkipSpaces(text + back) == if SkipSpaces(text) == "" then "" else SkipSpaces(text) + back
  {
    if text == "" {
      SkipFront(back, "");
      assert text + back == back + "";
    } else if IsSpace(text[0]) {
      assert (text + back)[1..] == text[1..] + back;
      SkipBack(text[1..], back);
    }
  }

  /** Blanks around a text are trimmed off. */
  lemma TrimBlanks(text: string, blanks: string)
    requires AllSpaces(blanks)
    ensures Trim(text + blanks) == Trim(text) == Trim(blanks + text)
  {
    hide SkipSpaces; hide DropSpaces;
    SkipBack(text, blanks);
    DropBack(SkipSpaces(text), blanks);
    SkipFront(blanks, text);
  }

  lemma InFront(front: string, number: string, blank: nat)
    requires blank < |front + number| && IsBlank((front + number)[blank])
    requires forall k | 0 <= k < |number| :: !IsBlank(number[k])
    ensures blank < |front|
  {
  }

  lemma LastOf(front: string, back: string)
    requires back != ""
    ensures (front + back)[|front + back| - 1] in back
  {
    assert (front + back)[|front + back| - 1] == back[|back| - 1];
  }

  /** Only blanks stand before a number that ends the text. */
  lemma BlanksBefore(text: string, blank: nat)
    requires ParseInt64(text).Some? && blank < |text| && IsBlank(text[blank]) && !IsSpace(text[|text| - 1])
    ensures forall k | 0 <= k <= blank :: IsSpace(text[k])
    ensures Trim(text[blank + 1..]) == Trim(text)
  {
    hide ParseInt64; hide Trim;
    var number := Trim(text);
    TrimCuts(text);
    var front: string, back: string :| text == front + number + back && (forall c | c in front :: IsSpace(c))
                                       && (forall c | c in back :: IsSpace(c));
    NumberChars(text);
    if back != "" {
      LastOf(front + number, back);
    }
    assert text == front + number;
    InFront(front, number, blank);
    forall k | 0 <= k <= blank
      ensures IsSpace(text[k])
    {
      assert text[k] == front[k];
      assert front[k] in front;
    }
    assert text == text[..blank + 1] + text[blank + 1..];
    TrimBlanks(text[blank + 1..], text[..blank + 1]);
  }

  /** Whatever blanks stand between two slots, what is before the last of them is the first slot, and what is after it the
      second. */
  lemma TwoSlots(slots: string)
    requires Trimmed(slots) && FirstBlank(slots) < |slots|
    requires ParseInt64(slots[..FirstBlank(slots)]).Some? && ParseInt64(slots[FirstBlank(slots) + 1..]).Some?
    ensures LastBlank(slots).Some?
    ensures Trim(slots[..LastBlank(slots).value]) == Trim(slots[..FirstBlank(slots)])
    ensures ParseInt64(slots[LastBlank(slots).value + 1..]) == ParseInt64(slots[FirstBlank(slots) + 1..])
  {
    hide ParseInt64; hide Trim; hide FirstBlank; hide LastBlank;
    var first, last := FirstBlank(slots), LastBlank(slots).value;
    assert first <= last;
    if first < last {
      SlotsApart(slots, first, last);
    }
  }

  lemma SlotsApart(slots: string, first: nat, last: nat)
    requires Trimmed(slots) && first < last < |slots| && IsBlank(slots[first]) && IsBlank(slots[last])
    requires forall k | last < k < |slots| :: !IsBlank(slots[k])
    requires ParseInt64(slots[first + 1..]).Some?
    ensures Trim(slots[..last]) == Trim(slots[..first]) && ParseInt64(slots[last + 1..]) == ParseInt64(slots[first + 1..])
  {
    hide ParseInt64; hide Trim;
    var to, between := slots[first + 1..], last - first - 1;
    assert to[between] == slots[last] && to[|to| - 1] == slots[|slots| - 1];
    BlanksBefore(to, between);
    assert slots[last + 1..] == to[between + 1..];
    SameNumber(to, slots[last + 1..]);
    TrimUpTo(slots, first, last);
  }

  /** Blanks from one on, up to another, are trimmed off. */
  lemma TrimUpTo(slots: string, first: nat, last: nat)
    requires first <= last <= |slots| && forall k | first <= k < last :: IsSpace(slots[k])
    ensures Trim(slots[..last]) == Trim(slots[..first])
  {
    hide Trim; hide IsSpace;
    TrimBlanks(slots[..first], slots[first..last]);
    assert slots[..last] == slots[..first] + slots[first..last];
  }

  lemma SlotsAreNoEmoji(slots: string)
    requires Trimmed(slots) && FirstBlank(slots) < |slots|
    requires ParseInt64(slots[..FirstBlank(slots)]).Some? && ParseInt64(slots[FirstBlank(slots) + 1..]).Some?
    ensures ParseInt64(EmojiAndSlot(slots).0).Some?
  {
    hide ParseInt64; hide Trim; hide FirstBlank; hide LastBlank;
    TwoSlots(slots);
    var from := slots[..FirstBlank(slots)];
    TrimTwice(from);
    SameNumber(from, Trim(from));
  }

  /** Two slots are no emoji. */
  lemma MoveOnly(message: string)
    requires SlotMove(message).Some?
    ensures EmojiTarget(message).None?
  {
    hide ParseInt64; hide Trim; hide Split; hide EmojiAndSlot;
    TrimCuts(NamedLine(message).value.rest);
    SlotsAreNoEmoji(Trim(NamedLine(message).value.rest));
  }

  predicate IsRaid(message: string) {
    RaidTarget(message) != ""
  }

  /** No message is two of the four. */
  lemma OneMeaning(message: string)
    ensures IsRaid(message) ==> AmountTarget(message).None? && SlotMove(message).None? && EmojiTarget(message).None?
    ensures AmountTarget(message).Some? ==> SlotMove(message).None? && EmojiTarget(message).None?
    ensures SlotMove(message).Some? ==> EmojiTarget(message).None?
  {
    hide NamedLine; hide ParseInt64; hide Split; hide Trim; hide EmojiAndSlot; hide FirstBlank;
    if IsRaid(message) {
      AloneOrNot(message);
    } else if AmountTarget(message).Some? {
      AmountOnly(message);
    } else if SlotMove(message).Some? {
      MoveOnly(message);
    }
  }
}
