/** src/commands.cpp: the verbs and what they expand to, and the command each retired line now only names. */
module Retired {
  import opened Basics
  import opened Text
  import opened Numbers
  import opened Emoji
  import opened Powers
  import opened Grammar

  // ---------------------------------------------------------------- commands

  datatype Command = Command(name: string, argument: string)

  /** parse_command. */
  function ParseCommand(message: string): Command {
    var word := message[..WordEnd(message)];
    Command(Lower(word[..FindChar(word, '@')]), Trim(message[WordEnd(message)..]))
  }

  const ADVENTURE := "/avventura"

  /** expand_adventure. */
  function ExpandAdventure(message: string): string {
    var command := ParseCommand(message);
    if command.name != ADVENTURE then message
    else if command.argument == "" then TRIGGER
    else TRIGGER + " " + command.argument
  }

  datatype Sender = Sender(username: string, onTelegram: bool)

  /** own_name: with the mention on Telegram, bare on IRC. */
  function OwnName(sender: Sender): string {
    if sender.onTelegram then "@" + sender.username else sender.username
  }

  /** two_slots. */
  predicate AreSlots(argument: string) {
    var blank := FirstBlank(argument);
    && blank < |argument|
    && ParseInt64(argument[..blank]).Some? && ParseInt64(Trim(argument[blank + 1..])).Some?
  }

  /** expand_buy. */
  function ExpandBuy(sender: Sender, message: string): string {
    var command := ParseCommand(message);
    if sender.username == "" then message
    else if command.name == "/back" then RAID + OwnName(sender)
    else if command.name == "/move" && AreSlots(command.argument) then RAID + OwnName(sender) + " " + command.argument
    else if command.name == "/buy" && command.argument != "" then RAID + OwnName(sender) + " " + command.argument
    else message
  }

  datatype Verb = NoVerb | ToRaid | ToGive | ToThrow | ToBurn

  datatype Verbed = Verbed(verb: Verb, message: string)

  function VerbOf(name: string): Verb {
    match name
    case "/raid" => ToRaid
    case "/give" => ToGive
    case "/throw" => ToThrow
    case "/burn" => ToBurn
    case _ => NoVerb
  }

  /** expand_verb. */
  function ExpandVerb(message: string): Verbed {
    var command := ParseCommand(message);
    var verb := VerbOf(command.name);
    if verb == NoVerb || command.argument == "" then Verbed(NoVerb, message)
    else if verb == ToBurn then Verbed(verb, TRIGGER + " " + command.argument)
    else Verbed(verb, RAID + command.argument)
  }

  /** A line as the dispatcher reads it. */
  function Expanded(sender: Sender, line: string): Verbed {
    ExpandVerb(ExpandBuy(sender, ExpandAdventure(Trim(line))))
  }

  // ---------------------------------------------------------------- the retired lines

  /** names_the_place. */
  predicate NamesPlace(target: string) {
    SameName(if target != "" && target[0] == '@' then target[1..] else target, PLACE[1..])
  }

  /** What an emoji line became. */
  function EmojiInstead(parcel: Parcel, namesMe: string -> bool): string {
    if NamesPlace(parcel.target) then
      if IsThrown(parcel.emoji) then "/throw " + (PLACE + " " + parcel.emoji) else "/burn " + parcel.emoji
    else if namesMe(parcel.target) then
      match parcel.position
      case Some(position) => "/buy " + (parcel.emoji + " " + Decimal(position))
      case None => "/buy " + parcel.emoji
    else (if IsThrown(parcel.emoji) then "/throw " else "/give ") + (parcel.target + " " + parcel.emoji)
  }

  /** old_line_instead, once "/avventura" was expanded. The slash is the one the dispatcher reads on either platform. */
  function Instead(retired: string, namesMe: string -> bool): Option<string> {
    if !(RAID <= retired) || retired == TRIGGER then None
    else if AmountTarget(retired).Some? then
      var line := AmountTarget(retired).value;
      Some(if NamesPlace(line.target) then "/burn " + Decimal(line.amount)
           else "/give " + (line.target + " " + Decimal(line.amount)))
    else if SlotMove(retired).Some? then
      var move := SlotMove(retired).value;
      Some("/move " + (Decimal(move.from) + " " + Decimal(move.to)))
    else if EmojiTarget(retired).Some? then Some(EmojiInstead(EmojiTarget(retired).value, namesMe))
    else if RaidTarget(retired) != "" then Some(if namesMe(RaidTarget(retired)) then "/back" else "/raid " + RaidTarget(retired))
    else None
  }

  // ---------------------------------------------------------------- reading a command back

  /** A word of a command: nothing in it is a space. */
  predicate IsWord(word: string) {
    word != "" && forall k | 0 <= k < |word| :: !IsSpace(word[k])
  }

  /** Begins and ends with a word. */
  predicate IsArgument(text: string) {
    text != "" && Trimmed(text)
  }

  /** The names of the commands: a slash and a few small letters. */
  predicate IsCommandName(name: string) {
    2 <= |name| < 7 && name[0] == '/' && forall k | 1 <= k < |name| :: 'a' <= name[k] <= 'z'
  }

  lemma CommandNames()
    ensures IsCommandName("/raid") && IsCommandName("/give") && IsCommandName("/throw") && IsCommandName("/burn")
    ensures IsCommandName("/buy") && IsCommandName("/move") && IsCommandName("/back")
  {
  }

  lemma NamePlain(name: string)
    requires IsCommandName(name)
    ensures Lower(name) == name && '@' !in name && IsWord(name) && name != ADVENTURE
    ensures forall k | 0 <= k < |name| :: !Separates(name[k])
  {
    hide Lower;
    LowerStays(name);
  }

  lemma {:induction false} LowerStays(name: string)
    requires forall k | 0 <= k < |name| :: 'a' <= name[k] <= 'z' || name[k] == '/'
    ensures Lower(name) == name
  {
    if name != "" {
      LowerStays(name[1..]);
    }
  }

  lemma BlankArgument(argument: string)
    requires IsArgument(argument)
    ensures Trim(" " + argument) == argument
  {
    TrimBlanks(argument, " ");
    TrimmedStays(argument);
  }

  lemma CommandRead(name: string, argument: string)
    requires IsCommandName(name) && IsArgument(argument)
    ensures ParseCommand(name + " " + argument) == Command(name, argument)
    ensures Trim(name + " " + argument) == name + " " + argument
  {
    hide Trim; hide Lower; hide FindChar;
    NamePlain(name);
    WordEnds(name, " " + argument);
    var line := name + " " + argument;
    assert line == name + (" " + argument);
    assert line[..|name|] == name && line[|name|..] == " " + argument;
    FoundAt(name, "", '@');
    assert name + "" == name;
    BlankArgument(argument);
    assert line[|line| - 1] == argument[|argument| - 1];
    TrimmedStays(line);
  }

  /** What a command with an argument expands to. */
  lemma CommandExpands(sender: Sender, name: string, argument: string)
    requires IsCommandName(name) && IsArgument(argument) && sender.username != ""
    ensures var line := name + " " + argument;
            && ExpandAdventure(Trim(line)) == line
            && (VerbOf(name) != NoVerb ==>
                  Expanded(sender, line) == Verbed(VerbOf(name), (if name == "/burn" then TRIGGER + " " else RAID) + argument))
            && (name == "/buy" || (name == "/move" && AreSlots(argument)) ==>
                  ExpandBuy(sender, line) == RAID + OwnName(sender) + " " + argument)
  {
    hide Trim; hide ParseCommand; hide AreSlots;
    CommandRead(name, argument);
    NamePlain(name);
  }

  /** A command may name the bot it is for, and is then the same command. */
  lemma MentionRead(name: string, bot: string, argument: string)
    requires IsCommandName(name) && IsArgument(argument) && forall k | 0 <= k < |bot| :: !Separates(bot[k])
    ensures ParseCommand(name + "@" + bot + " " + argument) == Command(name, argument)
  {
    hide Trim; hide Lower; hide FindChar;
    NamePlain(name);
    var word := name + "@" + bot;
    forall k | 0 <= k < |word|
      ensures !Separates(word[k])
    {
    }
    WordEnds(word, " " + argument);
    var line := word + " " + argument;
    assert line == word + (" " + argument);
    assert line[..|word|] == word && line[|word|..] == " " + argument;
    FoundAt(name, "@" + bot, '@');
    assert name + ("@" + bot) == word;
    assert word[..|name|] == name;
    BlankArgument(argument);
  }

  lemma AdventureAlone()
    ensures ParseCommand(ADVENTURE) == Command(ADVENTURE, "")
  {
    hide Trim; hide Lower; hide FindChar;
    AdventurePlain();
    WordEnds(ADVENTURE, "");
    FoundAt(ADVENTURE, "", '@');
    assert ADVENTURE + "" == ADVENTURE;
    assert ADVENTURE[|ADVENTURE|..] == "";
    TrimmedStays("");
  }

  lemma AdventureWith(argument: string)
    requires IsArgument(argument)
    ensures ParseCommand(ADVENTURE + " " + argument) == Command(ADVENTURE, argument)
  {
    hide Trim; hide Lower; hide FindChar;
    AdventurePlain();
    WordEnds(ADVENTURE, " " + argument);
    FoundAt(ADVENTURE, "", '@');
    assert ADVENTURE + "" == ADVENTURE;
    var line := ADVENTURE + " " + argument;
    assert line == ADVENTURE + (" " + argument);
    assert line[..|ADVENTURE|] == ADVENTURE && line[|ADVENTURE|..] == " " + argument;
    BlankArgument(argument);
  }

  /** "/avventura" alone claims the place; with something after it, it is a line to the place. */
  lemma AdventureAsks(argument: string)
    requires IsArgument(argument)
    ensures ExpandAdventure("/avventura") == RAID + PLACE
    ensures ExpandAdventure("/avventura" + " " + argument) == RAID + PLACE + (" " + argument)
  {
    hide ParseCommand;
    AdventureAlone();
    AdventureWith(argument);
  }

  lemma AdventurePlain()
    ensures Lower(ADVENTURE) == ADVENTURE && '@' !in ADVENTURE && forall k | 0 <= k < |ADVENTURE| :: !Separates(ADVENTURE[k])
  {
    hide Lower;
    LowerStays(ADVENTURE);
  }

  /** Who writes is mentioned on Telegram, and plainly named on IRC. */
  lemma OwnNameIs(sender: Sender)
    ensures if sender.onTelegram then OwnName(sender) == "@" + sender.username else OwnName(sender) == sender.username
  {
  }

  /** A line that is no command any more is what it is. */
  lemma LineStays(target: string, rest: string)
    ensures ExpandVerb(RAID + target + rest) == Verbed(NoVerb, RAID + target + rest)
  {
    hide Trim; hide Lower; hide FindChar;
    var message := RAID + target + rest;
    assert message == "We" + (" " + target + rest);
    WordEnds("We", " " + target + rest);
    assert message[..2] == "We";
    FoundAt("We", "", '@');
    assert "We" + "" == "We";
    LowerWe();
  }

  lemma LowerWe()
    ensures Lower("We") == "we"
  {
    assert Lower("e") == ['e'] + Lower("");
  }

  // ---------------------------------------------------------------- reading a line back

  lemma AmountRead(target: string, amount: int)
    requires IsName(target) && LEAST <= amount <= GREATEST
    ensures AmountTarget(RAID + target + (" " + Decimal(amount))) == Some(Amount(target, amount))
  {
    hide NamedLine; hide ParseInt64; hide Decimal;
    NamedWhole(target, " " + Decimal(amount));
    DecimalArgument(amount);
    BlankArgument(Decimal(amount));
    ParsedDecimal(" " + Decimal(amount), amount);
  }

  lemma DecimalArgument(n: int)
    ensures IsArgument(Decimal(n)) && IsWord(Decimal(n))
  {
    hide Decimal;
    DecimalText(n);
    forall k | 0 <= k < |Decimal(n)|
      ensures !IsSpace(Decimal(n)[k])
    {
      assert Decimal(n)[k] in Decimal(n);
    }
  }

  /** Two words with a blank between them. */
  lemma TwoWords(one: string, other: string)
    requires IsWord(one) && IsWord(other)
    ensures var text := one + " " + other;
            && IsArgument(text) && FirstBlank(text) == |one| && LastBlank(text) == Some(|one|)
            && text[..|one|] == one && text[|one| + 1..] == other
  {
    var text := one + " " + other;
    assert text[|one|] == ' ';
    assert text[|text| - 1] == other[|other| - 1];
    forall k | 0 <= k < |one|
      ensures !IsBlank(text[k])
    {
      assert text[k] == one[k];
    }
    forall k | |one| < k < |text|
      ensures !IsBlank(text[k])
    {
      assert text[k] == other[k - |one| - 1];
    }
  }

  lemma SlotsRead(from: int, to: int)
    requires LEAST <= from <= GREATEST && LEAST <= to <= GREATEST
    ensures var slots := Decimal(from) + " " + Decimal(to);
            && IsArgument(slots) && AreSlots(slots)
            && FirstBlank(slots) < |slots|
            && ParseInt64(slots[..FirstBlank(slots)]) == Some(from)
            && ParseInt64(slots[FirstBlank(slots) + 1..]) == Some(to)
  {
    hide ParseInt64; hide Decimal; hide Trim; hide FirstBlank; hide LastBlank;
    DecimalArgument(from);
    DecimalArgument(to);
    TwoWords(Decimal(from), Decimal(to));
    TrimmedStays(Decimal(from));
    TrimmedStays(Decimal(to));
    ParsedDecimal(Decimal(from), from);
    ParsedDecimal(Decimal(to), to);
  }

  lemma MoveRead(target: string, from: int, to: int)
    requires IsName(target) && LEAST <= from <= GREATEST && LEAST <= to <= GREATEST
    ensures SlotMove(RAID + target + (" " + (Decimal(from) + " " + Decimal(to)))) == Some(Move(target, from, to))
  {
    hide NamedLine; hide ParseInt64; hide Decimal; hide Trim; hide FirstBlank; hide AreSlots;
    var slots := Decimal(from) + " " + Decimal(to);
    NamedWhole(target, " " + slots);
    SlotsRead(from, to);
    BlankArgument(slots);
  }

  /** An emoji as emoji_target gives it: trimmed, emoji only, and no number. */
  predicate IsParcel(emoji: string) {
    Trimmed(emoji) && Split(emoji).Some? && ParseInt64(emoji).None?
  }

  lemma ParcelRead(target: string, emoji: string)
    requires IsName(target) && IsParcel(emoji) && IsWord(emoji)
    ensures EmojiTarget(RAID + target + (" " + emoji)) == Some(Parcel(target, emoji, None))
  {
    hide NamedLine; hide ParseInt64; hide Trim; hide Split; hide FirstBlank; hide LastBlank;
    NamedWhole(target, " " + emoji);
    BlankArgument(emoji);
    NoBlanks(emoji);
  }

  lemma PlacedRead(target: string, emoji: string, position: int)
    requires IsName(target) && IsParcel(emoji) && IsWord(emoji) && LEAST <= position <= GREATEST
    ensures EmojiTarget(RAID + target + (" " + (emoji + " " + Decimal(position)))) == Some(Parcel(target, emoji, Some(position)))
  {
    hide NamedLine; hide ParseInt64; hide Trim; hide Split; hide Decimal; hide FirstBlank; hide LastBlank;
    var text := emoji + " " + Decimal(position);
    DecimalArgument(position);
    TwoWords(emoji, Decimal(position));
    NamedWhole(target, " " + text);
    BlankArgument(text);
    TrimmedStays(emoji);
    TrimmedStays(Decimal(position));
    ParsedDecimal(Decimal(position), position);
  }

  // ---------------------------------------------------------------- emoji have no space inside

  lemma EmojiIsWord(emoji: string)
    requires Trimmed(emoji) && Split(emoji).Some?
    ensures IsWord(emoji)
  {
    hide Letters; hide Starts;
    TrimmedStays(emoji);
    StartsCodes(Letters(emoji), 0, false);
    assert emoji != "" by { NothingIsNoEmoji(); }
    forall k | 0 <= k < |emoji|
      ensures !IsSpace(emoji[k])
    {
      if emoji[k] as int < 0x80 {
        AsciiStands(emoji, k);
      }
    }
  }

  lemma NothingIsNoEmoji()
    ensures Split("").None?
  {
    assert Letters("") == [];
  }

  // ---------------------------------------------------------------- the translation is faithful

  /** Whoever writes has a name of his own that a line can name, and is not the place. */
  predicate CanWrite(sender: Sender) {
    sender.username != "" && IsName(OwnName(sender)) && OwnName(sender) != PLACE
  }

  /** What an emoji line asked for, asked for again. */
  predicate SameParcel(v: Verbed, sender: Sender, parcel: Parcel, namesMe: string -> bool) {
    if NamesPlace(parcel.target) then
      v.verb == (if IsThrown(parcel.emoji) then ToThrow else ToBurn) && EmojiTarget(v.message) == Some(Parcel(PLACE, parcel.emoji, None))
    else if namesMe(parcel.target) then
      v.verb == NoVerb && EmojiTarget(v.message) == Some(Parcel(OwnName(sender), parcel.emoji, parcel.position))
    else
      && v.verb == (if IsThrown(parcel.emoji) then ToThrow else ToGive)
      && EmojiTarget(v.message) == Some(Parcel(parcel.target, parcel.emoji, None))
  }

  /** The command named in the place of a retired line asks for the same: the same amount, the same slots, the same emoji. A
      position is kept on the sender's own name only, the place is written one way, and a move is the sender's. */
  predicate SameRequest(v: Verbed, sender: Sender, retired: string, namesMe: string -> bool) {
    match AmountTarget(retired)
    case Some(line) =>
      if NamesPlace(line.target) then v.verb == ToBurn && AmountTarget(v.message) == Some(Amount(PLACE, line.amount))
      else v.verb == ToGive && AmountTarget(v.message) == Some(line)
    case None =>
      match SlotMove(retired)
      case Some(move) => v.verb == NoVerb && SlotMove(v.message) == Some(Move(OwnName(sender), move.from, move.to))
      case None =>
        match EmojiTarget(retired)
        case Some(parcel) => SameParcel(v, sender, parcel, namesMe)
        case None =>
          if namesMe(RaidTarget(retired)) then v.verb == NoVerb && RaidTarget(v.message) == OwnName(sender)
          else v.verb == ToRaid && RaidTarget(v.message) == RaidTarget(retired)
  }

  /** The name in a line has no space of any kind: a vertical tab or a form feed would be trimmed off a command. */
  predicate NamesWord(retired: string) {
    if NamedLine(retired).Some? then IsWord(NamedLine(retired).value.target) else RaidTarget(retired) == "" || IsWord(RaidTarget(retired))
  }

  lemma NumberInRange(text: string)
    requires ParseInt64(text).Some?
    ensures LEAST <= ParseInt64(text).value <= GREATEST
  {
  }

  lemma PlaceIsName()
    ensures IsName(PLACE) && IsWord(PLACE) && TRIGGER == RAID + PLACE
  {
    assert forall k | 0 <= k < |PLACE| :: !IsSpace(PLACE[k]);
  }

  lemma AmountSame(sender: Sender, retired: string, namesMe: string -> bool)
    requires CanWrite(sender) && NamesWord(retired) && AmountTarget(retired).Some? && Instead(retired, namesMe).Some?
    ensures SameRequest(Expanded(sender, Instead(retired, namesMe).value), sender, retired, namesMe)
  {
    hide ParseInt64; hide Decimal; hide Trim; hide WordEnd; hide FirstBlank; hide NamesPlace; hide Expanded; hide ExpandAdventure;
    hide IsCommandName;
    CommandNames();
    var line, name := AmountTarget(retired).value, NamedLine(retired).value;
    NumberInRange(name.rest);
    DecimalArgument(line.amount);
    PlaceIsName();
    if NamesPlace(line.target) {
      BurnExpands(sender, Decimal(line.amount));
      AmountRead(PLACE, line.amount);
    } else {
      GiveExpands(sender, "/give", line.target, Decimal(line.amount));
      assert "/give " + (line.target + " " + Decimal(line.amount)) == "/give" + " " + (line.target + " " + Decimal(line.amount));
      AmountRead(line.target, line.amount);
    }
  }

  lemma BurnExpands(sender: Sender, argument: string)
    requires sender.username != "" && IsArgument(argument)
    ensures Expanded(sender, "/burn " + argument) == Verbed(ToBurn, RAID + PLACE + (" " + argument))
  {
    hide Expanded; hide ExpandAdventure; hide ExpandBuy;
    CommandNames();
    CommandExpands(sender, "/burn", argument);
    assert "/burn " + argument == "/burn" + " " + argument;
    PlaceIsName();
    assert TRIGGER + " " + argument == RAID + PLACE + (" " + argument);
  }

  lemma GiveExpands(sender: Sender, name: string, target: string, rest: string)
    requires sender.username != "" && IsWord(target) && IsWord(rest) && (name == "/give" || name == "/throw")
    ensures Expanded(sender, name + " " + (target + " " + rest)) == Verbed(VerbOf(name), RAID + target + (" " + rest))
  {
    hide Expanded; hide ExpandAdventure; hide ExpandBuy; hide FirstBlank; hide LastBlank;
    CommandNames();
    TwoWords(target, rest);
    CommandExpands(sender, name, target + " " + rest);
    assert RAID + (target + " " + rest) == RAID + target + (" " + rest);
  }

  lemma OwnExpands(sender: Sender, name: string, argument: string)
    requires sender.username != "" && IsArgument(argument) && (name == "/buy" || (name == "/move" && AreSlots(argument)))
    ensures Expanded(sender, name + " " + argument) == Verbed(NoVerb, RAID + OwnName(sender) + (" " + argument))
  {
    hide ExpandAdventure; hide ExpandBuy; hide ExpandVerb; hide AreSlots;
    CommandNames();
    CommandExpands(sender, name, argument);
    assert RAID + OwnName(sender) + " " + argument == RAID + OwnName(sender) + (" " + argument);
    LineStays(OwnName(sender), " " + argument);
  }

  lemma MoveInstead(retired: string, namesMe: string -> bool)
    requires AmountTarget(retired).None? && SlotMove(retired).Some? && Instead(retired, namesMe).Some?
    ensures var move := SlotMove(retired).value;
            Instead(retired, namesMe).value == "/move " + (Decimal(move.from) + " " + Decimal(move.to))
  {
    hide AmountTarget; hide SlotMove; hide Decimal;
  }

  lemma MoveSame(sender: Sender, retired: string, namesMe: string -> bool)
    requires CanWrite(sender) && AmountTarget(retired).None? && SlotMove(retired).Some? && Instead(retired, namesMe).Some?
    ensures SameRequest(Expanded(sender, Instead(retired, namesMe).value), sender, retired, namesMe)
  {
    hide ParseInt64; hide Decimal; hide Trim; hide WordEnd; hide FirstBlank; hide NamesPlace; hide Expanded; hide NamedLine; hide IsName;
    hide AreSlots;
    CommandNames();
    var move := SlotMove(retired).value;
    var slots := Trim(NamedLine(retired).value.rest);
    NumberInRange(slots[..FirstBlank(slots)]);
    NumberInRange(slots[FirstBlank(slots) + 1..]);
    SlotsRead(move.from, move.to);
    OwnExpands(sender, "/move", Decimal(move.from) + " " + Decimal(move.to));
    MoveRead(OwnName(sender), move.from, move.to);
    MoveInstead(retired, namesMe);
    assert "/move " + (Decimal(move.from) + " " + Decimal(move.to)) == "/move" + " " + (Decimal(move.from) + " " + Decimal(move.to));
  }

  /** What emoji_target gives is a parcel, with a position the machine can hold. */
  lemma ParcelGiven(message: string)
    requires EmojiTarget(message).Some?
    ensures var parcel := EmojiTarget(message).value;
            && NamedLine(message).Some? && parcel.target == NamedLine(message).value.target
            && IsParcel(parcel.emoji) && IsWord(parcel.emoji)
            && (parcel.position.Some? ==> LEAST <= parcel.position.value <= GREATEST)
  {
    hide ParseInt64; hide Trim; hide Split; hide NamedLine; hide LastBlank;
    var text := Trim(NamedLine(message).value.rest);
    TrimCuts(NamedLine(message).value.rest);
    var blank := LastBlank(text);
    if blank.Some? {
      TrimCuts(text[..blank.value]);
      if ParseInt64(text[blank.value + 1..]).Some? {
        NumberInRange(text[blank.value + 1..]);
      }
    }
    EmojiIsWord(EmojiTarget(message).value.emoji);
  }

  lemma EmojiSame(sender: Sender, parcel: Parcel, namesMe: string -> bool)
    requires CanWrite(sender) && IsName(parcel.target) && IsWord(parcel.target) && IsParcel(parcel.emoji) && IsWord(parcel.emoji)
    requires parcel.position.Some? ==> LEAST <= parcel.position.value <= GREATEST
    ensures SameParcel(Expanded(sender, EmojiInstead(parcel, namesMe)), sender, parcel, namesMe)
  {
    hide ParseInt64; hide Decimal; hide Trim; hide Split; hide NamesPlace; hide Expanded; hide NamedLine; hide IsName; hide IsThrown;
    hide EmojiTarget; hide FirstBlank; hide LastBlank; hide VerbOf;
    CommandNames();
    PlaceIsName();
    assert VerbOf("/throw") == ToThrow && VerbOf("/give") == ToGive by { Verbs(); }
    if NamesPlace(parcel.target) {
      ParcelRead(PLACE, parcel.emoji);
      if IsThrown(parcel.emoji) {
        GiveExpands(sender, "/throw", PLACE, parcel.emoji);
        assert "/throw " + (PLACE + " " + parcel.emoji) == "/throw" + " " + (PLACE + " " + parcel.emoji);
      } else {
        BurnExpands(sender, parcel.emoji);
      }
    } else if namesMe(parcel.target) {
      if parcel.position.Some? {
        DecimalArgument(parcel.position.value);
        TwoWords(parcel.emoji, Decimal(parcel.position.value));
        var argument := parcel.emoji + " " + Decimal(parcel.position.value);
        OwnExpands(sender, "/buy", argument);
        assert "/buy " + argument == "/buy" + " " + argument;
        PlacedRead(OwnName(sender), parcel.emoji, parcel.position.value);
      } else {
        OwnExpands(sender, "/buy", parcel.emoji);
        assert "/buy " + parcel.emoji == "/buy" + " " + parcel.emoji;
        ParcelRead(OwnName(sender), parcel.emoji);
      }
    } else {
      ParcelRead(parcel.target, parcel.emoji);
      var name := if IsThrown(parcel.emoji) then "/throw" else "/give";
      GiveExpands(sender, name, parcel.target, parcel.emoji);
      assert (if IsThrown(parcel.emoji) then "/throw " else "/give ") == name + " ";
    }
  }

  lemma Verbs()
    ensures VerbOf("/throw") == ToThrow && VerbOf("/give") == ToGive && VerbOf("/raid") == ToRaid
  {
  }

  lemma BackExpands(sender: Sender)
    requires CanWrite(sender)
    ensures Expanded(sender, "/back") == Verbed(NoVerb, RAID + OwnName(sender))
  {
    hide Trim; hide Lower; hide FindChar; hide ExpandVerb;
    CommandNames();
    NamePlain("/back");
    WordEnds("/back", "");
    assert "/back" + "" == "/back";
    assert "/back"[..5] == "/back" && "/back"[5..] == "";
    FoundAt("/back", "", '@');
    TrimmedStays("/back");
    LineStays(OwnName(sender), "");
    assert RAID + OwnName(sender) + "" == RAID + OwnName(sender);
  }

  lemma RaidSame(sender: Sender, target: string, namesMe: string -> bool)
    requires CanWrite(sender) && IsName(target) && IsWord(target) && target != PLACE
    ensures var v := Expanded(sender, if namesMe(target) then "/back" else "/raid " + target);
            if namesMe(target) then v.verb == NoVerb && RaidTarget(v.message) == OwnName(sender)
            else v.verb == ToRaid && RaidTarget(v.message) == target
  {
    hide Expanded; hide IsName; hide VerbOf; hide ExpandAdventure; hide ExpandBuy;
    CommandNames();
    Verbs();
    RaidRead(OwnName(sender));
    RaidRead(target);
    BackExpands(sender);
    CommandExpands(sender, "/raid", target);
    assert "/raid " + target == "/raid" + " " + target;
  }

  /** A lone name is read back unless it is the place's: that line is a claim. */
  lemma RaidRead(target: string)
    requires IsName(target)
    ensures RaidTarget(RAID + target) == target <==> target != PLACE
  {
    PlaceIsName();
    assert (RAID + target)[|RAID|..] == target;
    assert TRIGGER[|RAID|..] == PLACE;
  }

  /** A retired line is any of the four the parsers accept, but for the claim. */
  lemma InsteadGiven(retired: string, namesMe: string -> bool)
    ensures Instead(retired, namesMe).Some? <==>
              retired != TRIGGER && (AmountTarget(retired).Some? || SlotMove(retired).Some? || EmojiTarget(retired).Some?
                                     || RaidTarget(retired) != "")
  {
    hide IsName; hide WordEnd; hide ParseInt64; hide Split; hide Trim; hide EmojiInstead; hide NamesPlace; hide Decimal; hide EmojiAndSlot;
  }

  /** Every retired line, for names free of spaces. */
  lemma FaithfulInstead(sender: Sender, retired: string, namesMe: string -> bool)
    requires CanWrite(sender) && NamesWord(retired) && Instead(retired, namesMe).Some?
    ensures SameRequest(Expanded(sender, Instead(retired, namesMe).value), sender, retired, namesMe)
  {
    hide AmountTarget; hide SlotMove; hide EmojiTarget; hide Expanded; hide NamesPlace; hide IsName; hide EmojiInstead; hide SameParcel;
    hide CanWrite; hide NamedLine;
    if AmountTarget(retired).Some? {
      AmountSame(sender, retired, namesMe);
    } else if SlotMove(retired).Some? {
      MoveSame(sender, retired, namesMe);
    } else if EmojiTarget(retired).Some? {
      ParcelGiven(retired);
      NamedIsName(retired);
      EmojiSame(sender, EmojiTarget(retired).value, namesMe);
    } else {
      AloneOrNot(retired);
      PlaceIsName();
      NotThePlace(retired);
      RaidSame(sender, RaidTarget(retired), namesMe);
    }
  }

  lemma NamedIsName(retired: string)
    requires NamedLine(retired).Some?
    ensures IsName(NamedLine(retired).value.target)
  {
  }

  lemma NotThePlace(retired: string)
    requires RaidTarget(retired) != ""
    ensures IsName(RaidTarget(retired)) && RaidTarget(retired) != PLACE
  {
    PlaceIsName();
    assert retired == RAID + retired[|RAID|..];
  }
}
