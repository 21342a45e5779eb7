/** src/text.cpp and src/game.cpp: which single emoji a slot can hold whatever is beside it. A bought emoji is only asked to be
    one emoji; one that is not closed may become one with its neighbour once the slots are stored. */
module Neighbours {
  import opened Basics
  import opened Text
  import opened Emoji
  import opened Slots
  import opened Powers

  /** The flag of Italy: two regional letters. */
  const FLAG := "\U{F0}\U{9F}\U{87}\U{AE}\U{F0}\U{9F}\U{87}\U{B9}"

  lemma FourBytesLetter(third: char, fourth: char, rest: string)
    requires IsTail(third) && IsTail(fourth)
    ensures var emoji := ['\U{F0}', '\U{9F}', third, fourth] + rest;
            var code := 0x1F000 + (third as int - 0x80) * 64 + (fourth as int - 0x80);
            FirstLetter(emoji) == Letter(code, 4) && Complete(emoji) && emoji[4..] == rest
  {
    var emoji := ['\U{F0}', '\U{9F}', third, fourth] + rest;
    assert Present(emoji, 2) == 2;
    assert Present(emoji, 3) == 3;
    assert Built(emoji, 2) == 0x1F;
    assert Built(emoji, 3) == 0x1F * 64 + (third as int - 0x80);
  }

  lemma BalloonClosed()
    ensures Letters(BALLOON) == [Letter(0x1F388, 4)] && Closed(BALLOON)
  {
    hide FirstLetter; hide Complete;
    FourBytesLetter('\U{8E}', '\U{88}', "");
    assert BALLOON == ['\U{F0}', '\U{9F}', '\U{8E}', '\U{88}'] + "";
    assert Letters(BALLOON)[1..] == [];
  }

  lemma FlagClosed()
    ensures Letters(FLAG) == [Letter(0x1F1EE, 4), Letter(0x1F1F9, 4)] && Closed(FLAG)
  {
    hide FirstLetter; hide Complete;
    var second := ['\U{F0}', '\U{9F}', '\U{87}', '\U{B9}'];
    FourBytesLetter('\U{87}', '\U{B9}', "");
    assert second == second + "";
    FourBytesLetter('\U{87}', '\U{AE}', second);
    assert FLAG == ['\U{F0}', '\U{9F}', '\U{87}', '\U{AE}'] + second;
    assert Letters(second) == [Letter(0x1F1F9, 4)];
    assert Letters(FLAG)[2..] == [];
  }

  /** No space and neither bracket of an empty slot. */
  predicate IsUnbroken(text: string) {
    forall c | c in text :: !IsSpace(c) && c != '[' && c != ']'
  }

  lemma SingleUnbroken(emoji: string)
    requires Split(emoji) == Some([emoji])
    ensures emoji != "" && IsUnbroken(emoji) && Trim(emoji) == emoji
    ensures Starts(Letters(emoji), 0, false).Some? && |Starts(Letters(emoji), 0, false).value| == 1
  {
    hide Starts; hide Letters;
    SplitPartitions(emoji);
    assert [emoji][1..] == [];
    assert Concat([emoji]) == emoji + Concat([]);
    StartsCodes(Letters(emoji), 0, false);
    forall c | c in emoji
      ensures !IsSpace(c) && c != '[' && c != ']'
    {
      var k :| 0 <= k < |emoji| && emoji[k] == c;
      if c as int < 0x80 {
        AsciiStands(emoji, k);
      }
    }
  }

  /** What two neighbours are read back as. */
  lemma TwoRead(one: string, other: string)
    requires one != "" && other != "" && IsUnbroken(one) && IsUnbroken(other)
    ensures Read(Stored([one, other])) == Expand(one + other) && Trim(one + other) == one + other
  {
    hide Split;
    var text := one + other;
    assert Stripped([one, other]) == [one, other];
    assert [one, other][1..] == [other];
    assert [other][1..] == [];
    assert Written([other]) == other + Written([]) == other;
    assert Written([one, other]) == one + Written([other]) == text;
    forall k | 0 <= k < |text|
      ensures !EmptyAt(text, k)
    {
      assert text[k] in one || text[k] in other;
    }
    TrimmedStays(text);
    ReadPiece(text, "");
    assert text + "" == text && Expand(text) + [] == Expand(text);
  }

  /** The pieces of a text with no space at its ends. */
  lemma PiecesOf(text: string)
    requires Trim(text) == text && Starts(Letters(text), 0, false).Some?
    ensures var starts := Starts(Letters(text), 0, false).value;
            starts != [] ==>
              && Split(text).Some? && |Split(text).value| == |starts|
              && (|starts| == 2 && 0 < starts[1] < |text| ==> Split(text).value[0] == text[..starts[1]])
  {
    hide Letters; hide Starts;
    var starts := Starts(Letters(text), 0, false).value;
    TextStartsRise(text);
    if starts != [] {
      FirstAtZero(starts, |text|);
      var moved := starts[0 := 0];
      assert Split(text) == Some(Cut(text, moved));
    }
  }

  // ---------------------------------------------------------------- what goes wrong

  /** It sticks to whatever is before it. */
  lemma Sticking(emoji: string)
    requires Split(emoji) == Some([emoji]) && Letters(emoji) != [] && Letters(emoji)[0].code >= 0x80 && Sticks(Letters(emoji)[0].code)
    ensures Read(Stored([BALLOON, emoji])) != [BALLOON, emoji]
  {
    hide FirstLetter; hide Letters; hide Starts; hide Split; hide Sticks; hide Read; hide Stored; hide ClosedLetters; hide Whole;
    BalloonClosed();
    SingleUnbroken(emoji);
    ClosedBytes(BALLOON);
    TwoRead(BALLOON, emoji);
    var text, letters := BALLOON + emoji, Letters(emoji);
    assert Whole(BALLOON) by { BalloonWhole(); }
    LettersJoin(BALLOON, emoji);
    LettersWidth(emoji);
    StickingStarts(letters);
    if Starts(Letters(text), 0, false).Some? {
      TextStartsRise(text);
      SecondLater(text);
    } else {
      assert Split(text).None? by { Unsplit(text); }
    }
  }

  lemma BalloonWhole()
    ensures Whole(BALLOON)
  {
    hide Letters; hide FirstLetter; hide ClosedLetters;
    BalloonClosed();
  }

  lemma Unsplit(text: string)
    requires Trim(text) == text && Starts(Letters(text), 0, false).None?
    ensures Split(text).None?
  {
    hide Letters; hide Starts;
  }

  /** The first piece is longer than a balloon. */
  lemma SecondLater(text: string)
    requires Trim(text) == text && Starts(Letters(text), 0, false).Some?
    requires Rising(Starts(Letters(text), 0, false).value, 0, |text|)
    requires var starts := Starts(Letters(text), 0, false).value; starts != [] && (|starts| == 1 || starts[1] > 4)
    ensures forall one: string, other: string | |one| == 4 :: Expand(text) != [one, other]
  {
    hide Letters; hide Starts; hide Split;
    PiecesOf(text);
  }

  lemma StickingStarts(letters: seq<Letter>)
    requires letters != [] && letters[0].code >= 0x80 && Sticks(letters[0].code) && letters[0].width > 0
    requires forall letter | letter in letters :: letter.width > 0
    ensures var starts := Starts([Letter(0x1F388, 4)] + letters, 0, false);
            starts.Some? ==> starts.value != [] && (|starts.value| == 1 || starts.value[1] > 4)
  {
    var all := [Letter(0x1F388, 4)] + letters;
    assert all[1..] == letters && all[..1] == [Letter(0x1F388, 4)] && Width(all[..1]) == 4 by { assert all[..1][1..] == []; }
    var more := Starts(letters, 4, false);
    if more.Some? {
      StartsRise(letters[1..], 4 + letters[0].width, letters[0].code == JOINER);
    }
  }

  /** Letters that only stick or are joined leave nothing waiting, or swallow what comes next. */
  lemma {:induction false} Swallows(letters: seq<Letter>, next: Letter, base: nat, joined: bool)
    requires Starts(letters, base, joined) == Some([]) && next.code >= 0x80 && !Sticks(next.code)
    ensures Trails(letters, joined) || Starts(letters + [next], base, joined) == Some([])
    decreases |letters|
  {
    if letters == [] {
      assert letters + [next] == [next] && [next][1..] == [];
    } else {
      assert (letters + [next])[1..] == letters[1..] + [next];
      Swallows(letters[1..], next, base + letters[0].width, letters[0].code == JOINER);
    }
  }

  lemma SwallowedStarts(letters: seq<Letter>, next: Letter)
    requires letters != [] && Starts(letters, 0, false).Some? && |Starts(letters, 0, false).value| == 1
    requires next.code >= 0x80 && !Sticks(next.code) && !IsRegional(next.code)
    requires !ClosedLetters(letters) && !(letters[0].code >= 0x80 && Sticks(letters[0].code))
    requires !(|letters| == 1 && IsRegional(letters[0].code))
    ensures Starts(letters + [next], 0, false).Some? && |Starts(letters + [next], 0, false).value| == 1
  {
    var code, all := letters[0].code, letters + [next];
    var span := if code < 0x80 then KeycapSpan(letters).value else HeadSpan(letters);
    assert if code < 0x80 then KeycapSpan(all) == Some(span) else HeadSpan(all) == span;
    assert all[..span] == letters[..span];
    assert all[span..] == letters[span..] + [next];
    Swallows(letters[span..], next, Width(letters[..span]), false);
  }

  /** It waits for something to join. */
  lemma Waiting(emoji: string)
    requires Split(emoji) == Some([emoji]) && Whole(emoji) && Letters(emoji) != [] && !ClosedLetters(Letters(emoji))
    requires !(Letters(emoji)[0].code >= 0x80 && Sticks(Letters(emoji)[0].code))
    requires !(|Letters(emoji)| == 1 && IsRegional(Letters(emoji)[0].code))
    ensures Read(Stored([emoji, BALLOON])) != [emoji, BALLOON]
  {
    hide FirstLetter; hide Letters; hide Starts; hide ClosedLetters; hide Read; hide Stored; hide Split; hide Whole; hide Sticks;
    hide IsRegional;
    BalloonClosed();
    SingleUnbroken(emoji);
    ClosedBytes(BALLOON);
    TwoRead(emoji, BALLOON);
    LettersJoin(emoji, BALLOON);
    BalloonLetter();
    SwallowedStarts(Letters(emoji), Letter(0x1F388, 4));
    OnePiece(emoji + BALLOON);
  }

  lemma BalloonLetter()
    ensures !Sticks(0x1F388) && !IsRegional(0x1F388)
  {
  }

  lemma OnePiece(text: string)
    requires Trim(text) == text && Starts(Letters(text), 0, false).Some? && |Starts(Letters(text), 0, false).value| == 1
    ensures |Expand(text)| == 1
  {
    hide Letters; hide Starts; hide Split;
    PiecesOf(text);
  }

  lemma LoneStarts(letter: Letter)
    requires IsRegional(letter.code)
    ensures Starts([letter] + [Letter(0x1F1EE, 4), Letter(0x1F1F9, 4)], 0, false) == Some([0, letter.width + 4])
  {
    var all := [letter] + [Letter(0x1F1EE, 4), Letter(0x1F1F9, 4)];
    assert all[..2] == [letter, Letter(0x1F1EE, 4)] && all[2..] == [Letter(0x1F1F9, 4)];
    TwoWide(letter, Letter(0x1F1EE, 4));
    LastStarts(letter.width + 4);
    var first: seq<nat>, last: seq<nat> := [0], [letter.width + 4];
    assert first + last == [0, letter.width + 4];
  }

  lemma LastStarts(base: nat)
    ensures Starts([Letter(0x1F1F9, 4)], base, false) == Some([base])
  {
    var letters := [Letter(0x1F1F9, 4)];
    assert letters[1..] == [];
    assert Starts(letters[1..], base + Width(letters[..1]), false) == Some([]);
    var none: seq<nat> := [];
    assert [base] + none == [base];
  }

  lemma TwoWide(one: Letter, other: Letter)
    ensures Width([one, other]) == one.width + other.width
  {
    assert [one, other][1..] == [other];
    assert [other][1..] == [];
    assert Width([other]) == other.width + Width([other][1..]) == other.width;
  }

  /** It is half a flag. */
  lemma Lone(emoji: string)
    requires Split(emoji) == Some([emoji]) && Whole(emoji) && |Letters(emoji)| == 1 && IsRegional(Letters(emoji)[0].code)
    ensures Read(Stored([emoji, FLAG])) != [emoji, FLAG]
  {
    hide FirstLetter; hide Letters; hide Starts; hide Split; hide ClosedLetters; hide Read; hide Stored;
    FlagClosed();
    SingleUnbroken(emoji);
    ClosedBytes(FLAG);
    TwoRead(emoji, FLAG);
    LettersJoin(emoji, FLAG);
    LettersWidth(emoji);
    var letter := Letters(emoji)[0];
    assert Letters(emoji) == [letter] && [letter][1..] == [];
    LoneStarts(letter);
    PiecesOf(emoji + FLAG);
    assert Split(emoji + FLAG).value[0] == (emoji + FLAG)[..|emoji| + 4];
  }

  // ---------------------------------------------------------------- a letter that is cut short

  /** How many tail bytes its last letter lacks. */
  function Missing(text: string): (bytes: nat)
    requires !Whole(text)
    ensures 1 <= bytes <= 3
    decreases |text|
  {
    if !Complete(text) then Announced(text[0]) - |text| else Missing(text[FirstLetter(text).width..])
  }

  const TAIL := "\U{80}"

  function Tails(bytes: nat): (tails: string)
    ensures |tails| == bytes && forall k | 0 <= k < bytes :: tails[k] == TAIL[0]
  {
    seq(bytes, _ => TAIL[0])
  }

  lemma {:induction false} PresentUpTo(text: string, bytes: nat, upTo: nat)
    requires text != "" && 1 <= upTo <= bytes && Present(text, bytes) >= upTo
    ensures Present(text, upTo) == upTo
  {
    if upTo < bytes {
      PresentUpTo(text, bytes - 1, upTo);
    }
  }

  /** Tail bytes put after a sequence that stops short fill it up. */
  lemma {:induction false} PresentFilled(text: string, tails: string, bytes: nat)
    requires text != "" && Present(text, |text|) == |text| && forall k | 0 <= k < |tails| :: IsTail(tails[k])
    requires 1 <= bytes <= |text| + |tails|
    ensures Present(text + tails, bytes) == bytes
  {
    if bytes > 1 {
      PresentFilled(text, tails, bytes - 1);
      if bytes <= |text| {
        PresentUpTo(text, |text|, bytes);
        PresentOn(text, tails, bytes);
      } else {
        assert (text + tails)[bytes - 1] == tails[bytes - 1 - |text|];
      }
    }
  }

  /** With the tail bytes it lacks put after it, the last letter swallows them. */
  lemma {:induction false} LastFilled(text: string)
    requires !Whole(text)
    ensures var letters := Letters(text + Tails(Missing(text))); letters != [] && letters[|letters| - 1].width >= 2
    decreases |text|
  {
    hide FirstLetter;
    var all := text + Tails(Missing(text));
    if !Complete(text) {
      var width := Announced(text[0]);
      PresentUpTo(text, width, |text|);
      PresentFilled(text, Tails(Missing(text)), width);
      assert FirstLetter(all).width == width by { FilledLetter(all); }
      assert all[width..] == "";
      assert Letters(all) == [FirstLetter(all)] + Letters(all[width..]);
    } else {
      var rest := text[FirstLetter(text).width..];
      CompleteLetter(text, Tails(Missing(text)));
      LastFilled(rest);
      assert Letters(all) == [FirstLetter(all)] + Letters(rest + Tails(Missing(rest)));
    }
  }

  lemma FilledLetter(text: string)
    requires text != "" && Present(text, Announced(text[0])) == Announced(text[0])
    ensures FirstLetter(text).width == Announced(text[0])
  {
  }

  lemma {:induction false} LastWithin(letters: seq<Letter>)
    requires letters != []
    ensures letters[|letters| - 1].width <= Width(letters)
  {
    if |letters| > 1 {
      LastWithin(letters[1..]);
    }
  }

  ghost predicate UpTo(starts: seq<nat>, high: int) {
    forall k | 0 <= k < |starts| :: starts[k] <= high
  }

  lemma UpToMore(base: nat, more: seq<nat>, high: int)
    requires UpTo(more, high) && base <= high
    ensures UpTo([base] + more, high)
  {
  }

  /** No emoji begins inside the last letter. */
  lemma {:induction false} StartsBeforeLast(letters: seq<Letter>, base: nat, joined: bool)
    requires letters != [] && Starts(letters, base, joined).Some? && forall letter | letter in letters :: letter.width > 0
    ensures UpTo(Starts(letters, base, joined).value, base + Width(letters) - letters[|letters| - 1].width)
    decreases |letters|
  {
    hide KeycapSpan; hide HeadSpan; hide UpTo; hide Width; hide Sticks;
    var high := base + Width(letters) - letters[|letters| - 1].width;
    LastWithin(letters);
    NoneUpTo(high);
    var code := letters[0].code;
    if code < 0x80 || !(Sticks(code) || joined) {
      var span := if code < 0x80 then KeycapSpan(letters).value else HeadSpan(letters);
      var next, on := base + Width(letters[..span]), code < 0x80 && joined;
      RestOfLetters(letters, span);
      if span < |letters| {
        StartsBeforeLast(letters[span..], next, on);
      }
      UpToMore(base, Starts(letters[span..], next, on).value, high);
    } else if |letters| > 1 {
      RestOfLetters(letters, 1);
      StartsBeforeLast(letters[1..], base + letters[0].width, Sticks(code) && code == JOINER);
    }
  }

  lemma RestOfLetters(letters: seq<Letter>, span: nat)
    requires 1 <= span <= |letters| && forall letter | letter in letters :: letter.width > 0
    ensures Width(letters) == Width(letters[..span]) + Width(letters[span..])
    ensures span == 1 ==> Width(letters[..span]) == letters[0].width
    ensures span < |letters| ==> letters[span..][|letters[span..]| - 1] == letters[|letters| - 1]
    ensures forall letter | letter in letters[span..] :: letter.width > 0
  {
    SpanWidth(letters, span);
    if span == 1 {
      assert letters[..1][1..] == [];
    }
  }

  lemma NoneUpTo(high: int)
    ensures UpTo([], high)
  {
  }

  lemma {:induction false} LastCut(text: string, starts: seq<nat>)
    requires starts != [] && Rising(starts, 0, |text|)
    ensures Cut(text, starts)[|starts| - 1] == text[starts[|starts| - 1]..]
    decreases |starts|
  {
    if |starts| > 1 {
      LastCut(text, starts[1..]);
    }
  }

  /** What filled slots with no bracket and no space are read back as. */
  lemma SlotsRead(slots: seq<string>)
    requires slots != [] && forall k | 0 <= k < |slots| :: slots[k] != "" && IsUnbroken(slots[k])
    ensures Read(Stored(slots)) == Expand(Concat(slots)) && Trim(Concat(slots)) == Concat(slots) && Concat(slots) != ""
  {
    hide Split;
    var text := Concat(slots);
    WrittenConcat(slots);
    ConcatUnbroken(slots);
    forall k | 0 <= k < |text|
      ensures !EmptyAt(text, k)
    {
      assert text[k] in text;
    }
    TrimmedStays(text);
    ReadPiece(text, "");
    assert text + "" == text && Expand(text) + [] == Expand(text);
  }

  lemma {:induction false} ConcatUnbroken(slots: seq<string>)
    requires forall k | 0 <= k < |slots| :: slots[k] != "" && IsUnbroken(slots[k])
    ensures IsUnbroken(Concat(slots)) && (slots != [] ==> Concat(slots) != "")
  {
    if slots != [] {
      ConcatUnbroken(slots[1..]);
    }
  }

  lemma TailClosed()
    ensures Closed(TAIL)
  {
    assert FirstLetter(TAIL) == Letter(0x80, 1);
    assert TAIL[1..] == "";
    assert Letters(TAIL) == [Letter(0x80, 1)] + Letters("");
    assert [Letter(0x80, 1)][1..] == [];
  }

  lemma {:induction false} TailsConcat(bytes: nat)
    ensures Concat(seq(bytes, _ => TAIL)) == Tails(bytes)
  {
    if bytes > 0 {
      TailsConcat(bytes - 1);
      assert seq(bytes, _ => TAIL)[1..] == seq(bytes - 1, _ => TAIL);
    }
  }

  /** An emoji that ends in a letter cut short, and after it as many tail bytes as it lacks, each in a slot of its own: the last
      slot is not read back. */
  lemma CutShort(emoji: string)
    requires Split(emoji) == Some([emoji]) && !Whole(emoji)
    ensures var slots := [emoji] + seq(Missing(emoji), _ => TAIL); Read(Stored(slots)) != slots
  {
    hide Letters; hide Starts; hide Split; hide Read; hide Stored; hide Missing; hide Whole; hide Cut;
    SingleUnbroken(emoji);
    var tails := seq(Missing(emoji), _ => TAIL);
    var slots := [emoji] + tails;
    SlotsRead(slots);
    TailsConcat(Missing(emoji));
    assert slots[1..] == tails;
    var text := Concat(slots);
    assert text == emoji + Tails(Missing(emoji));
    LastFilled(emoji);
    assert slots[|slots| - 1] == TAIL;
    LastPieceWide(text, slots);
  }

  lemma LastPieceWide(text: string, slots: seq<string>)
    requires text != "" && Trim(text) == text && Letters(text) != [] && Letters(text)[|Letters(text)| - 1].width >= 2
    requires |slots| >= 2 && |slots[|slots| - 1]| == 1
    ensures Expand(text) != slots
  {
    hide Letters; hide Starts; hide Cut;
    var starts := Starts(Letters(text), 0, false);
    if Split(text).Some? {
      LettersWidth(text);
      StartsBeforeLast(Letters(text), 0, false);
      TextStartsRise(text);
      FirstAtZero(starts.value, |text|);
      var moved := starts.value[0 := 0];
      LastCut(text, moved);
      assert moved[|moved| - 1] <= starts.value[|moved| - 1];
      assert |Cut(text, moved)[|moved| - 1]| >= 2;
    }
  }

  // ---------------------------------------------------------------- exactly the closed ones

  /** Beside that neighbour, on either side, both are read back. */
  predicate StandsBeside(emoji: string, other: string) {
    Read(Stored([emoji, other])) == [emoji, other] && Read(Stored([other, emoji])) == [other, emoji]
  }

  /** Every slot that is not empty holds that emoji or a closed one. */
  ghost predicate ClosedBut(slots: seq<string>, emoji: string) {
    forall k | 0 <= k < |slots| :: slots[k] == emoji || Fits(slots[k])
  }

  /** A single emoji is read back among closed ones, whatever slots they are in, exactly when it is closed itself. */
  lemma ClosedExactly(emoji: string)
    requires Split(emoji) == Some([emoji])
    ensures Closed(emoji) <==> forall slots | ClosedBut(slots, emoji) :: Read(Stored(slots)) == Stripped(slots)
  {
    hide Closed; hide Read; hide Stored; hide Split;
    if Closed(emoji) {
      forall slots | ClosedBut(slots, emoji)
        ensures Read(Stored(slots)) == Stripped(slots)
      {
        RoundTrip(slots);
      }
    } else {
      var slots := SomeBreak(emoji);
      assert Stripped(slots) == slots;
    }
  }

  /** Up to four slots, all of them filled, that are not read back. */
  lemma SomeBreak(emoji: string) returns (slots: seq<string>)
    requires Split(emoji) == Some([emoji]) && !Closed(emoji)
    ensures 2 <= |slots| <= 4 && ClosedBut(slots, emoji) && NoneEmpty(slots) && Read(Stored(slots)) != slots
  {
    hide Letters; hide Starts; hide Closed; hide Read; hide Stored; hide Split; hide Whole; hide Missing;
    SingleUnbroken(emoji);
    if Whole(emoji) {
      NotClosed(emoji);
      BalloonClosed();
      FlagClosed();
      var other := if StandsBeside(emoji, BALLOON) then FLAG else BALLOON;
      slots := if Read(Stored([emoji, other])) != [emoji, other] then [emoji, other] else [other, emoji];
    } else {
      TailClosed();
      CutShort(emoji);
      slots := [emoji] + seq(Missing(emoji), _ => TAIL);
    }
  }

  lemma NotClosed(emoji: string)
    requires Split(emoji) == Some([emoji]) && Whole(emoji) && !Closed(emoji)
    ensures !StandsBeside(emoji, BALLOON) || !StandsBeside(emoji, FLAG)
  {
    hide Starts; hide Read; hide Stored; hide ClosedLetters; hide FirstLetter; hide Split;
    SingleUnbroken(emoji);
    var letters := Letters(emoji);
    assert letters != [];
    if letters[0].code >= 0x80 && Sticks(letters[0].code) {
      Sticking(emoji);
    } else if |letters| == 1 && IsRegional(letters[0].code) {
      Lone(emoji);
    } else {
      Waiting(emoji);
    }
  }

  /** Half the flag of Italy and the other half: each is one emoji, and side by side they are read back as one. */
  lemma HalvesMeet()
    ensures exists one: string, other: string ::
              && Split(one) == Some([one]) && Split(other) == Some([other])
              && Read(Stored([one, other])) == [one + other]
  {
    hide FirstLetter; hide Starts; hide Letters; hide Split; hide Read; hide Stored;
    var one, other := FLAG[..4], FLAG[4..];
    HalfSingle('\U{AE}');
    HalfSingle('\U{B9}');
    FlagClosed();
    ClosedBytes(FLAG);
    assert one + other == FLAG;
    assert one == ['\U{F0}', '\U{9F}', '\U{87}', '\U{AE}'] && other == ['\U{F0}', '\U{9F}', '\U{87}', '\U{B9}'];
    assert forall c | c in one || c in other :: c in FLAG;
    TwoRead(one, other);
    SplitClosed([FLAG]);
    assert [FLAG][1..] == [] && Concat([FLAG]) == FLAG + Concat([]);
    assert Concat([FLAG][1..]) == "";
    assert Concat([FLAG]) == FLAG;
    assert Split(FLAG) == Some([FLAG]);
    assert Split(one) == Some([one]) && Split(other) == Some([other]);
    assert Read(Stored([one, other])) == Expand(FLAG) == [one + other];
  }

  lemma HalfSingle(last: char)
    requires '\U{A6}' <= last <= '\U{BF}'
    ensures var half := ['\U{F0}', '\U{9F}', '\U{87}', last]; Split(half) == Some([half])
  {
    hide FirstLetter;
    var half := ['\U{F0}', '\U{9F}', '\U{87}', last];
    FourBytesLetter('\U{87}', last, "");
    assert half == half + "";
    var letter := Letter(0x1F1C0 + last as int - 0x80, 4);
    assert Letters(half) == [letter];
    assert [letter][1..] == [];
    assert Starts([letter][1..], Width([letter][..1]), false) == Some([]);
    var none: seq<nat> := [];
    assert [0] + none == [0];
    assert Starts(Letters(half), 0, false) == Some([0]);
    TrimmedStays(half);
    assert Cut(half, [0]) == [half[0..]];
    assert half[0..] == half;
  }
}
