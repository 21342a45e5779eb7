/** src/text.cpp: a text cut into the emoji it is made of. */
module Emoji {
  import opened Basics
  import opened Text

  const JOINER := 0x200D
  const COLOUR := 0xFE0F
  const KEYCAP := 0x20E3

  predicate Sticks(code: int) {
    || code == JOINER
    || code == COLOUR || code == 0xFE0E
    || code == KEYCAP
    || 0x1F3FB <= code <= 0x1F3FF
    || 0xE0020 <= code <= 0xE007F
  }

  predicate IsRegional(code: int) {
    0x1F1E6 <= code <= 0x1F1FF
  }

  /** A digit, # or * wearing the keycap square, with or without the colour selector: how many letters it is. */
  function KeycapSpan(letters: seq<Letter>): (span: Option<nat>)
    requires letters != []
    ensures span.Some? ==> 2 <= span.value <= |letters|
  {
    var code := letters[0].code;
    if !(0x30 <= code <= 0x39 || code == 0x23 || code == 0x2A) then None
    else if |letters| > 1 && letters[1].code == KEYCAP then Some(2)
    else if |letters| > 2 && letters[1].code == COLOUR && letters[2].code == KEYCAP then Some(3)
    else None
  }

  /** Two regional letters are one flag. */
  function HeadSpan(letters: seq<Letter>): (span: nat)
    requires letters != []
    ensures 1 <= span <= |letters|
  {
    if IsRegional(letters[0].code) && |letters| > 1 && IsRegional(letters[1].code) then 2 else 1
  }

  /** Where each emoji begins, counted from base; nothing when one of the letters is not of an emoji. */
  function Starts(letters: seq<Letter>, base: nat, joined: bool): (starts: Option<seq<nat>>)
  {
    if letters == [] then Some([]) else
    var code := letters[0].code;
    if code < 0x80 then
      var span :- KeycapSpan(letters);
      var more :- Starts(letters[span..], base + Width(letters[..span]), joined);
      Some([base] + more)
    else if Sticks(code) then
      Starts(letters[1..], base + letters[0].width, code == JOINER)
    else if joined then
      Starts(letters[1..], base + letters[0].width, false)
    else
      var span := HeadSpan(letters);
      var more :- Starts(letters[span..], base + Width(letters[..span]), false);
      Some([base] + more)
  }

  /** The starts go up, from low at the least, and stay under high. */
  ghost predicate Rising(starts: seq<nat>, low: nat, high: nat) {
    && (forall k | 0 <= k < |starts| :: low <= starts[k] < high)
    && (forall j, k | 0 <= j < k < |starts| :: starts[j] < starts[k])
  }

  lemma SpanWidth(letters: seq<Letter>, span: nat)
    requires 1 <= span <= |letters|
    requires forall letter | letter in letters :: letter.width > 0
    ensures Width(letters) == Width(letters[..span]) + Width(letters[span..])
    ensures Width(letters[..span]) > 0
  {
    WidthJoin(letters[..span], letters[span..]);
    assert letters == letters[..span] + letters[span..];
  }

  lemma RisingMore(base: nat, more: seq<nat>, low: nat, high: nat)
    requires Rising(more, low, high) && base < low <= high
    ensures Rising([base] + more, base, high)
  {
  }

  lemma {:induction false} StartsRise(letters: seq<Letter>, base: nat, joined: bool)
    requires forall letter | letter in letters :: letter.width > 0
    requires Starts(letters, base, joined).Some?
    ensures Rising(Starts(letters, base, joined).value, base, base + Width(letters))
    decreases |letters|
  {
    hide KeycapSpan;
    hide HeadSpan;
    if letters != [] {
      var code := letters[0].code;
      if code < 0x80 || !(Sticks(code) || joined) {
        var span := if code < 0x80 then KeycapSpan(letters).value else HeadSpan(letters);
        var next, on := base + Width(letters[..span]), code < 0x80 && joined;
        SpanWidth(letters, span);
        StartsRise(letters[span..], next, on);
        RisingMore(base, Starts(letters[span..], next, on).value, next, base + Width(letters));
      } else {
        StartsRise(letters[1..], base + letters[0].width, Sticks(code) && code == JOINER);
      }
    }
  }

  /** Each emoji runs up to where the next one begins. */
  function Cut(text: string, starts: seq<nat>): (pieces: seq<string>)
    requires Rising(starts, 0, |text|)
    ensures |pieces| == |starts|
    decreases |starts|
  {
    if starts == [] then []
    else if |starts| == 1 then [text[starts[0]..]]
    else [text[starts[0]..starts[1]]] + Cut(text, starts[1..])
  }

  lemma TextStartsRise(text: string)
    requires Starts(Letters(text), 0, false).Some?
    ensures Rising(Starts(Letters(text), 0, false).value, 0, |text|)
  {
    hide FirstLetter;
    hide Letters;
    hide Starts;
    LettersWidth(text);
    StartsRise(Letters(text), 0, false);
  }

  lemma FirstAtZero(starts: seq<nat>, high: nat)
    requires starts != [] && Rising(starts, 0, high)
    ensures Rising(starts[0 := 0], 0, high)
  {
    var moved := starts[0 := 0];
    forall j, k | 0 <= j < k < |moved|
      ensures moved[j] < moved[k]
    {
      assert starts[0] < starts[k];
    }
  }

  /** emoji_split. What sticks in front of the first emoji belongs to it. */
  function Split(text: string): (pieces: Option<seq<string>>)
    ensures pieces.Some? ==> pieces.value != []
  {
    var emoji := Trim(text);
    var starts :- Starts(Letters(emoji), 0, false);
    if starts == [] then None else
    TextStartsRise(emoji);
    FirstAtZero(starts, |emoji|);
    Some(Cut(emoji, starts[0 := 0]))
  }

  function Concat(pieces: seq<string>): string {
    if pieces == [] then "" else pieces[0] + Concat(pieces[1..])
  }

  lemma {:induction false} CutJoins(text: string, starts: seq<nat>)
    requires starts != [] && Rising(starts, 0, |text|)
    ensures Concat(Cut(text, starts)) == text[starts[0]..]
    ensures forall k | 0 <= k < |starts| :: Cut(text, starts)[k] != ""
    decreases |starts|
  {
    if |starts| == 1 {
      assert Cut(text, starts)[1..] == [];
    } else {
      CutJoins(text, starts[1..]);
      assert Cut(text, starts)[1..] == Cut(text, starts[1..]);
      assert text[starts[0]..] == text[starts[0]..starts[1]] + text[starts[1]..];
    }
  }

  /** The pieces are a partition of the trimmed text: put together again they are all of it. */
  lemma SplitPartitions(text: string)
    requires Split(text).Some?
    ensures Concat(Split(text).value) == Trim(text)
    ensures forall k | 0 <= k < |Split(text).value| :: Split(text).value[k] != ""
  {
    var emoji := Trim(text);
    TextStartsRise(emoji);
    FirstAtZero(Starts(Letters(emoji), 0, false).value, |emoji|);
    CutJoins(emoji, Starts(Letters(emoji), 0, false).value[0 := 0]);
    assert emoji[0..] == emoji;
  }

  // ---------------------------------------------------------------- closed emoji

  /** What is left of an emoji after its head: nothing but what sticks or is joined, to the very end, and no
      joiner waiting for more. */
  predicate Trails(letters: seq<Letter>, joined: bool) {
    if letters == [] then !joined else
    var code := letters[0].code;
    && code >= 0x80
    && (Sticks(code) || joined)
    && Trails(letters[1..], code == JOINER)
  }

  predicate ClosedLetters(letters: seq<Letter>) {
    && letters != []
    && var code := letters[0].code;
       if code < 0x80 then
         KeycapSpan(letters).Some? && Trails(letters[KeycapSpan(letters).value..], false)
       else
         && !Sticks(code)
         && (IsRegional(code) ==> |letters| > 1)
         && Trails(letters[HeadSpan(letters)..], false)
  }

  /** A single emoji that no neighbour changes: it sticks to nothing before it, waits for nothing after it, is no
      lone regional letter and ends with a whole letter. */
  predicate Closed(emoji: string) {
    Whole(emoji) && ClosedLetters(Letters(emoji))
  }

  lemma {:induction false} TrailsOn(letters: seq<Letter>, after: seq<Letter>, base: nat, joined: bool)
    requires Trails(letters, joined)
    ensures Starts(letters + after, base, joined) == Starts(after, base + Width(letters), false)
    decreases |letters|
  {
    if letters == [] {
      assert letters + after == after;
    } else {
      assert (letters + after)[1..] == letters[1..] + after;
      TrailsOn(letters[1..], after, base + letters[0].width, letters[0].code == JOINER);
    }
  }

  /** A closed emoji is one start, whatever comes after it. */
  lemma ClosedOn(letters: seq<Letter>, after: seq<Letter>, base: nat)
    requires ClosedLetters(letters)
    ensures var more := Starts(after, base + Width(letters), false);
            Starts(letters + after, base, false) == if more.Some? then Some([base] + more.value) else None
  {
    var code := letters[0].code;
    var span := if code < 0x80 then KeycapSpan(letters).value else HeadSpan(letters);
    var all := letters + after;
    assert if code < 0x80 then KeycapSpan(all) == Some(span) else HeadSpan(all) == span;
    assert all[..span] == letters[..span];
    assert all[span..] == letters[span..] + after;
    TrailsOn(letters[span..], after, base + Width(letters[..span]), false);
    WidthJoin(letters[..span], letters[span..]);
    assert letters == letters[..span] + letters[span..];
  }

  ghost predicate AllClosed(emoji: seq<string>) {
    forall k | 0 <= k < |emoji| :: Closed(emoji[k])
  }

  /** Closed emoji written one after the other are each one start. */
  function Offsets(emoji: seq<string>, base: nat): (offsets: seq<nat>)
    ensures |offsets| == |emoji|
  {
    if emoji == [] then [] else [base] + Offsets(emoji[1..], base + |emoji[0]|)
  }

  lemma ClosedStart(one: string, rest: string, base: nat, offsets: seq<nat>)
    requires Closed(one) && Whole(rest)
    requires Starts(Letters(rest), base + |one|, false) == Some(offsets)
    ensures Starts(Letters(one + rest), base, false) == Some([base] + offsets)
  {
    hide FirstLetter;
    hide ClosedLetters;
    hide Starts;
    hide Letters;
    hide Whole;
    LettersJoin(one, rest);
    LettersWidth(one);
    ClosedOn(Letters(one), Letters(rest), base);
  }

  lemma {:induction false} ClosedStarts(emoji: seq<string>, base: nat)
    requires AllClosed(emoji)
    ensures Whole(Concat(emoji))
    ensures Starts(Letters(Concat(emoji)), base, false) == Some(Offsets(emoji, base))
  {
    hide FirstLetter;
    hide ClosedLetters;
    if emoji != [] {
      ClosedStarts(emoji[1..], base + |emoji[0]|);
      WholeJoins(emoji[0], Concat(emoji[1..]));
      ClosedStart(emoji[0], Concat(emoji[1..]), base, Offsets(emoji[1..], base + |emoji[0]|));
    }
  }

  lemma {:induction false} WholeJoins(text: string, rest: string)
    requires Whole(text) && Whole(rest)
    ensures Whole(text + rest)
  {
    if text == "" {
      assert text + rest == rest;
    } else {
      CompleteLetter(text, rest);
      WholeJoins(text[FirstLetter(text).width..], rest);
    }
  }

  lemma {:induction false} OffsetsRise(emoji: seq<string>, base: nat)
    requires forall k | 0 <= k < |emoji| :: emoji[k] != ""
    ensures Rising(Offsets(emoji, base), base, base + |Concat(emoji)|)
  {
    if emoji != [] {
      OffsetsRise(emoji[1..], base + |emoji[0]|);
    }
  }

  /** The text from there on, an emoji and the rest. */
  lemma OneOff(text: string, base: nat, one: string, rest: string)
    requires base <= |text| && text[base..] == one + rest
    ensures var next := base + |one|;
            next <= |text| && text[base..next] == one && text[next..] == rest && (rest == "" ==> text[base..] == one)
  {
    var next := base + |one|;
    assert text[base..next] == text[base..][..|one|];
    assert text[next..] == text[base..][|one|..];
  }

  lemma {:induction false} CutOffsets(text: string, base: nat, emoji: seq<string>)
    requires forall k | 0 <= k < |emoji| :: emoji[k] != ""
    requires base <= |text| && text[base..] == Concat(emoji)
    ensures Rising(Offsets(emoji, base), 0, |text|)
    ensures Cut(text, Offsets(emoji, base)) == emoji
    decreases |emoji|
  {
    OffsetsRise(emoji, base);
    if emoji != [] {
      OneOff(text, base, emoji[0], Concat(emoji[1..]));
      CutOffsets(text, base + |emoji[0]|, emoji[1..]);
    }
  }

  lemma {:induction false} PresentTails(text: string, bytes: nat, k: nat)
    requires text != "" && 1 <= k < bytes && Present(text, bytes) == bytes
    ensures IsTail(text[k])
  {
    if k + 1 < bytes {
      PresentTails(text, bytes - 1, k);
    }
  }

  /** An ASCII byte is always a letter of its own. */
  lemma {:induction false} AsciiStands(text: string, k: nat)
    requires k < |text| && text[k] as int < 0x80
    ensures Letter(text[k] as int, 1) in Letters(text)
  {
    var width := FirstLetter(text).width;
    if k > 0 {
      if k < width {
        PresentTails(text, width, k);
      }
      AsciiStands(text[width..], k - width);
    }
  }

  lemma {:induction false} TrailsCodes(letters: seq<Letter>, joined: bool)
    requires Trails(letters, joined)
    ensures forall letter | letter in letters :: letter.code >= 0x80
  {
    if letters != [] {
      TrailsCodes(letters[1..], letters[0].code == JOINER);
    }
  }

  /** What an emoji may be made of. */
  predicate IsOfEmoji(code: int) {
    code >= 0x80 || 0x30 <= code <= 0x39 || code == 0x23 || code == 0x2A
  }

  lemma {:induction false} StartsCodes(letters: seq<Letter>, base: nat, joined: bool)
    requires Starts(letters, base, joined).Some?
    ensures forall letter | letter in letters :: IsOfEmoji(letter.code)
    decreases |letters|
  {
    if letters != [] {
      var code := letters[0].code;
      var span := if code < 0x80 then KeycapSpan(letters).value else if Sticks(code) || joined then 1 else HeadSpan(letters);
      if code >= 0x80 && (Sticks(code) || joined) {
        StartsCodes(letters[1..], base + letters[0].width, Sticks(code) && code == JOINER);
      } else {
        StartsCodes(letters[span..], base + Width(letters[..span]), code < 0x80 && joined);
      }
      assert letters == letters[..span] + letters[span..];
    }
  }

  /** A closed emoji holds no space and neither bracket of an empty slot. */
  lemma ClosedBytes(emoji: string)
    requires Closed(emoji)
    ensures emoji != ""
    ensures forall c | c in emoji :: !IsSpace(c) && c != '[' && c != ']'
  {
    var letters := Letters(emoji);
    var span := if letters[0].code < 0x80 then KeycapSpan(letters).value else HeadSpan(letters);
    TrailsCodes(letters[span..], false);
    forall letter | letter in letters
      ensures letter.code >= 0x80 || 0x30 <= letter.code <= 0x39 || letter.code == 0x23 || letter.code == 0x2A
    {
      assert letters == letters[..span] + letters[span..];
    }
    forall c | c in emoji
      ensures !IsSpace(c) && c != '[' && c != ']'
    {
      var k :| 0 <= k < |emoji| && emoji[k] == c;
      if c as int < 0x80 {
        AsciiStands(emoji, k);
      }
    }
  }

  lemma {:induction false} ConcatBytes(emoji: seq<string>)
    requires AllClosed(emoji)
    ensures forall c | c in Concat(emoji) :: !IsSpace(c) && c != '[' && c != ']'
    ensures emoji != [] ==> Concat(emoji) != ""
  {
    if emoji != [] {
      ClosedBytes(emoji[0]);
      ConcatBytes(emoji[1..]);
    }
  }

  /** Compositional over closed pieces: written together, they are split into exactly themselves. */
  lemma SplitClosed(emoji: seq<string>)
    requires emoji != []
    requires AllClosed(emoji)
    ensures Split(Concat(emoji)) == Some(emoji)
  {
    ConcatBytes(emoji);
    var text := Concat(emoji);
    TrimmedStays(text);
    ClosedStarts(emoji, 0);
    forall k | 0 <= k < |emoji| ensures emoji[k] != "" { ClosedBytes(emoji[k]); }
    assert text[0..] == text;
    CutOffsets(text, 0, emoji);
    assert Offsets(emoji, 0)[0 := 0] == Offsets(emoji, 0);
  }

  // ---------------------------------------------------------------- the loops

  /** letter_at: the tail bytes are read one by one, and one that is missing leaves the lead byte alone. */
  method LetterAt(text: string, at: nat) returns (letter: Letter)
    requires at < |text|
    ensures letter == FirstLetter(text[at..])
    ensures 1 <= letter.width && at + letter.width <= |text|
  {
    var lead := text[at];
    var width := Announced(lead);
    var code := lead as int;
    if width == 2 {
      code := lead as int - 0xC0;
    } else if width == 3 {
      code := lead as int - 0xE0;
    } else if width == 4 {
      code := lead as int - 0xF0;
    }
    ghost var view := text[at..];
    var index := 1;
    while index < width
      invariant 1 <= index <= width && index <= |view|
      invariant Present(view, index) == index
      invariant code == Built(view, index)
    {
      if at + index >= |text| {
        PresentStops(view, index, width);
        return Letter(lead as int, 1);
      }
      var next := text[at + index] as int;
      if next < 0x80 || next > 0xBF {
        PresentStops(view, index, width);
        return Letter(lead as int, 1);
      }
      code := code * 64 + (next - 0x80);
      index := index + 1;
    }
    letter := Letter(code, width);
  }

  lemma {:induction false} PresentStops(text: string, index: nat, width: nat)
    requires text != "" && 1 <= index < width && Present(text, index) == index
    requires index == |text| || !IsTail(text[index])
    ensures Present(text, width) == index
  {
    if width > index + 1 {
      PresentStops(text, index, width - 1);
    }
  }

  lemma LettersUnfold(text: string, at: nat)
    requires at < |text|
    ensures var first := FirstLetter(text[at..]);
            Letters(text[at..]) == [first] + Letters(text[at + first.width..])
  {
    var first := FirstLetter(text[at..]);
    assert text[at..][first.width..] == text[at + first.width..];
  }

  /** Where the keycap that begins there ends. */
  function KeycapEnd(text: string, begin: nat): (end: Option<nat>)
    requires begin < |text|
    ensures end.Some? ==> begin < end.value <= |text|
  {
    var first := FirstLetter(text[begin..]);
    var at := begin + first.width;
    if !(0x30 <= first.code <= 0x39 || first.code == 0x23 || first.code == 0x2A) || at >= |text| then None else
    var next := FirstLetter(text[at..]);
    var end := at + next.width;
    if next.code == KEYCAP then Some(end)
    else if next.code != COLOUR || end >= |text| then None else
    var square := FirstLetter(text[end..]);
    if square.code == KEYCAP then Some(end + square.width) else None
  }

  /** Where the head of the emoji that begins there ends. */
  function HeadEnd(text: string, begin: nat): (end: nat)
    requires begin < |text|
    ensures begin < end <= |text|
  {
    var first := FirstLetter(text[begin..]);
    var at := begin + first.width;
    if IsRegional(first.code) && at < |text| && IsRegional(FirstLetter(text[at..]).code)
    then at + FirstLetter(text[at..]).width
    else at
  }

  /** The starts from there on, read off the bytes. */
  function StartsFrom(text: string, at: nat, joined: bool): Option<seq<nat>>
    requires at <= |text|
    decreases |text| - at
  {
    if at == |text| then Some([]) else
    var first := FirstLetter(text[at..]);
    if first.code < 0x80 then
      var end :- KeycapEnd(text, at);
      var more :- StartsFrom(text, end, joined);
      Some([at] + more)
    else if Sticks(first.code) then StartsFrom(text, at + first.width, first.code == JOINER)
    else if joined then StartsFrom(text, at + first.width, false)
    else
      var more :- StartsFrom(text, HeadEnd(text, at), false);
      Some([at] + more)
  }

  lemma LettersFrom(text: string, at: nat)
    requires at < |text|
    ensures var letters, next := Letters(text[at..]), at + FirstLetter(text[at..]).width;
            && letters != [] && letters[0] == FirstLetter(text[at..])
            && letters[1..] == Letters(text[next..])
            && (next == |text| <==> |letters| == 1)
  {
    LettersUnfold(text, at);
  }

  lemma SpanWidths(letters: seq<Letter>)
    ensures |letters| >= 1 ==> Width(letters[..1]) == letters[0].width
    ensures |letters| >= 2 ==> Width(letters[..2]) == letters[0].width + letters[1].width
    ensures |letters| >= 3 ==> Width(letters[..3]) == letters[0].width + letters[1].width + letters[2].width
  {
    if |letters| >= 1 {
      assert letters[..1][1..] == [];
    }
    if |letters| >= 2 {
      assert letters[..2][1..] == [letters[1]];
      assert [letters[1]][1..] == [];
    }
    if |letters| >= 3 {
      assert letters[..3][1..] == [letters[1], letters[2]];
      assert [letters[1], letters[2]][1..] == [letters[2]];
      assert [letters[2]][1..] == [];
      assert Width([letters[1], letters[2]]) == letters[1].width + Width([letters[2]]);
    }
  }

  /** The first letters from there on, and where they end. */
  lemma LettersAhead(text: string, at: nat)
    requires at < |text|
    ensures var letters, next := Letters(text[at..]), at + FirstLetter(text[at..]).width;
            && letters != []
            && (|letters| > 1 <==> next < |text|)
            && (next < |text| ==>
                  && letters[1] == FirstLetter(text[next..])
                  && var after := next + letters[1].width;
                     && letters[2..] == Letters(text[after..])
                     && (|letters| > 2 <==> after < |text|)
                     && (after < |text| ==>
                           && letters[2] == FirstLetter(text[after..])
                           && letters[3..] == Letters(text[after + letters[2].width..])))
  {
    hide FirstLetter; hide Letters;
    var letters, next := Letters(text[at..]), at + FirstLetter(text[at..]).width;
    LettersFrom(text, at);
    if next < |text| {
      LettersFrom(text, next);
      assert letters[2..] == letters[1..][1..];
      var after := next + letters[1].width;
      if after < |text| {
        LettersFrom(text, after);
        assert letters[3..] == letters[2..][1..];
      }
    }
  }

  lemma KeycapSame(text: string, at: nat)
    requires at < |text|
    ensures var letters, end := Letters(text[at..]), KeycapEnd(text, at);
            && letters != []
            && var span := KeycapSpan(letters);
            && end.Some? == span.Some?
            && (end.Some? ==> letters[span.value..] == Letters(text[end.value..]) &&
                              end.value == at + Width(letters[..span.value]))
  {
    hide FirstLetter;
    LettersFrom(text, at);
    LettersAhead(text, at);
    SpanWidths(Letters(text[at..]));
  }

  lemma HeadSame(text: string, at: nat)
    requires at < |text|
    ensures var letters, end := Letters(text[at..]), HeadEnd(text, at);
            && letters != []
            && letters[HeadSpan(letters)..] == Letters(text[end..])
            && end == at + Width(letters[..HeadSpan(letters)])
  {
    var letters := Letters(text[at..]);
    LettersFrom(text, at);
    SpanWidths(letters);
    var next := at + letters[0].width;
    if next < |text| {
      LettersFrom(text, next);
      assert letters[2..] == letters[1..][1..];
    }
  }

  lemma LettersEnd(text: string)
    ensures Letters(text[|text|..]) == []
  {
  }

  lemma {:induction false} StartsSame(text: string, at: nat, joined: bool)
    requires at <= |text|
    ensures StartsFrom(text, at, joined) == Starts(Letters(text[at..]), at, joined)
    decreases |text| - at
  {
    hide FirstLetter;
    hide Letters;
    hide KeycapEnd;
    hide KeycapSpan;
    hide HeadEnd;
    hide HeadSpan;
    LettersEnd(text);
    if at < |text| {
      var first := FirstLetter(text[at..]);
      LettersFrom(text, at);
      if first.code < 0x80 {
        KeycapSame(text, at);
        if KeycapEnd(text, at).Some? {
          StartsSame(text, KeycapEnd(text, at).value, joined);
        }
      } else if Sticks(first.code) {
        StartsSame(text, at + first.width, first.code == JOINER);
      } else if joined {
        StartsSame(text, at + first.width, false);
      } else {
        HeadSame(text, at);
        StartsSame(text, HeadEnd(text, at), false);
      }
    }
  }

  /** What is still to be found comes after the starts already found. */
  ghost predicate Adds(all: Option<seq<nat>>, starts: seq<nat>, more: Option<seq<nat>>) {
    all == if more.Some? then Some(starts + more.value) else None
  }

  lemma AddsOne(all: Option<seq<nat>>, starts: seq<nat>, at: nat, more: Option<seq<nat>>)
    requires Adds(all, starts, if more.Some? then Some([at] + more.value) else None)
    ensures Adds(all, starts + [at], more)
  {
    if more.Some? {
      assert starts + ([at] + more.value) == (starts + [at]) + more.value;
    }
  }

  /** Where an emoji that begins there ends. */
  function EndOf(text: string, starts: seq<nat>, index: nat): nat {
    if index + 1 < |starts| then starts[index + 1] else |text|
  }

  lemma RisingOn(starts: seq<nat>, index: nat, high: nat)
    requires Rising(starts, 0, high) && index <= |starts|
    ensures Rising(starts[index..], 0, high)
  {
  }

  lemma CutHead(text: string, starts: seq<nat>)
    requires Rising(starts, 0, |text|) && starts != []
    ensures Rising(starts[1..], 0, |text|)
    ensures starts[0] < EndOf(text, starts, 0) <= |text|
    ensures Cut(text, starts) == [text[starts[0]..EndOf(text, starts, 0)]] + Cut(text, starts[1..])
  {
    assert text[starts[0]..|text|] == text[starts[0]..];
  }

  lemma CutStep(text: string, starts: seq<nat>, index: nat)
    requires Rising(starts, 0, |text|) && index < |starts|
    ensures Rising(starts[index..], 0, |text|) && Rising(starts[index + 1..], 0, |text|)
    ensures starts[index] < EndOf(text, starts, index) <= |text|
    ensures Cut(text, starts[index..]) == [text[starts[index]..EndOf(text, starts, index)]] + Cut(text, starts[index + 1..])
  {
    hide Cut; hide Rising;
    RisingOn(starts, index, |text|);
    CutHead(text, starts[index..]);
    assert starts[index..][1..] == starts[index + 1..];
  }

  lemma CutAll(text: string, starts: seq<nat>)
    requires Rising(starts, 0, |text|)
    ensures starts[0..] == starts && Cut(text, starts[|starts|..]) == []
  {
  }

  method Pieces(text: string, starts: seq<nat>) returns (pieces: seq<string>)
    requires Rising(starts, 0, |text|)
    ensures pieces == Cut(text, starts)
  {
    hide Cut; hide Rising; hide EndOf;
    pieces := [];
    CutAll(text, starts);
    for index := 0 to |starts|
      invariant Rising(starts[index..], 0, |text|)
      invariant pieces + Cut(text, starts[index..]) == Cut(text, starts)
    {
      CutStep(text, starts, index);
      ghost var rest := Cut(text, starts[index + 1..]);
      var piece := text[starts[index]..EndOf(text, starts, index)];
      assert pieces + ([piece] + rest) == (pieces + [piece]) + rest;
      pieces := pieces + [piece];
    }
    assert pieces + [] == pieces;
  }

  /** emoji_split, byte after byte. */
  method EmojiSplit(text: string) returns (pieces: Option<seq<string>>)
    ensures pieces == Split(text)
  {
    var emoji := TrimInPlace(text);
    if emoji == "" {
      return None;
    }
    var starts := FindStarts(emoji);
    StartsSame(emoji, 0, false);
    assert emoji[0..] == emoji;
    if starts.None? || starts.value == [] {
      return None;
    }
    TextStartsRise(emoji);
    FirstAtZero(starts.value, |emoji|);
    var found := Pieces(emoji, starts.value[0 := 0]);
    return Some(found);
  }

  /** The first loop of emoji_split: where each emoji begins. */
  method FindStarts(emoji: string) returns (starts: Option<seq<nat>>)
    ensures starts == StartsFrom(emoji, 0, false)
  {
    hide FirstLetter;
    var found: seq<nat> := [];
    var joined := false;
    var at := 0;
    ghost var all := StartsFrom(emoji, 0, false);
    assert all.Some? ==> [] + all.value == all.value;
    while at < |emoji|
      invariant at <= |emoji|
      invariant Adds(all, found, StartsFrom(emoji, at, joined))
      decreases |emoji| - at
    {
      var begin := at;
      var letter := LetterAt(emoji, at);
      at := at + letter.width;
      if letter.code < 0x80 {
        var couldBeKeycap := 0x30 <= letter.code <= 0x39 || letter.code == 0x23 || letter.code == 0x2A;
        if !couldBeKeycap || at >= |emoji| {
          return None;
        }
        var next := LetterAt(emoji, at);
        if next.code == COLOUR {
          at := at + next.width;
          if at >= |emoji| {
            return None;
          }
          next := LetterAt(emoji, at);
        }
        if next.code != KEYCAP {
          return None;
        }
        at := at + next.width;
        AddsOne(all, found, begin, StartsFrom(emoji, at, joined));
        found := found + [begin];
      } else if Sticks(letter.code) {
        joined := letter.code == JOINER;
      } else if joined {
        joined := false;
      } else {
        if IsRegional(letter.code) && at < |emoji| {
          var second := LetterAt(emoji, at);
          if IsRegional(second.code) {
            at := at + second.width;
          }
        }
        AddsOne(all, found, begin, StartsFrom(emoji, at, false));
        found := found + [begin];
      }
    }
    assert found + [] == found;
    return Some(found);
  }
}
