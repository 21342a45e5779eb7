/** src/text.cpp. A string is a sequence of bytes: each character stands for the byte of its code. */
module Text {

  // ---------------------------------------------------------------- spaces

  /** isspace of the C locale. */
  predicate IsSpace(c: char) {
    c == ' ' || '\t' <= c <= '\r'
  }

  function SkipSpaces(text: string): string {
    if text != "" && IsSpace(text[0]) then SkipSpaces(text[1..]) else text
  }

  function DropSpaces(text: string): string {
    if text != "" && IsSpace(text[|text| - 1]) then DropSpaces(text[..|text| - 1]) else text
  }

  function Trim(text: string): string {
    DropSpaces(SkipSpaces(text))
  }

  /** Nothing at either end is a space. */
  predicate Trimmed(text: string) {
    text != "" ==> !IsSpace(text[0]) && !IsSpace(text[|text| - 1])
  }

  /** Trim takes nothing but spaces, off the two ends only. */
  lemma {:induction false} TrimCuts(text: string)
    ensures exists front: string, back: string ::
      && text == front + Trim(text) + back
      && (forall c | c in front :: IsSpace(c))
      && (forall c | c in back :: IsSpace(c))
    ensures Trimmed(Trim(text))
  {
    var front := SkipCuts(text);
    var back := DropCuts(SkipSpaces(text));
    assert text == front + Trim(text) + back;
    var kept := SkipSpaces(text);
    if Trim(text) != "" {
      assert Trim(text)[0] == kept[0];
    }
  }

  lemma {:induction false} SkipCuts(text: string) returns (front: string)
    ensures text == front + SkipSpaces(text)
    ensures forall c | c in front :: IsSpace(c)
    ensures SkipSpaces(text) != "" ==> !IsSpace(SkipSpaces(text)[0])
  {
    if text != "" && IsSpace(text[0]) {
      var rest := SkipCuts(text[1..]);
      front := [text[0]] + rest;
    } else {
      front := "";
    }
  }

  lemma {:induction false} DropCuts(text: string) returns (back: string)
    ensures text == DropSpaces(text) + back
    ensures forall c | c in back :: IsSpace(c)
    ensures DropSpaces(text) != "" ==> !IsSpace(DropSpaces(text)[|DropSpaces(text)| - 1])
  {
    if text != "" && IsSpace(text[|text| - 1]) {
      var rest := DropCuts(text[..|text| - 1]);
      back := rest + [text[|text| - 1]];
    } else {
      back := "";
    }
  }

  lemma TrimmedStays(text: string)
    requires Trimmed(text)
    ensures Trim(text) == text
  {
  }

  /** The two loops of trim, shrinking the view from either end. */
  method TrimInPlace(text: string) returns (view: string)
    ensures view == Trim(text)
  {
    view := text;
    while view != "" && IsSpace(view[0])
      invariant SkipSpaces(view) == SkipSpaces(text)
      decreases |view|
    {
      view := view[1..];
    }
    while view != "" && IsSpace(view[|view| - 1])
      invariant DropSpaces(view) == Trim(text)
      decreases |view|
    {
      view := view[..|view| - 1];
    }
  }

  // ---------------------------------------------------------------- case

  /** tolower of the C locale. */
  function ToLower(c: char): char {
    if 'A' <= c <= 'Z' then c + ' ' else c
  }

  function Lower(name: string): (lowered: string)
    ensures |lowered| == |name|
  {
    if name == "" then "" else [ToLower(name[0])] + Lower(name[1..])
  }

  /** A large letter becomes the small one at its place in the alphabet, and nothing else changes. */
  lemma LowerLetters(c: char)
    ensures if 'A' <= c <= 'Z' then 'a' <= ToLower(c) <= 'z' && ToLower(c) as int - 'a' as int == c as int - 'A' as int else ToLower(c) == c
  {
  }

  // ---------------------------------------------------------------- numbers

  function Digit(d: nat): char
    requires d < 10
  {
    '0' + d as char
  }

  /** The digits of a number, none for nothing. */
  function Digits(n: nat): string {
    if n == 0 then "" else Digits(n / 10) + [Digit(n % 10)]
  }

  /** std::to_string. */
  function Decimal(n: int): string {
    if n == 0 then "0" else if n > 0 then Digits(n) else "-" + Digits(-n)
  }

  /** equals_ignore_case. */
  predicate SameName(left: string, right: string) {
    Lower(left) == Lower(right)
  }

  // ---------------------------------------------------------------- letters

  /** A code point and how many bytes it takes. */
  datatype Letter = Letter(code: int, width: nat)

  /** How many bytes the lead byte announces. */
  function Announced(lead: char): nat {
    if 0xC0 <= lead as int < 0xE0 then 2
    else if 0xE0 <= lead as int < 0xF0 then 3
    else if 0xF0 <= lead as int < 0xF8 then 4
    else 1
  }

  predicate IsTail(c: char) {
    0x80 <= c as int <= 0xBF
  }

  /** How many bytes, of that many and from the first on, the text has before a tail byte is missing. */
  function Present(text: string, bytes: nat): (present: nat)
    requires text != "" && bytes >= 1
    ensures 1 <= present <= bytes && present <= |text|
  {
    if bytes == 1 then 1
    else
      var before := Present(text, bytes - 1);
      if before == bytes - 1 && before < |text| && IsTail(text[before]) then bytes else before
  }

  /** The code point as far as its first bytes tell it: a tail byte carries six bits. */
  function Built(text: string, bytes: nat): int
    requires 1 <= bytes <= |text|
  {
    if bytes > 1 then Built(text, bytes - 1) * 64 + (text[bytes - 1] as int - 0x80)
    else match Announced(text[0])
      case 2 => text[0] as int - 0xC0
      case 3 => text[0] as int - 0xE0
      case 4 => text[0] as int - 0xF0
      case _ => text[0] as int
  }

  /** letter_at: the code point the text begins with, or its lead byte alone when a tail byte is missing. */
  function FirstLetter(text: string): (letter: Letter)
    requires text != ""
    ensures 1 <= letter.width <= |text|
  {
    var width := Announced(text[0]);
    if Present(text, width) == width then Letter(Built(text, width), width) else Letter(text[0] as int, 1)
  }

  /** Whatever follows the text, its first letter stays what it is: its end cuts no sequence short. */
  predicate Complete(text: string)
    requires text != ""
  {
    var width := Announced(text[0]);
    Present(text, width) == width || Present(text, width) < |text|
  }

  lemma {:induction false} PresentOn(text: string, rest: string, bytes: nat)
    requires text != "" && bytes >= 1
    requires Present(text, bytes) == bytes || Present(text, bytes) < |text|
    ensures Present(text + rest, bytes) == Present(text, bytes)
  {
    if bytes > 1 {
      PresentOn(text, rest, bytes - 1);
    }
  }

  lemma {:induction false} BuiltOn(text: string, rest: string, bytes: nat)
    requires 1 <= bytes <= |text|
    ensures Built(text + rest, bytes) == Built(text, bytes)
  {
    if bytes > 1 {
      BuiltOn(text, rest, bytes - 1);
    }
  }

  lemma CompleteLetter(text: string, rest: string)
    requires text != "" && Complete(text)
    ensures FirstLetter(text + rest) == FirstLetter(text)
    ensures Complete(text + rest)
    ensures (text + rest)[FirstLetter(text).width..] == text[FirstLetter(text).width..] + rest
  {
    var width := Announced(text[0]);
    PresentOn(text, rest, width);
    if Present(text, width) == width {
      BuiltOn(text, rest, width);
    }
  }

  /** The letters a text is read as, one after the other. */
  function Letters(text: string): (letters: seq<Letter>)
  {
    if text == "" then [] else [FirstLetter(text)] + Letters(text[FirstLetter(text).width..])
  }

  /** The text ends with a whole letter. */
  predicate Whole(text: string) {
    text == "" || (Complete(text) && Whole(text[FirstLetter(text).width..]))
  }

  function Width(letters: seq<Letter>): nat {
    if letters == [] then 0 else letters[0].width + Width(letters[1..])
  }

  lemma {:induction false} LettersJoin(text: string, rest: string)
    requires Whole(text)
    ensures Letters(text + rest) == Letters(text) + Letters(rest)
  {
    if text == "" {
      assert text + rest == rest;
    } else {
      CompleteLetter(text, rest);
      LettersJoin(text[FirstLetter(text).width..], rest);
    }
  }

  /** Each letter takes the bytes it was read from. */
  lemma {:induction false} LettersWidth(text: string)
    ensures Width(Letters(text)) == |text|
    ensures forall letter | letter in Letters(text) :: letter.width > 0
  {
    if text != "" {
      LettersWidth(text[FirstLetter(text).width..]);
    }
  }

  lemma {:induction false} WidthJoin(front: seq<Letter>, back: seq<Letter>)
    ensures Width(front + back) == Width(front) + Width(back)
  {
    if front == [] {
      assert front + back == back;
    } else {
      assert (front + back)[1..] == front[1..] + back;
      WidthJoin(front[1..], back);
    }
  }
}
