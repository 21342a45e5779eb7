/** src/game.cpp, furniture_slots and furniture_stored: a house, or what is on a player, is kept as one string and
    read back into its slots by every operation. An empty string stands for an empty slot. */
module Slots {
  import opened Text
  import opened Emoji

  const EMPTY := "[]"

  predicate EmptyAt(stored: string, k: nat) {
    k + 1 < |stored| && stored[k] == '[' && stored[k + 1] == ']'
  }

  /** No empty slot is written in it. */
  ghost predicate NoEmpty(piece: string) {
    forall k | 0 <= k < |piece| :: !EmptyAt(piece, k)
  }

  /** Where the first empty slot is written, from there on, or the end. */
  function FindEmpty(stored: string, from: nat): (at: nat)
    requires from <= |stored|
    ensures from <= at <= |stored|
    ensures at < |stored| ==> EmptyAt(stored, at)
    ensures forall k | from <= k < at :: !EmptyAt(stored, k)
    decreases |stored| - from
  {
    if from == |stored| || EmptyAt(stored, from) then from else FindEmpty(stored, from + 1)
  }

  /** What is between two empty slots: its emoji, or as it is when it is not made of emoji. */
  function Expand(piece: string): seq<string> {
    var emoji := Split(piece);
    if emoji.Some? then emoji.value else [piece]
  }

  function Read(stored: string): seq<string>
    decreases |stored|
  {
    if stored == "" then []
    else if EmptyAt(stored, 0) then [""] + Read(stored[2..])
    else
      var end := FindEmpty(stored, 0);
      Expand(stored[..end]) + Read(stored[end..])
  }

  function Stripped(slots: seq<string>): (stripped: seq<string>)
    ensures stripped <= slots
    ensures stripped != [] ==> stripped[|stripped| - 1] != ""
    ensures forall k | |stripped| <= k < |slots| :: slots[k] == ""
  {
    if slots != [] && slots[|slots| - 1] == "" then Stripped(slots[..|slots| - 1]) else slots
  }

  function Written(slots: seq<string>): string {
    if slots == [] then ""
    else (if slots[0] == "" then EMPTY else slots[0]) + Written(slots[1..])
  }

  function Stored(slots: seq<string>): string {
    Written(Stripped(slots))
  }

  // ---------------------------------------------------------------- the loops

  lemma Joined(read: seq<string>, part: seq<string>, rest: seq<string>)
    ensures read + (part + rest) == (read + part) + rest
  {
  }

  /** furniture_slots. */
  method ReadSlots(stored: string) returns (slots: seq<string>)
    ensures slots == Read(stored)
  {
    slots := [];
    var view := stored;
    while view != ""
      invariant slots + Read(view) == Read(stored)
      decreases |view|
    {
      var part, rest := [""], "";
      if EmptyAt(view, 0) {
        rest := view[2..];
      } else {
        var end := FindEmpty(view, 0);
        var emoji := Split(view[..end]);
        part := if emoji.Some? then emoji.value else [view[..end]];
        rest := view[end..];
      }
      assert Read(view) == part + Read(rest);
      Joined(slots, part, Read(rest));
      slots, view := slots + part, rest;
    }
  }

  /** The empty slots come off the end. */
  method StripSlots(slots: seq<string>) returns (kept: seq<string>)
    ensures kept == Stripped(slots)
  {
    kept := slots;
    while kept != [] && kept[|kept| - 1] == ""
      invariant Stripped(kept) == Stripped(slots)
      decreases |kept|
    {
      kept := kept[..|kept| - 1];
    }
  }

  /** furniture_stored. */
  method StoreSlots(slots: seq<string>) returns (stored: string)
    ensures stored == Stored(slots)
  {
    var kept := StripSlots(slots);
    stored := "";
    for k := 0 to |kept|
      invariant stored + Written(kept[k..]) == Stored(slots)
    {
      assert kept[k..][1..] == kept[k + 1..];
      stored := stored + if kept[k] == "" then EMPTY else kept[k];
    }
  }

  // ---------------------------------------------------------------- round trips

  lemma {:induction false} WrittenJoins(front: seq<string>, back: seq<string>)
    ensures Written(front + back) == Written(front) + Written(back)
  {
    if front == [] {
      assert front + back == back;
    } else {
      assert (front + back)[1..] == front[1..] + back;
      WrittenJoins(front[1..], back);
    }
  }

  ghost predicate NoneEmpty(slots: seq<string>) {
    forall k | 0 <= k < |slots| :: slots[k] != ""
  }

  lemma {:induction false} WrittenConcat(slots: seq<string>)
    requires NoneEmpty(slots)
    ensures Written(slots) == Concat(slots)
  {
    if slots != [] {
      WrittenConcat(slots[1..]);
    }
  }

  /** A piece that hides no empty slot is read up to its end, before an empty slot or nothing. */
  lemma ReadPiece(piece: string, rest: string)
    requires piece != "" && NoEmpty(piece)
    requires rest == "" || EmptyAt(rest, 0)
    ensures Read(piece + rest) == Expand(piece) + Read(rest)
  {
    var text := piece + rest;
    forall k | 0 <= k < |piece|
      ensures !EmptyAt(text, k)
    {
      assert !EmptyAt(piece, k);
    }
    assert rest != "" ==> EmptyAt(text, |piece|);
    var end := FindEmpty(text, 0);
    assert end == |piece|;
    assert text[..end] == piece && text[end..] == rest;
  }

  lemma ReadEmpty(rest: string)
    ensures Read(EMPTY + rest) == [""] + Read(rest)
  {
    assert (EMPTY + rest)[2..] == rest;
  }

  /** How many slots from the first hold something. */
  function Run(slots: seq<string>): (count: nat)
    ensures count <= |slots|
    ensures NoneEmpty(slots[..count])
    ensures count < |slots| ==> slots[count] == ""
  {
    if slots == [] || slots[0] == "" then 0 else 1 + Run(slots[1..])
  }

  /** What a slot may hold: nothing, or an emoji no neighbour changes. */
  predicate Fits(emoji: string) {
    emoji == "" || Closed(emoji)
  }

  ghost predicate Good(slots: seq<string>) {
    forall k | 0 <= k < |slots| :: Fits(slots[k])
  }

  lemma ReadClosed(emoji: seq<string>, rest: string)
    requires emoji != [] && AllClosed(emoji)
    requires rest == "" || EmptyAt(rest, 0)
    ensures Read(Written(emoji) + rest) == emoji + Read(rest)
  {
    forall k | 0 <= k < |emoji| ensures emoji[k] != "" { ClosedBytes(emoji[k]); }
    WrittenConcat(emoji);
    ConcatBytes(emoji);
    SplitClosed(emoji);
    var piece := Concat(emoji);
    assert forall k | 0 <= k < |piece| :: piece[k] in piece;
    ReadPiece(piece, rest);
  }

  /** An empty slot, and whatever is read back after it. */
  lemma EmptyWritten(slots: seq<string>)
    requires slots != [] && slots[0] == "" && Read(Written(slots[1..])) == slots[1..]
    ensures Read(Written(slots)) == slots
  {
    hide Read;
    ReadEmpty(Written(slots[1..]));
  }

  /** Emoji, and whatever is read back from the empty slot after them. */
  lemma FilledWritten(emoji: seq<string>, rest: seq<string>)
    requires emoji != [] && AllClosed(emoji) && (rest == [] || rest[0] == "") && Read(Written(rest)) == rest
    ensures Read(Written(emoji + rest)) == emoji + rest
  {
    hide Read; hide AllClosed;
    WrittenJoins(emoji, rest);
    assert Written(rest) == "" || EmptyAt(Written(rest), 0);
    ReadClosed(emoji, Written(rest));
  }

  lemma GoodRun(slots: seq<string>)
    requires Good(slots)
    ensures var count := Run(slots); AllClosed(slots[..count]) && Good(slots[count..]) && (slots != [] ==> Good(slots[1..]))
  {
    hide Closed;
  }

  lemma {:induction false} ReadWritten(slots: seq<string>)
    requires Good(slots)
    ensures Read(Written(slots)) == slots
    decreases |slots|
  {
    hide Read; hide Written; hide Good; hide AllClosed; hide NoneEmpty; hide Fits;
    if slots == [] {
      NothingWritten();
    } else {
      var count := Run(slots);
      GoodRun(slots);
      if count == 0 {
        ReadWritten(slots[1..]);
        EmptyWritten(slots);
      } else {
        ReadWritten(slots[count..]);
        FilledWritten(slots[..count], slots[count..]);
        assert slots == slots[..count] + slots[count..];
      }
    }
  }

  lemma NothingWritten()
    ensures Read(Written([])) == []
  {
  }

  /** Slots that are empty or hold a closed emoji are read back as they were, but for the empty ones at the end. */
  lemma RoundTrip(slots: seq<string>)
    requires Good(slots)
    ensures Read(Stored(slots)) == Stripped(slots)
  {
    ReadWritten(Stripped(slots));
  }

  /** What a piece is written back as. */
  function Plainly(piece: string): string {
    if Split(piece).Some? then Trim(piece) else piece
  }

  lemma WrittenPiece(piece: string)
    requires piece != ""
    ensures NoneEmpty(Expand(piece))
    ensures Written(Expand(piece)) == Plainly(piece) != ""
    ensures Expand(Plainly(piece)) == Expand(piece)
  {
    if Split(piece).Some? {
      SplitPartitions(piece);
      TrimCuts(piece);
      TrimmedStays(Trim(piece));
      assert Split(Trim(piece)) == Split(piece);
    }
    WrittenConcat(Expand(piece));
    assert Concat([piece]) == piece + Concat([]);
  }

  lemma PlainlyNoEmpty(piece: string)
    requires NoEmpty(piece)
    ensures NoEmpty(Plainly(piece))
  {
    TrimCuts(piece);
    var plain := Trim(piece);
    var front: string, back: string :| piece == front + plain + back;
    forall k | 0 <= k < |plain|
      ensures !EmptyAt(plain, k)
    {
      assert !EmptyAt(piece, |front| + k);
    }
  }

  /** The string up to its first empty slot, and the rest of it. */
  lemma Divided(stored: string) returns (piece: string, rest: string)
    requires stored != "" && !EmptyAt(stored, 0)
    ensures stored == piece + rest && piece != "" && NoEmpty(piece)
    ensures rest == "" || EmptyAt(rest, 0)
  {
    var end := FindEmpty(stored, 0);
    piece, rest := stored[..end], stored[end..];
    forall k | 0 <= k < |piece|
      ensures !EmptyAt(piece, k)
    {
      assert !EmptyAt(stored, k);
    }
  }

  lemma {:induction false} ReadAgain(stored: string)
    ensures Read(Written(Read(stored))) == Read(stored)
    ensures stored == "" || EmptyAt(stored, 0) ==>
              Written(Read(stored)) == "" || EmptyAt(Written(Read(stored)), 0)
    decreases |stored|
  {
    if stored == "" {
    } else if EmptyAt(stored, 0) {
      var rest := stored[2..];
      ReadAgain(rest);
      assert stored == EMPTY + rest;
      ReadEmpty(rest);
      WrittenJoins([""], Read(rest));
      assert Written([""]) == EMPTY + Written([]);
      ReadEmpty(Written(Read(rest)));
    } else {
      var piece, rest := Divided(stored);
      ReadAgain(rest);
      ReadPiece(piece, rest);
      WrittenJoins(Expand(piece), Read(rest));
      WrittenPiece(piece);
      PlainlyNoEmpty(piece);
      ReadPiece(Plainly(piece), Written(Read(rest)));
    }
  }

  /** One more empty slot at the end changes nothing before it. */
  lemma {:induction false} ReadAppended(stored: string)
    ensures Read(stored + EMPTY) == Read(stored) + [""]
    decreases |stored|
  {
    if stored == "" {
      assert stored + EMPTY == EMPTY + "";
      ReadEmpty("");
    } else if EmptyAt(stored, 0) {
      var rest := stored[2..];
      assert stored == EMPTY + rest;
      assert stored + EMPTY == EMPTY + (rest + EMPTY);
      ReadAppended(rest);
      ReadEmpty(rest);
      ReadEmpty(rest + EMPTY);
    } else {
      var piece, rest := Divided(stored);
      assert stored + EMPTY == piece + (rest + EMPTY);
      ReadAppended(rest);
      ReadPiece(piece, rest);
      ReadPiece(piece, rest + EMPTY);
    }
  }

  lemma {:induction false} ReadStripped(slots: seq<string>)
    requires Read(Written(slots)) == slots
    ensures Read(Stored(slots)) == Stripped(slots)
    decreases |slots|
  {
    if slots != [] && slots[|slots| - 1] == "" {
      var kept := slots[..|slots| - 1];
      assert slots == kept + [""];
      WrittenJoins(kept, [""]);
      assert Written([""]) == EMPTY + Written([]) == EMPTY;
      ReadAppended(Written(kept));
      assert Read(Written(kept)) == kept;
      ReadStripped(kept);
    }
  }

  lemma {:induction false} StrippedTwice(slots: seq<string>)
    ensures Stripped(Stripped(slots)) == Stripped(slots)
  {
  }

  /** Whatever is on file, reading it and writing it back once is enough: doing it again changes nothing. */
  lemma Idempotent(stored: string)
    ensures Read(Stored(Read(stored))) == Stripped(Read(stored))
    ensures Stored(Read(Stored(Read(stored)))) == Stored(Read(stored))
  {
    ReadAgain(stored);
    ReadStripped(Read(stored));
    StrippedTwice(Read(stored));
  }
}
