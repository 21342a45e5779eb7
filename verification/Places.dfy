/** src/game.cpp: the two places where emoji are, the houses and what is on the players, slot by slot. */
module Places {
  import opened Basics
  import opened Slots
  import opened Powers
  import opened Ledger

  /** Nobody with nothing there has an entry, and nobody's last slot is empty. */
  type Place = map<string, seq<string>>

  function SlotsIn(place: Place, player: string): seq<string> {
    if player in place then place[player] else []
  }

  /** What is in a slot; nothing in one past the last. */
  function At(place: Place, player: string, slot: nat): string {
    var slots := SlotsIn(place, player);
    if slot < |slots| then slots[slot] else ""
  }

  function Grown(slots: seq<string>, size: nat): (grown: seq<string>)
    ensures |grown| == if |slots| < size then size else |slots|
    ensures forall k | 0 <= k < |grown| :: grown[k] == if k < |slots| then slots[k] else ""
  {
    if |slots| < size then slots + seq(size - |slots|, _ => "") else slots
  }

  /** hang_in: what is written back, and an entry less for a player left with nothing. */
  function Hung(place: Place, player: string, slots: seq<string>): Place {
    if Stripped(slots) == [] then place - {player} else place[player := Stripped(slots)]
  }

  /** One slot holds something else. */
  function Put(place: Place, player: string, slot: nat, emoji: string): Place {
    Hung(place, player, Grown(SlotsIn(place, player), slot + 1)[slot := emoji])
  }

  ghost predicate Tidy(place: Place) {
    forall player | player in place :: place[player] != [] && place[player][|place[player]| - 1] != ""
  }

  lemma HungAt(place: Place, player: string, slots: seq<string>)
    ensures forall q: string, k: nat :: At(Hung(place, player, slots), q, k) ==
              if q == player then (if k < |slots| then slots[k] else "") else At(place, q, k)
    ensures |SlotsIn(Hung(place, player, slots), player)| <= |slots|
    ensures Tidy(place) ==> Tidy(Hung(place, player, slots))
  {
  }

  lemma PutAt(place: Place, player: string, slot: nat, emoji: string)
    ensures forall q: string, k: nat :: At(Put(place, player, slot, emoji), q, k) ==
              if q == player && k == slot then emoji else At(place, q, k)
    ensures |SlotsIn(Put(place, player, slot, emoji), player)| <= Max(|SlotsIn(place, player)|, slot + 1)
    ensures forall q | q != player :: SlotsIn(Put(place, player, slot, emoji), q) == SlotsIn(place, q)
    ensures Tidy(place) ==> Tidy(Put(place, player, slot, emoji))
  {
    HungAt(place, player, Grown(SlotsIn(place, player), slot + 1)[slot := emoji]);
  }

  /** Places with the same in every slot are the same. */
  lemma SamePlace(one: Place, other: Place)
    requires Tidy(one) && Tidy(other)
    requires forall player: string, k: nat :: At(one, player, k) == At(other, player, k)
    ensures one == other
  {
    forall player | player in one || player in other
      ensures player in one && player in other && one[player] == other[player]
    {
      var a, b := SlotsIn(one, player), SlotsIn(other, player);
      assert a != [] ==> At(one, player, |a| - 1) == At(other, player, |a| - 1);
      assert b != [] ==> At(one, player, |b| - 1) == At(other, player, |b| - 1);
      assert forall k | 0 <= k < |a| && k < |b| :: a[k] == At(one, player, k) == At(other, player, k) == b[k];
    }
  }

  // ---------------------------------------------------------------- copies

  /** Whether a slot holds a copy of that emoji, in colour or not. */
  function Copy(slot: string, face: string): int {
    if slot != "" && Plain(slot) == face then 1 else 0
  }

  function Copies(slots: seq<string>, face: string): int {
    if slots == [] then 0 else Copies(slots[..|slots| - 1], face) + Copy(slots[|slots| - 1], face)
  }

  function CopiesOf(face: string): seq<string> -> int {
    (slots: seq<string>) => Copies(slots, face)
  }

  lemma {:induction false} CopiesSet(slots: seq<string>, slot: nat, emoji: string, face: string)
    requires slot < |slots|
    ensures Copies(slots[slot := emoji], face) == Copies(slots, face) - Copy(slots[slot], face) + Copy(emoji, face)
  {
    var last := |slots| - 1;
    if slot == last {
      assert slots[slot := emoji][..last] == slots[..last];
    } else {
      assert slots[slot := emoji][..last] == slots[..last][slot := emoji];
      CopiesSet(slots[..last], slot, emoji, face);
    }
  }

  /** Empty slots at the end are no copies of anything. */
  lemma {:induction false} CopiesSame(one: seq<string>, other: seq<string>, face: string)
    requires |one| <= |other|
    requires forall k | 0 <= k < |other| :: other[k] == if k < |one| then one[k] else ""
    ensures Copies(one, face) == Copies(other, face)
    decreases |other|
  {
    if |one| == |other| {
      assert one == other;
    } else {
      CopiesSame(one, other[..|other| - 1], face);
    }
  }

  lemma {:induction false} CopiesJoin(front: seq<string>, back: seq<string>, face: string)
    ensures Copies(front + back, face) == Copies(front, face) + Copies(back, face)
  {
    if back == [] {
      assert front + back == front;
    } else {
      assert (front + back)[..|front + back| - 1] == front + back[..|back| - 1];
      CopiesJoin(front, back[..|back| - 1], face);
    }
  }

  lemma CopiesHung(place: Place, player: string, slots: seq<string>, face: string)
    ensures Total(Hung(place, player, slots), CopiesOf(face))
         == Total(place, CopiesOf(face)) - Copies(SlotsIn(place, player), face) + Copies(slots, face)
  {
    var kept := Stripped(slots);
    CopiesSame(kept, slots, face);
    if kept == [] {
      TotalDropped(place, player, CopiesOf(face));
    } else {
      TotalUpdated(place, player, kept, CopiesOf(face));
    }
    assert CopiesOf(face)(kept) == Copies(kept, face);
  }

  /** Putting something in a slot adds one copy of it and takes one of what was there. */
  lemma CopiesPut(place: Place, player: string, slot: nat, emoji: string, face: string)
    ensures Total(Put(place, player, slot, emoji), CopiesOf(face))
         == Total(place, CopiesOf(face)) - Copy(At(place, player, slot), face) + Copy(emoji, face)
  {
    var slots := SlotsIn(place, player);
    var grown := Grown(slots, slot + 1);
    CopiesSame(slots, grown, face);
    CopiesSet(grown, slot, emoji, face);
    CopiesHung(place, player, grown[slot := emoji], face);
  }

  // ---------------------------------------------------------------- looking for a slot

  function FirstEmpty(slots: seq<string>): (slot: nat)
    ensures slot <= |slots|
    ensures slot < |slots| ==> slots[slot] == ""
    ensures forall k | 0 <= k < slot :: slots[k] != ""
  {
    if slots == [] || slots[0] == "" then 0 else 1 + FirstEmpty(slots[1..])
  }

  /** free_slot: the first empty slot, or nothing when every one of them is taken. */
  function FreeSlot(slots: seq<string>, limit: nat): (slot: Option<nat>)
    ensures slot.Some? ==> slot.value < limit && (slot.value < |slots| ==> slots[slot.value] == "")
    ensures slot.None? ==> |slots| >= limit && forall k | 0 <= k < limit :: slots[k] != ""
  {
    if FirstEmpty(slots) < limit then Some(FirstEmpty(slots)) else None
  }

  function CountPower(slots: seq<string>, power: Power): (count: nat)
    ensures count <= |slots|
  {
    if slots == [] then 0 else
    var last := slots[|slots| - 1];
    CountPower(slots[..|slots| - 1], power) + (if last != "" && IsPower(last, power) then 1 else 0)
  }

  /** The slots, in order, that hold a power something can take: all but the balloon. */
  function Exposed(slots: seq<string>, upTo: nat): (there: seq<nat>)
    requires upTo <= |slots|
    ensures forall k | 0 <= k < |there| :: there[k] < upTo && IsExposed(slots[there[k]])
    ensures forall slot: nat | slot < upTo && IsExposed(slots[slot]) :: slot in there
  {
    if upTo == 0 then []
    else Exposed(slots, upTo - 1) + (if IsExposed(slots[upTo - 1]) then [upTo - 1] else [])
  }

  predicate IsExposed(slot: string) {
    slot != "" && PowerOf(slot).Some? && PowerOf(slot) != Some(Balloon)
  }

  predicate IsUntouchable(slot: string) {
    PowerOf(slot) == Some(Balloon)
  }
}
