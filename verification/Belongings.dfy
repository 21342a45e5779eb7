/** src/game.cpp: looking for an emoji somebody has, and taking it from where it is. */
module Belongings {
  import opened Basics
  import opened Powers
  import opened Ledger
  import opened Places
  import opened World
  import opened Laws
  import opened Rides

  // ---------------------------------------------------------------- where an emoji is

  predicate Looks(slot: string, emoji: string) {
    slot != "" && SameEmoji(slot, emoji)
  }

  /** gear_slot_holding. */
  function FirstLike(slots: seq<string>, emoji: string): (slot: Option<nat>)
    ensures slot.Some? ==> slot.value < |slots| && Looks(slots[slot.value], emoji)
    ensures slot.Some? ==> forall k | 0 <= k < slot.value :: !Looks(slots[k], emoji)
    ensures slot.None? ==> forall k | 0 <= k < |slots| :: !Looks(slots[k], emoji)
  {
    if slots == [] then None
    else if Looks(slots[0], emoji) then Some(0)
    else
      match FirstLike(slots[1..], emoji)
      case None => assert forall k | 1 <= k < |slots| :: slots[k] == slots[1..][k - 1]; None
      case Some(k) => assert forall i | 1 <= i < k + 1 :: slots[i] == slots[1..][i - 1]; Some(k + 1)
  }

  /** An emoji of the house he can part with: no child. */
  predicate CanPart(s: State, player: string, slot: nat, emoji: string) {
    Looks(At(s.house, player, slot), emoji) && !IsChild(s.children, player, slot)
  }

  /** slot_holding, from a slot on. */
  function HouseLike(s: State, player: string, emoji: string, from: nat): (slot: Option<nat>)
    ensures slot.Some? ==> slot.value < |HouseSlots(s, player)| && CanPart(s, player, slot.value, emoji)
    ensures slot.Some? ==> forall k: nat | from <= k < slot.value :: !CanPart(s, player, k, emoji)
    ensures slot.None? ==> forall k: nat | from <= k :: !CanPart(s, player, k, emoji)
    decreases |HouseSlots(s, player)| - from
  {
    if from >= |HouseSlots(s, player)| then None
    else if CanPart(s, player, from, emoji) then Some(from)
    else HouseLike(s, player, emoji, from + 1)
  }

  datatype Found = Carried(slot: nat) | Kept(slot: nat) | Nowhere

  /** Where he has it: on him before the house. */
  function Finding(s: State, player: string, emoji: string): (found: Found)
    ensures found.Carried? ==> found.slot < |GearSlots(s, player)| && Looks(GearSlots(s, player)[found.slot], emoji)
    ensures found.Kept? ==> CanPart(s, player, found.slot, emoji)
  {
    match FirstLike(GearSlots(s, player), emoji)
    case Some(slot) => Found.Carried(slot)
    case None =>
      match HouseLike(s, player, emoji, 0)
      case Some(slot) => Kept(slot)
      case None => Nowhere
  }

  /** What is in the slot it was found in. */
  function Content(s: State, player: string, found: Found): string {
    match found
    case Carried(slot) => At(s.gear, player, slot)
    case Kept(slot) => At(s.house, player, slot)
    case Nowhere => ""
  }

  /** take_emoji: the first copy of it leaves a hole where it was. */
  function TakenFrom(s: State, player: string, emoji: string): (t: State)
    ensures t == s.(house := t.house, gear := t.gear)
  {
    hide *;
    match Finding(s, player, emoji)
    case Carried(slot) => OnHim(s, player, slot, "")
    case Kept(slot) => InHouse(s, player, slot, "")
    case Nowhere => s
  }

  // ---------------------------------------------------------------- what taking it keeps

  /** The bolts of a hold before the lost ones are taken off it: as many as the holder shows, or more. */
  ghost predicate AtMost(current: Option<Holder>, gear: Place) {
    current.Some? ==>
      && HoldSound(current.value)
      && (current.value.bolts > 0 ==> CountPower(ShownGear(current, gear, current.value.username), Bolt) <= current.value.bolts)
  }

  lemma HoldingAtMost(current: Option<Holder>, gear: Place)
    ensures Holding(current, gear) ==> AtMost(current, gear)
  {
  }

  predicate IsPowerAt(slots: seq<string>, k: int, power: Power) {
    0 <= k < |slots| && slots[k] != "" && IsPower(slots[k], power)
  }

  /** Where every copy of a power is in other slots as well, there are at least as many in those. */
  lemma {:induction false} CountAtMost(slots: seq<string>, others: seq<string>, power: Power)
    requires forall k: int | IsPowerAt(slots, k, power) :: k < |others| && slots[k] == others[k]
    ensures CountPower(slots, power) <= CountPower(others, power)
    decreases |slots| + |others|
  {
    hide IsPower;
    if slots != [] {
      var last := |slots| - 1;
      var front := if |slots| >= |others| then slots[..last] else slots;
      var rest := if |slots| <= |others| then others[..|others| - 1] else others;
      forall k: int | IsPowerAt(front, k, power)
        ensures k < |rest| && front[k] == rest[k]
      {
        assert IsPowerAt(slots, k, power);
      }
      CountAtMost(front, rest, power);
      assert IsPowerAt(slots, last, power) ==> last < |others| && slots[last] == others[last];
    }
  }

  /** An emoji less on anybody is never a bolt more for the holder. */
  lemma HoleAtMost(current: Option<Holder>, gear: Place, player: string, slot: nat)
    requires slot < |SlotsIn(gear, player)|
    ensures AtMost(current, gear) ==> AtMost(current, Put(gear, player, slot, ""))
  {
    hide IsLobster; hide CountPower; hide Put; hide HoldSound;
    PutAt(gear, player, slot, "");
    if current.Some? {
      var holder := current.value.username;
      var before, after := ShownGear(current, gear, holder), ShownGear(current, Put(gear, player, slot, ""), holder);
      ShownHole(current, gear, player, slot);
      CountAtMost(after, before, Bolt);
    }
  }

  lemma ShownHole(current: Option<Holder>, gear: Place, player: string, slot: nat)
    requires current.Some? && slot < |SlotsIn(gear, player)|
    ensures var holder := current.value.username;
            var before, after := ShownGear(current, gear, holder), ShownGear(current, Put(gear, player, slot, ""), holder);
            |after| <= |before| && forall k | 0 <= k < |after| :: after[k] == before[k] || after[k] == ""
  {
    hide IsLobster; hide Put;
    PutAt(gear, player, slot, "");
    var holder := current.value.username;
    var mine, left := SlotsIn(gear, holder), SlotsIn(Put(gear, player, slot, ""), holder);
    forall k: nat | k < |left|
      ensures left[k] == mine[k] || left[k] == ""
    {
      assert left[k] == At(Put(gear, player, slot, ""), holder, k);
    }
  }

  lemma SameCopy(one: string, other: string, face: string)
    requires one != "" && other != "" && SameEmoji(one, other)
    ensures Copy(one, face) == Copy(other, face)
  {
  }

  /** The house and what is on the players hold one copy less, and all the rest is as it was. */
  ghost predicate Loses(s: State, t: State, emoji: string, player: string, face: string) {
    && t == s.(house := t.house, gear := t.gear)
    && Housed(t.house, t.gear) && Raised(t.house, t.children)
    && (Holding(s.current, s.gear) ==> AtMost(t.current, t.gear))
    && (Holding(s.current, s.gear) && !IsHolder(s.current, player) ==> Holding(t.current, t.gear))
    && Total(t.house, CopiesOf(face)) + Total(t.gear, CopiesOf(face))
         == Total(s.house, CopiesOf(face)) + Total(s.gear, CopiesOf(face)) - Copy(emoji, face)
  }

  lemma CarriedLoses(s: State, player: string, slot: nat, face: string)
    requires Standing(s) && slot < |GearSlots(s, player)|
    ensures Loses(s, OnHim(s, player, slot, ""), At(s.gear, player, slot), player, face)
  {
    hide Put; hide Total; hide Housed; hide Holding; hide Raised; hide RidesSound; hide OnePlace; hide Mapped; hide AtMost;
    hide Solvent; hide IsHolder; hide Copy;
    NoCopy(face);
    FewSlots(s.house, s.gear, player);
    GearPut(s.house, s.gear, s.current, player, slot, "");
    CopiesPut(s.gear, player, slot, "", face);
    HoldingAtMost(s.current, s.gear);
    HoleAtMost(s.current, s.gear, player, slot);
  }

  lemma NoCopy(face: string)
    ensures Copy("", face) == 0
  {
  }

  lemma FewSlots(house: Place, gear: Place, player: string)
    requires Housed(house, gear)
    ensures |SlotsIn(gear, player)| <= CARRIED_LIMIT
  {
  }

  lemma KeptLoses(s: State, player: string, slot: nat, face: string)
    requires Standing(s) && !IsChild(s.children, player, slot)
    ensures Loses(s, InHouse(s, player, slot, ""), At(s.house, player, slot), player, face)
  {
    hide Put; hide Total; hide Housed; hide Holding; hide Raised; hide RidesSound; hide OnePlace; hide Mapped; hide AtMost;
    hide Solvent; hide IsHolder; hide Copy; hide IsChild;
    NoCopy(face);
    HousePut(s.house, s.gear, s.children, player, slot, "");
    CopiesPut(s.house, player, slot, "", face);
    HoldingAtMost(s.current, s.gear);
  }

  lemma TakenLoses(s: State, player: string, emoji: string, face: string)
    requires Standing(s) && Finding(s, player, emoji) != Nowhere
    ensures Loses(s, TakenFrom(s, player, emoji), Content(s, player, Finding(s, player, emoji)), player, face)
  {
    hide Standing; hide Loses; hide OnHim; hide InHouse; hide Finding; hide Looks;
    var found := Finding(s, player, emoji);
    if found.Carried? {
      CarriedLoses(s, player, found.slot, face);
    } else {
      KeptLoses(s, player, found.slot, face);
    }
  }

  /** What is found is a copy of what was looked for. */
  lemma ContentCopies(s: State, player: string, emoji: string, face: string)
    requires emoji != "" && Finding(s, player, emoji) != Nowhere
    ensures Copy(Content(s, player, Finding(s, player, emoji)), face) == Copy(emoji, face)
  {
    hide Finding; hide SameEmoji;
    SameCopy(Content(s, player, Finding(s, player, emoji)), emoji, face);
  }
}
