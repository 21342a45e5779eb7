/** src/game.cpp, furniture_buy, furniture_move, gear_take and gear_store: what a player does at home. */
module Household {
  import opened Basics
  import opened Powers
  import opened Ledger
  import opened Places
  import opened World
  import opened Laws
  import opened Rides
  import opened Holds
  import opened Belongings
  import Journeys
  import Settling

  // ---------------------------------------------------------------- the price

  function Factor(inflation: int): (factor: int)
    ensures factor >= 100
  {
    100 + Max(inflation, 0)
  }

  /** The price after one copy more; the largest number rather than one the machine cannot count. */
  function Dearer(price: int, factor: int): int
    requires factor >= 100
  {
    if price > MOST / factor then MOST else price * factor / 100
  }

  /** inflated: the price grown once for every copy there is. */
  function Inflated(cost: int, copies: int, inflation: int): int
    decreases copies
  {
    if cost <= 0 then 0
    else if copies <= 0 then cost
    else Dearer(Inflated(cost, copies - 1, inflation), Factor(inflation))
  }

  lemma DearerBounds(price: int, factor: int)
    requires factor >= 100 && 0 <= price <= MOST
    ensures price <= Dearer(price, factor) <= MOST
    ensures price * factor <= MOST ==> Dearer(price, factor) == price * factor / 100
    ensures price * factor > MOST ==> Dearer(price, factor) == MOST
  {
    ProductFits(price, factor, MOST);
    assert price * 100 <= price * factor;
  }

  /** Whether a product fits is what dividing tells. */
  lemma ProductFits(price: nat, factor: int, most: nat)
    requires factor > 0
    ensures price > most / factor <==> price * factor > most
  {
    var quotient := most / factor;
    Quotient(most, factor);
    if price > quotient {
      Products(quotient + 1, price, factor);
      assert (quotient + 1) * factor == factor * quotient + factor;
    } else {
      Products(price, quotient, factor);
      assert quotient * factor == factor * quotient;
    }
  }

  lemma Products(fewer: int, more: int, factor: int)
    requires fewer <= more && factor >= 0
    ensures fewer * factor <= more * factor
  {
  }

  /** The price never wraps around, and never falls as copies are added. */
  lemma {:induction false} PriceGrows(cost: int, fewer: int, copies: int, inflation: int)
    requires cost <= MOST && fewer <= copies
    ensures 0 <= Inflated(cost, fewer, inflation) <= Inflated(cost, copies, inflation) <= MOST
    ensures cost > 0 ==> Inflated(cost, copies, inflation) >= cost
    decreases copies
  {
    hide Dearer; hide Factor;
    if cost > 0 && copies > 0 {
      PriceGrows(cost, if fewer < copies then fewer else copies - 1, copies - 1, inflation);
      DearerBounds(Inflated(cost, copies - 1, inflation), Factor(inflation));
    }
  }

  /** At a hundred percent each copy doubles the price, until the largest number. */
  lemma PriceDoubles(cost: int, copies: nat)
    requires 0 < cost <= MOST
    ensures var before, after := Inflated(cost, copies, 100), Inflated(cost, copies + 1, 100);
            after == if before * 200 > MOST then MOST else 2 * before
  {
    PriceGrows(cost, copies, copies, 100);
    DearerBounds(Inflated(cost, copies, 100), 200);
  }

  // ---------------------------------------------------------------- buying

  datatype FurnitureStatus = Bought | Full | InvalidPosition | AlreadyThere | InsufficientScore | NotHome | ChildThere

  datatype Spot = ToWear(slot: nat) | ToKeep(slot: nat) | Refused(why: FurnitureStatus)

  /** The slot a bought emoji is for, before anything that may already be there is looked at. */
  function SlotFor(s: State, player: string, emoji: string, position: int, limit: nat): (spot: Spot)
    ensures spot.ToWear? ==> spot.slot < CARRIED_LIMIT && At(s.gear, player, spot.slot) == ""
    ensures spot.Refused? ==> spot.why != Bought
  {
    if position == 0 then
      var onHim := if WorksOnHim(emoji) then FreeSlot(GearSlots(s, player), CARRIED_LIMIT) else None;
      if onHim.Some? then ToWear(onHim.value)
      else
        match FreeSlot(HouseSlots(s, player), limit)
        case Some(slot) => ToKeep(slot)
        case None => Refused(Full)
    else if position < 0 || position > limit then Refused(InvalidPosition)
    else ToKeep(position - 1)
  }

  /** Nothing is put over a child, nor over the same emoji. */
  function SpotFor(s: State, player: string, emoji: string, position: int, limit: nat): (spot: Spot)
    ensures spot.ToWear? ==> spot.slot < CARRIED_LIMIT && At(s.gear, player, spot.slot) == ""
    ensures spot.ToKeep? ==> !IsChild(s.children, player, spot.slot)
    ensures spot.Refused? ==> spot.why != Bought
  {
    var spot := SlotFor(s, player, emoji, position, limit);
    if !spot.ToKeep? then spot
    else if IsChild(s.children, player, spot.slot) then Refused(ChildThere)
    else if spot.slot < |HouseSlots(s, player)| && SameEmoji(HouseSlots(s, player)[spot.slot], emoji) then Refused(AlreadyThere)
    else spot
  }

  /** Every copy of it counts: in the houses, on the players, and on its way to somebody. */
  ghost function Price(s: State, emoji: string, cost: int, inflation: int): int {
    Inflated(cost, Stock(s.house, s.gear, s.raids, 0, 0, Plain(emoji)), inflation)
  }

  function Placed(s: State, player: string, spot: Spot, emoji: string): (t: State)
    requires !spot.Refused?
    ensures t == s.(house := t.house, gear := t.gear)
  {
    if spot.ToWear? then OnHim(s, player, spot.slot, emoji) else InHouse(s, player, spot.slot, emoji)
  }

  function Replaced(s: State, player: string, spot: Spot): string {
    if spot.ToKeep? then At(s.house, player, spot.slot) else ""
  }

  function Paying(s: State, player: string, spot: Spot, emoji: string, price: int): (t: State)
    requires !spot.Refused?
    ensures t == s.(scores := t.scores, house := t.house, gear := t.gear, told := t.told)
  {
    hide *;
    Placed(s, player, spot, emoji).(
      scores := s.scores[player := Counter(s.scores, player) - price],
      told := s.told + [Spent(player, price)] + [Went(Replaced(s, player, spot))] + [Came(emoji)])
  }

  ghost function BuyAnswer(s: State, player: string, emoji: string, position: int, cost: int, limit: nat, inflation: int)
    : FurnitureStatus
  {
    if WhereIs(s, player) != AtHome then NotHome else
    var spot := SpotFor(s, player, emoji, position, limit);
    if spot.Refused? then spot.why
    else if Counter(s.scores, player) < Price(s, emoji, cost, inflation) then InsufficientScore
    else Bought
  }

  /** furniture_buy. */
  ghost function Buy(s: State, player: string, emoji: string, position: int, cost: int, limit: nat, now: int, inflation: int)
    : (t: Result<State>)
    ensures t.Done? ==> t.value.names == s.names
  {
    var u :- GoneHome(s, player, now);
    if BuyAnswer(u, player, emoji, position, cost, limit, inflation) != Bought then Done(u)
    else Done(Paying(u, player, SpotFor(u, player, emoji, position, limit), emoji, Price(u, emoji, cost, inflation)))
  }

  // ---------------------------------------------------------------- moving

  datatype MoveStatus = Moved | EmptySlot | InvalidSlot | SameSlot | Away

  predicate IsSlot(slot: int, limit: nat) {
    1 <= slot <= limit
  }

  function Exchanged(slots: seq<string>, from: nat, to: nat): (swapped: seq<string>)
    requires from < |slots|
  {
    var grown := Grown(slots, to + 1);
    grown[from := grown[to]][to := grown[from]]
  }

  function ChildSlot(child: Child, player: string, from: nat, to: nat): (moved: Child)
    ensures moved == child.(slot := moved.slot)
  {
    if child.owner != player then child
    else if child.slot == from then child.(slot := to)
    else if child.slot == to then child.(slot := from)
    else child
  }

  function ChildrenMoved(children: seq<Child>, player: string, from: nat, to: nat): (moved: seq<Child>)
    ensures |moved| == |children|
    ensures forall k | 0 <= k < |children| :: moved[k] == ChildSlot(children[k], player, from, to)
  {
    seq(|children|, k requires 0 <= k < |children| => ChildSlot(children[k], player, from, to))
  }

  /** A child moves with its emoji. */
  function Rearranged(s: State, player: string, from: nat, to: nat): (t: State)
    requires from < |HouseSlots(s, player)|
    ensures t == s.(house := t.house, children := t.children)
  {
    s.(house := Hung(s.house, player, Exchanged(HouseSlots(s, player), from, to)),
       children := ChildrenMoved(s.children, player, from, to))
  }

  function MoveAnswer(s: State, player: string, from: int, to: int, limit: nat): (answer: MoveStatus)
    ensures answer == Moved ==> from >= 1 && to >= 1 && from - 1 < |HouseSlots(s, player)|
  {
    if !IsSlot(from, limit) || !IsSlot(to, limit) then InvalidSlot
    else if from == to then SameSlot
    else if WhereIs(s, player) != AtHome then Away
    else if At(s.house, player, from - 1) == "" then EmptySlot
    else Moved
  }

  /** furniture_move, with the slots from 1. */
  function Move(s: State, player: string, from: int, to: int, limit: nat, now: int): (t: Result<State>)
    ensures t.Done? ==> t.value.names == s.names
  {
    if !IsSlot(from, limit) || !IsSlot(to, limit) || from == to then Done(s) else
    var u :- GoneHome(s, player, now);
    if MoveAnswer(u, player, from, to, limit) != Moved then Done(u) else Done(Rearranged(u, player, from - 1, to - 1))
  }

  // ---------------------------------------------------------------- taking and storing

  datatype GearStatus =
    | Taken | Stored | NotAtHome | NotOwned | AlreadyOn | ChildStays | NoRoomOnHim | SwapMissing | NotOn | HouseFull

  /** names_child. */
  predicate NamesChild(s: State, player: string, emoji: string) {
    exists j :: 0 <= j < |s.children| && s.children[j].owner == player && s.children[j].slot < |HouseSlots(s, player)|
                && SameEmoji(HouseSlots(s, player)[s.children[j].slot], emoji)
  }

  /** The slot on him an emoji of the house goes in: a free one, or that of the emoji he names to make room. */
  function RoomOnHim(s: State, player: string, swap: string): (slot: Option<nat>)
    ensures slot.Some? && swap == "" ==> slot.value < CARRIED_LIMIT && At(s.gear, player, slot.value) == ""
    ensures slot.Some? && swap != "" ==> slot.value < |GearSlots(s, player)|
  {
    if swap == "" then FreeSlot(GearSlots(s, player), CARRIED_LIMIT) else FirstLike(GearSlots(s, player), swap)
  }

  function TakeAnswer(s: State, player: string, emoji: string, swap: string): GearStatus {
    if WhereIs(s, player) != AtHome then NotAtHome
    else if HouseLike(s, player, emoji, 0).None? then
      if NamesChild(s, player, emoji) then ChildStays
      else if FirstLike(GearSlots(s, player), emoji).Some? then AlreadyOn
      else NotOwned
    else if RoomOnHim(s, player, swap).None? then if swap != "" then SwapMissing else NoRoomOnHim
    else Taken
  }

  /** What made room takes the slot in the house of what it made room for. */
  function PutAcross(s: State, player: string, from: nat, to: nat): (t: State)
    ensures t == s.(house := t.house, gear := t.gear)
  {
    s.(house := Put(s.house, player, from, At(s.gear, player, to)), gear := Put(s.gear, player, to, At(s.house, player, from)))
  }

  /** gear_take. */
  function Take(s: State, player: string, emoji: string, swap: string, now: int): (t: Result<State>)
    ensures t.Done? ==> t.value.names == s.names
  {
    var u :- GoneHome(s, player, now);
    if TakeAnswer(u, player, emoji, swap) != Taken then Done(u)
    else Done(PutAcross(u, player, HouseLike(u, player, emoji, 0).value, RoomOnHim(u, player, swap).value))
  }

  function StoreAnswer(s: State, player: string, emoji: string, limit: nat): GearStatus {
    if WhereIs(s, player) != AtHome then NotAtHome
    else if FirstLike(GearSlots(s, player), emoji).None? then NotOn
    else if FreeSlot(HouseSlots(s, player), limit).None? then HouseFull
    else Stored
  }

  /** gear_store. */
  function Store(s: State, player: string, emoji: string, limit: nat, now: int): (t: Result<State>)
    ensures t.Done? ==> t.value.names == s.names
  {
    var u :- GoneHome(s, player, now);
    if StoreAnswer(u, player, emoji, limit) != Stored then Done(u)
    else Done(PutAcross(u, player, FreeSlot(HouseSlots(u, player), limit).value, FirstLike(GearSlots(u, player), emoji).value))
  }

  // ---------------------------------------------------------------- what they keep

  lemma GoodsPlay(s: State, t: State, face: string)
    requires Sound(s) && t == s.(scores := t.scores, house := t.house, gear := t.gear, children := t.children, told := t.told)
    requires Solvent(t.scores) && Housed(t.house, t.gear) && Raised(t.house, t.children) && Holding(t.current, t.gear)
    requires Total(t.scores, ITSELF) - PalleMade(t.told) == Total(s.scores, ITSELF) - PalleMade(s.told)
    requires Total(t.house, CopiesOf(face)) + Total(t.gear, CopiesOf(face)) - EmojiMade(t.told, face)
          == Total(s.house, CopiesOf(face)) + Total(s.gear, CopiesOf(face)) - EmojiMade(s.told, face)
    ensures Plays(s, t, face)
  {
    hide RidesSound; hide OnePlace; hide Mapped; hide Housed; hide Raised; hide Holding; hide Total; hide OnTheRoad;
    hide PalleMade; hide EmojiMade; hide Solvent;
  }

  lemma HomeIsNotPlace(s: State, player: string)
    requires WhereIs(s, player) == AtHome
    ensures !IsHolder(s.current, player)
  {
    hide RideOf;
  }

  /** A slot that is no child's gets something else. */
  lemma HouseChanges(house: Place, gear: Place, children: seq<Child>, player: string, slot: nat, emoji: string, face: string)
    requires Housed(house, gear) && Raised(house, children) && !IsChild(children, player, slot)
    ensures Housed(Put(house, player, slot, emoji), gear) && Raised(Put(house, player, slot, emoji), children)
    ensures Total(Put(house, player, slot, emoji), CopiesOf(face))
         == Total(house, CopiesOf(face)) - Copy(At(house, player, slot), face) + Copy(emoji, face)
  {
    hide Put; hide Total; hide Housed; hide Raised; hide IsChild;
    HousePut(house, gear, children, player, slot, emoji);
    CopiesPut(house, player, slot, emoji, face);
  }

  lemma GearChanges(house: Place, gear: Place, current: Option<Holder>, player: string, slot: nat, emoji: string, face: string)
    requires Housed(house, gear) && slot < CARRIED_LIMIT && !IsHolder(current, player) && Holding(current, gear)
    ensures Housed(house, Put(gear, player, slot, emoji)) && Holding(current, Put(gear, player, slot, emoji))
    ensures Total(Put(gear, player, slot, emoji), CopiesOf(face))
         == Total(gear, CopiesOf(face)) - Copy(At(gear, player, slot), face) + Copy(emoji, face)
  {
    hide Put; hide Total; hide Housed; hide Holding; hide IsHolder;
    GearPut(house, gear, current, player, slot, emoji);
    CopiesPut(gear, player, slot, emoji, face);
  }

  lemma PlacedKeeps(s: State, player: string, spot: Spot, emoji: string, face: string)
    requires Sound(s) && !IsHolder(s.current, player)
    requires !spot.Refused?
    requires spot.ToWear? ==> spot.slot < CARRIED_LIMIT && At(s.gear, player, spot.slot) == ""
    requires spot.ToKeep? ==> !IsChild(s.children, player, spot.slot)
    ensures var t := Placed(s, player, spot, emoji);
            && Housed(t.house, t.gear) && Raised(t.house, t.children) && Holding(t.current, t.gear)
            && Total(t.house, CopiesOf(face)) + Total(t.gear, CopiesOf(face))
                 == Total(s.house, CopiesOf(face)) + Total(s.gear, CopiesOf(face)) - Copy(Replaced(s, player, spot), face)
                      + Copy(emoji, face)
  {
    hide Put; hide Total; hide Housed; hide Holding; hide Raised; hide RidesSound; hide OnePlace; hide Mapped; hide Solvent;
    hide IsChild; hide Copy; hide IsHolder;
    NoCopy(face);
    if spot.ToWear? {
      GearChanges(s.house, s.gear, s.current, player, spot.slot, emoji, face);
    } else {
      HouseChanges(s.house, s.gear, s.children, player, spot.slot, emoji, face);
    }
  }

  lemma BoughtTold(told: seq<Event>, player: string, price: int, gone: string, emoji: string, face: string)
    ensures var after := told + [Spent(player, price)] + [Went(gone)] + [Came(emoji)];
            && PalleMade(after) == PalleMade(told) - price
            && EmojiMade(after, face) == EmojiMade(told, face) - Copy(gone, face) + Copy(emoji, face)
  {
    hide PalleMade; hide EmojiMade; hide Copy;
    ToldOne(told, Spent(player, price), face);
    ToldOne(told + [Spent(player, price)], Went(gone), face);
    ToldOne(told + [Spent(player, price)] + [Went(gone)], Came(emoji), face);
  }

  lemma PayingPlays(s: State, player: string, spot: Spot, emoji: string, price: int, face: string)
    requires Sound(s) && !IsHolder(s.current, player) && 0 <= price <= Counter(s.scores, player)
    requires !spot.Refused?
    requires spot.ToWear? ==> spot.slot < CARRIED_LIMIT && At(s.gear, player, spot.slot) == ""
    requires spot.ToKeep? ==> !IsChild(s.children, player, spot.slot)
    ensures Plays(s, Paying(s, player, spot, emoji, price), face)
  {
    hide Placed; hide Plays; hide Total; hide Housed; hide Raised; hide Holding; hide Solvent; hide PalleMade; hide EmojiMade;
    hide Replaced; hide Copy; hide IsChild; hide RidesSound; hide OnePlace; hide Mapped; hide At; hide IsHolder;
    PlacedKeeps(s, player, spot, emoji, face);
    BoughtTold(s.told, player, price, Replaced(s, player, spot), emoji, face);
    Settling.PaidIn(s.scores, player, -price);
    GoodsPlay(s, Paying(s, player, spot, emoji, price), face);
  }

  lemma BuyPlays(s: State, player: string, emoji: string, position: int, cost: int, limit: nat, now: int, inflation: int,
                 face: string)
    requires Sound(s) && cost <= MOST
    ensures var t := Buy(s, player, emoji, position, cost, limit, now, inflation); t.Done? ==> Plays(s, t.value, face)
  {
    hide Sound; hide Plays; hide GoneHome; hide WhereIs; hide SpotFor; hide Inflated; hide Paying; hide IsHolder; hide Stock;
    hide IsChild;
    var t := GoneHome(s, player, now);
    Journeys.GoneHomePlays(s, player, now, face);
    if t.Done? {
      PlayedSound(s, t.value, face);
      var price := Price(t.value, emoji, cost, inflation);
      if BuyAnswer(t.value, player, emoji, position, cost, limit, inflation) == Bought {
        var spot := SpotFor(t.value, player, emoji, position, limit);
        PriceGrows(cost, Stock(t.value.house, t.value.gear, t.value.raids, 0, 0, Plain(emoji)),
                   Stock(t.value.house, t.value.gear, t.value.raids, 0, 0, Plain(emoji)), inflation);
        HomeIsNotPlace(t.value, player);
        PayingPlays(t.value, player, spot, emoji, price, face);
        PlaysOn(s, t.value, Paying(t.value, player, spot, emoji, price), face);
      }
    }
  }

  // ---------------------------------------------------------------- moving keeps

  lemma ExchangedAt(slots: seq<string>, from: nat, to: nat)
    requires from < |slots|
    ensures var swapped := Exchanged(slots, from, to);
            && |swapped| == Max(|slots|, to + 1)
            && forall k | 0 <= k < |swapped| ::
                 swapped[k] == if k == to then slots[from]
                               else if k == from then (if to < |slots| then slots[to] else "")
                               else if k < |slots| then slots[k] else ""
  {
  }

  lemma ExchangedCopies(slots: seq<string>, from: nat, to: nat, face: string)
    requires from < |slots|
    ensures Copies(Exchanged(slots, from, to), face) == Copies(slots, face)
  {
    hide Copy;
    var grown := Grown(slots, to + 1);
    CopiesSame(slots, grown, face);
    CopiesSet(grown, from, grown[to], face);
    CopiesSet(grown[from := grown[to]], to, grown[from], face);
  }

  lemma MovedRaised(house: Place, children: seq<Child>, player: string, from: nat, to: nat)
    requires Raised(house, children) && from < |SlotsIn(house, player)|
    ensures Raised(Hung(house, player, Exchanged(SlotsIn(house, player), from, to)), ChildrenMoved(children, player, from, to))
  {
    hide IsChildFace; hide Hung; hide Exchanged;
    var slots := SlotsIn(house, player);
    ExchangedAt(slots, from, to);
    HungAt(house, player, Exchanged(slots, from, to));
    var moved, after := ChildrenMoved(children, player, from, to), Hung(house, player, Exchanged(slots, from, to));
    forall j | 0 <= j < |children|
      ensures At(after, moved[j].owner, moved[j].slot) == At(house, children[j].owner, children[j].slot)
    {
      assert moved[j] == ChildSlot(children[j], player, from, to);
      if children[j].owner == player && children[j].slot == to && to >= |slots| {
        assert IsChildFace("");
        NoFace();
      }
    }
    forall j, k | 0 <= j < k < |moved|
      ensures moved[j].owner != moved[k].owner || moved[j].slot != moved[k].slot
    {
      assert moved[j] == ChildSlot(children[j], player, from, to) && moved[k] == ChildSlot(children[k], player, from, to);
    }
  }

  lemma NoFace()
    ensures !IsChildFace("")
  {
  }

  lemma RearrangedPlays(s: State, player: string, from: nat, to: nat, face: string)
    requires Sound(s) && from < |HouseSlots(s, player)|
    ensures Plays(s, Rearranged(s, player, from, to), face)
  {
    hide RidesSound; hide OnePlace; hide Mapped; hide Raised; hide Holding; hide Total; hide PalleMade; hide Solvent; hide Plays;
    hide EmojiMade; hide Exchanged; hide ChildrenMoved; hide Hung; hide Copies;
    var swapped := Exchanged(HouseSlots(s, player), from, to);
    MovedRaised(s.house, s.children, player, from, to);
    HungAt(s.house, player, swapped);
    ExchangedCopies(HouseSlots(s, player), from, to, face);
    CopiesHung(s.house, player, swapped, face);
    GoodsPlay(s, Rearranged(s, player, from, to), face);
  }

  lemma MovePlays(s: State, player: string, from: int, to: int, limit: nat, now: int, face: string)
    requires Sound(s)
    ensures var t := Move(s, player, from, to, limit, now); t.Done? ==> Plays(s, t.value, face)
  {
    hide Sound; hide Plays; hide GoneHome; hide WhereIs; hide Rearranged;
    QuietPlay(s, s, face);
    var t := GoneHome(s, player, now);
    Journeys.GoneHomePlays(s, player, now, face);
    if t.Done? {
      PlayedSound(s, t.value, face);
      if MoveAnswer(t.value, player, from, to, limit) == Moved {
        RearrangedPlays(t.value, player, from - 1, to - 1, face);
        PlaysOn(s, t.value, Rearranged(t.value, player, from - 1, to - 1), face);
      }
    }
  }

  function Crossed(k: nat, from: nat, to: nat): nat {
    if k == from then to else if k == to then from else k
  }

  lemma RearrangedAt(s: State, player: string, from: nat, to: nat)
    requires from < |HouseSlots(s, player)|
    ensures var t := Rearranged(s, player, from, to);
            forall q: string, k: nat ::
              At(t.house, q, k) == At(s.house, q, if q == player then Crossed(k, from, to) else k)
  {
    hide Exchanged; hide Hung;
    ExchangedAt(HouseSlots(s, player), from, to);
    HungAt(s.house, player, Exchanged(HouseSlots(s, player), from, to));
  }

  /** Moving there and back leaves the house and the children as they were. */
  lemma MovedBack(s: State, player: string, from: nat, to: nat)
    requires Sound(s) && At(s.house, player, from) != ""
    ensures var t := Rearranged(s, player, from, to); to < |HouseSlots(t, player)| && Rearranged(t, player, to, from) == s
  {
    hide Sound; hide Hung; hide Exchanged;
    var t := Rearranged(s, player, from, to);
    RearrangedAt(s, player, from, to);
    assert At(t.house, player, to) != "";
    var again := Rearranged(t, player, to, from);
    assert again.house == s.house by { HouseMovedBack(s, player, from, to); }
    assert again.children == s.children;
  }

  lemma HouseMovedBack(s: State, player: string, from: nat, to: nat)
    requires Sound(s) && from < |HouseSlots(s, player)| && to < |HouseSlots(Rearranged(s, player, from, to), player)|
    ensures Rearranged(Rearranged(s, player, from, to), player, to, from).house == s.house
  {
    hide Sound; hide At; hide Rearranged; hide Tidy;
    var t := Rearranged(s, player, from, to);
    var again := Rearranged(t, player, to, from);
    RearrangedAt(s, player, from, to);
    RearrangedAt(t, player, to, from);
    SoundTidy(s);
    RearrangedTidy(s, player, from, to);
    RearrangedTidy(t, player, to, from);
    SamePlace(again.house, s.house);
  }

  lemma RearrangedTidy(s: State, player: string, from: nat, to: nat)
    requires Tidy(s.house) && from < |HouseSlots(s, player)|
    ensures Tidy(Rearranged(s, player, from, to).house)
  {
    hide Hung; hide Exchanged;
    HungAt(s.house, player, Exchanged(HouseSlots(s, player), from, to));
  }

  // ---------------------------------------------------------------- taking keeps

  lemma PutAcrossPlays(s: State, player: string, from: nat, to: nat, face: string)
    requires Sound(s) && !IsHolder(s.current, player) && to < CARRIED_LIMIT && !IsChild(s.children, player, from)
    ensures Plays(s, PutAcross(s, player, from, to), face)
  {
    hide Put; hide Total; hide Housed; hide Holding; hide Raised; hide RidesSound; hide OnePlace; hide Mapped; hide Solvent;
    hide IsChild; hide Copy; hide IsHolder; hide Plays; hide PalleMade; hide EmojiMade; hide At;
    HouseChanges(s.house, s.gear, s.children, player, from, At(s.gear, player, to), face);
    GearChanges(Put(s.house, player, from, At(s.gear, player, to)), s.gear, s.current, player, to, At(s.house, player, from), face);
    GoodsPlay(s, PutAcross(s, player, from, to), face);
  }

  lemma TakePlays(s: State, player: string, emoji: string, swap: string, now: int, face: string)
    requires Sound(s)
    ensures var t := Take(s, player, emoji, swap, now); t.Done? ==> Plays(s, t.value, face)
  {
    hide Sound; hide Plays; hide GoneHome; hide WhereIs; hide PutAcross; hide IsHolder; hide NamesChild; hide HouseLike;
    hide RoomOnHim; hide Looks;
    var t := GoneHome(s, player, now);
    Journeys.GoneHomePlays(s, player, now, face);
    if t.Done? {
      PlayedSound(s, t.value, face);
      if TakeAnswer(t.value, player, emoji, swap) == Taken {
        var from, to := HouseLike(t.value, player, emoji, 0).value, RoomOnHim(t.value, player, swap).value;
        HomeIsNotPlace(t.value, player);
        assert CanPart(t.value, player, from, emoji);
        RoomThere(t.value, player, swap);
        PutAcrossPlays(t.value, player, from, to, face);
        PlaysOn(s, t.value, PutAcross(t.value, player, from, to), face);
      }
    }
  }

  lemma RoomThere(s: State, player: string, swap: string)
    requires Sound(s)
    ensures RoomOnHim(s, player, swap).Some? ==> RoomOnHim(s, player, swap).value < CARRIED_LIMIT
  {
    hide RoomOnHim; hide RidesSound; hide OnePlace; hide Mapped; hide Holding; hide Raised; hide Solvent;
    FewSlots(s.house, s.gear, player);
  }

  lemma StorePlays(s: State, player: string, emoji: string, limit: nat, now: int, face: string)
    requires Sound(s)
    ensures var t := Store(s, player, emoji, limit, now); t.Done? ==> Plays(s, t.value, face)
  {
    hide Sound; hide Plays; hide GoneHome; hide WhereIs; hide PutAcross; hide IsHolder; hide FirstLike; hide FreeSlot;
    var t := GoneHome(s, player, now);
    Journeys.GoneHomePlays(s, player, now, face);
    if t.Done? {
      PlayedSound(s, t.value, face);
      if StoreAnswer(t.value, player, emoji, limit) == Stored {
        var from, to := FirstLike(GearSlots(t.value, player), emoji).value, FreeSlot(HouseSlots(t.value, player), limit).value;
        HomeIsNotPlace(t.value, player);
        RoomThereToStore(t.value, player, emoji, limit);
        PutAcrossPlays(t.value, player, to, from, face);
        PlaysOn(s, t.value, PutAcross(t.value, player, to, from), face);
      }
    }
  }

  lemma RoomThereToStore(s: State, player: string, emoji: string, limit: nat)
    requires Sound(s) && StoreAnswer(s, player, emoji, limit) == Stored
    ensures FirstLike(GearSlots(s, player), emoji).value < CARRIED_LIMIT
    ensures !IsChild(s.children, player, FreeSlot(HouseSlots(s, player), limit).value)
  {
    hide RidesSound; hide OnePlace; hide Mapped; hide Holding; hide Raised; hide Solvent; hide WhereIs; hide Looks; hide IsChild;
    FewSlots(s.house, s.gear, player);
    NoChildThere(s.house, s.children, player, FreeSlot(HouseSlots(s, player), limit).value);
  }

  /** Taking an emoji and storing it again, in the slot it came from, leaves everything as it was. */
  lemma StoredBack(s: State, player: string, from: nat, to: nat)
    requires Sound(s)
    ensures PutAcross(PutAcross(s, player, from, to), player, from, to) == s
  {
    hide Put; hide Sound; hide Tidy; hide At;
    SoundTidy(s);
    PutBack(s.house, player, from, At(s.gear, player, to));
    PutBack(s.gear, player, to, At(s.house, player, from));
    PutAt(s.house, player, from, At(s.gear, player, to));
    PutAt(s.gear, player, to, At(s.house, player, from));
  }

  lemma PutBack(place: Place, player: string, slot: nat, emoji: string)
    requires Tidy(place)
    ensures Put(Put(place, player, slot, emoji), player, slot, At(place, player, slot)) == place
  {
    hide Put; hide Tidy; hide At;
    var put := Put(place, player, slot, emoji);
    PutAt(place, player, slot, emoji);
    PutAt(put, player, slot, At(place, player, slot));
    SamePlace(Put(put, player, slot, At(place, player, slot)), place);
  }
}
