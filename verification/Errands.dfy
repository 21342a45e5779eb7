/** src/game.cpp, furniture_buy, furniture_move, gear_take and gear_store: exactly when each of them is done, and what it does, told slot by
    slot. Each takes whoever holds the place home first, as Conquests.GoesHome says. */
module Errands {
  import opened Basics
  import opened Powers
  import opened Ledger
  import opened Places
  import opened World
  import opened Holds
  import opened Belongings
  import opened Household
  import opened Facts
  import Departures

  ghost predicate IsHome(s: State, player: string) {
    !IsIn(s, player) && !IsOut(s, player)
  }

  lemma HomeIs(s: State, player: string)
    ensures WhereIs(s, player) == AtHome <==> IsHome(s, player)
  {
    hide IsIn; hide IsOut;
    WhereItIs(s, player);
  }

  // ---------------------------------------------------------------- buying

  /** One copy more makes it dearer by so many percent, the largest number at the most. */
  function PriceAfter(cost: int, copies: int, inflation: int): int
    decreases copies
  {
    if cost <= 0 then 0
    else if copies <= 0 then cost
    else
      var grown := PriceAfter(cost, copies - 1, inflation) * (100 + if inflation > 0 then inflation else 0);
      if grown > 0x7FFF_FFFF_FFFF_FFFF then 0x7FFF_FFFF_FFFF_FFFF else grown / 100
  }

  lemma {:induction false} PriceIs(cost: int, copies: int, inflation: int)
    requires cost <= MOST
    ensures Inflated(cost, copies, inflation) == PriceAfter(cost, copies, inflation)
    decreases copies
  {
    hide Dearer;
    if cost > 0 && copies > 0 {
      PriceIs(cost, copies - 1, inflation);
      PriceGrows(cost, copies - 1, copies - 1, inflation);
      DearerBounds(Inflated(cost, copies - 1, inflation), Factor(inflation));
    }
  }

  /** The slot he buys it for: one on him if it works there and no place is named, else one of the house where there is no child and not the
      same emoji. */
  ghost predicate IsSpot(s: State, player: string, emoji: string, position: int, limit: nat, onHim: bool, k: nat) {
    var house, gear := SlotsIn(s.house, player), SlotsIn(s.gear, player);
    var worn := position == 0 && PowerOf(emoji).Some? && KindOf(PowerOf(emoji).value) == Kind.Carried
                && Departures.HasRoom(gear, CARRIED_LIMIT);
    if onHim then worn && IsFirstFree(gear, k)
    else
      && !worn
      && (if position == 0 then IsFirstFree(house, k) && k < limit else 1 <= position <= limit && k == position - 1)
      && !IsChild(s.children, player, k) && !(k < |house| && SameEmoji(house[k], emoji))
  }

  lemma SpotIs(s: State, player: string, emoji: string, position: int, limit: nat)
    ensures var spot := SpotFor(s, player, emoji, position, limit);
            forall onHim: bool, k: nat ::
              IsSpot(s, player, emoji, position, limit, onHim, k) <==> spot == if onHim then ToWear(k) else ToKeep(k)
  {
    hide PowerOf; hide SameEmoji; hide IsChild; hide FreeSlot; hide IsFirstFree; hide Departures.HasRoom;
    FreeFirst(SlotsIn(s.gear, player), CARRIED_LIMIT);
    FreeFirst(SlotsIn(s.house, player), limit);
    Departures.RoomIs(SlotsIn(s.gear, player), CARRIED_LIMIT);
    Departures.RoomIs(SlotsIn(s.house, player), limit);
    RoomFirst(SlotsIn(s.gear, player), CARRIED_LIMIT);
  }

  lemma RoomFirst(slots: seq<string>, limit: nat)
    ensures Departures.HasRoom(slots, limit) ==> forall k: nat | IsFirstFree(slots, k) :: k < limit
  {
  }

  ghost function CopiesOut(s: State, emoji: string): int {
    Stock(s.house, s.gear, s.raids, 0, 0, Plain(emoji))
  }

  /** At home, with a slot for it, and the palle it costs. */
  ghost predicate MayBuy(s: State, player: string, emoji: string, position: int, cost: int, limit: nat, inflation: int) {
    && IsHome(s, player)
    && (exists onHim: bool, k: nat :: IsSpot(s, player, emoji, position, limit, onHim, k))
    && Counter(s.scores, player) >= PriceAfter(cost, CopiesOut(s, emoji), inflation)
  }

  /** It is in its slot, in the place of whatever was there, and paid for. */
  ghost predicate Buys(s: State, t: State, player: string, emoji: string, position: int, cost: int, limit: nat, inflation: int) {
    && t == s.(scores := t.scores, house := t.house, gear := t.gear, told := t.told)
    && (forall q :: Counter(t.scores, q)
          == Counter(s.scores, q) - if q == player then PriceAfter(cost, CopiesOut(s, emoji), inflation) else 0)
    && exists onHim: bool, k: nat | IsSpot(s, player, emoji, position, limit, onHim, k) ::
         if onHim then t.gear == Put(s.gear, player, k, emoji) && t.house == s.house
         else t.house == Put(s.house, player, k, emoji) && t.gear == s.gear
  }

  lemma PriceTold(s: State, emoji: string, cost: int, inflation: int)
    requires cost <= MOST
    ensures Price(s, emoji, cost, inflation) == PriceAfter(cost, CopiesOut(s, emoji), inflation)
  {
    hide Stock;
    PriceIs(cost, CopiesOut(s, emoji), inflation);
  }

  lemma BuysWhen(s: State, player: string, emoji: string, position: int, cost: int, limit: nat, inflation: int)
    requires cost <= MOST
    ensures MayBuy(s, player, emoji, position, cost, limit, inflation) <==>
              BuyAnswer(s, player, emoji, position, cost, limit, inflation) == Bought
  {
    hide SpotFor; hide IsSpot; hide Price; hide PriceAfter; hide CopiesOut; hide IsHome; hide WhereIs;
    HomeIs(s, player);
    SpotIs(s, player, emoji, position, limit);
    PriceTold(s, emoji, cost, inflation);
    var spot := SpotFor(s, player, emoji, position, limit);
    if !spot.Refused? {
      assert IsSpot(s, player, emoji, position, limit, spot.ToWear?, spot.slot);
    }
  }

  lemma PayingIs(s: State, player: string, spot: Spot, emoji: string, price: int)
    requires !spot.Refused?
    ensures var t := Paying(s, player, spot, emoji, price);
            && t.scores == s.scores[player := Counter(s.scores, player) - price]
            && t.gear == (if spot.ToWear? then Put(s.gear, player, spot.slot, emoji) else s.gear)
            && t.house == (if spot.ToWear? then s.house else Put(s.house, player, spot.slot, emoji))
  {
    hide Put; hide Replaced; hide Counter;
  }

  lemma PayingBuys(s: State, player: string, emoji: string, position: int, cost: int, limit: nat, inflation: int)
    requires cost <= MOST && !SpotFor(s, player, emoji, position, limit).Refused?
    ensures Buys(s, Paying(s, player, SpotFor(s, player, emoji, position, limit), emoji, Price(s, emoji, cost, inflation)),
                 player, emoji, position, cost, limit, inflation)
  {
    hide SpotFor; hide IsSpot; hide Price; hide PriceAfter; hide CopiesOut; hide Put; hide Replaced; hide Paying;
    SpotIs(s, player, emoji, position, limit);
    PriceTold(s, emoji, cost, inflation);
    var spot := SpotFor(s, player, emoji, position, limit);
    PayingIs(s, player, spot, emoji, Price(s, emoji, cost, inflation));
    assert IsSpot(s, player, emoji, position, limit, spot.ToWear?, spot.slot);
  }

  /** furniture_buy, once he is home: bought exactly when he may, and else nothing. */
  lemma BuysExactly(s: State, player: string, emoji: string, position: int, cost: int, limit: nat, now: int, inflation: int)
    requires cost <= MOST && Buy(s, player, emoji, position, cost, limit, now, inflation).Done?
    ensures var home, t := GoneHome(s, player, now), Buy(s, player, emoji, position, cost, limit, now, inflation).value;
            && home.Done?
            && if MayBuy(home.value, player, emoji, position, cost, limit, inflation)
               then Buys(home.value, t, player, emoji, position, cost, limit, inflation) else t == home.value
  {
    hide GoneHome; hide BuyAnswer; hide SpotFor; hide MayBuy; hide Buys; hide Paying; hide Price;
    var home := GoneHome(s, player, now).value;
    BuysWhen(home, player, emoji, position, cost, limit, inflation);
    if BuyAnswer(home, player, emoji, position, cost, limit, inflation) == Bought {
      BoughtSomewhere(home, player, emoji, position, cost, limit, inflation);
      PayingBuys(home, player, emoji, position, cost, limit, inflation);
    }
  }

  lemma BoughtSomewhere(s: State, player: string, emoji: string, position: int, cost: int, limit: nat, inflation: int)
    requires BuyAnswer(s, player, emoji, position, cost, limit, inflation) == Bought
    ensures !SpotFor(s, player, emoji, position, limit).Refused?
  {
    hide SpotFor; hide Price; hide WhereIs;
  }

  // ---------------------------------------------------------------- moving

  /** Between two slots there are, from one that holds something. */
  ghost predicate MayMove(s: State, player: string, from: int, to: int) {
    IsHome(s, player) && from >= 1 && At(s.house, player, from - 1) != ""
  }

  /** The two slots are exchanged, and children with them; everything else stays where it is. */
  ghost predicate Exchanges(s: State, t: State, player: string, from: nat, to: nat) {
    && t == s.(house := t.house, children := t.children)
    && (forall q: string, k: nat :: At(t.house, q, k) ==
          if q == player && k == from then At(s.house, player, to)
          else if q == player && k == to then At(s.house, player, from)
          else At(s.house, q, k))
    && |t.children| == |s.children|
    && forall j | 0 <= j < |s.children| ::
         t.children[j] == s.children[j].(slot :=
           if s.children[j].owner == player && s.children[j].slot == from then to
           else if s.children[j].owner == player && s.children[j].slot == to then from
           else s.children[j].slot)
  }

  lemma RearrangedIs(s: State, player: string, from: nat, to: nat)
    requires from < |HouseSlots(s, player)| && from != to
    ensures Exchanges(s, Rearranged(s, player, from, to), player, from, to)
  {
    hide Hung;
    var slots := HouseSlots(s, player);
    var swapped := Exchanged(slots, from, to);
    HungAt(s.house, player, swapped);
    forall k: nat
      ensures (if k < |swapped| then swapped[k] else "") ==
                if k == from then At(s.house, player, to) else if k == to then At(s.house, player, from) else At(s.house, player, k)
    {
    }
  }

  /** furniture_move: two different slots there are, then home, then exchanged exactly when the first holds something. */
  lemma MovesExactly(s: State, player: string, from: int, to: int, limit: nat, now: int)
    requires Move(s, player, from, to, limit, now).Done?
    ensures var t := Move(s, player, from, to, limit, now).value;
            if !(1 <= from <= limit && 1 <= to <= limit && from != to) then t == s
            else
              var home := GoneHome(s, player, now);
              && home.Done?
              && if MayMove(home.value, player, from, to) then Exchanges(home.value, t, player, from - 1, to - 1) else t == home.value
  {
    hide GoneHome; hide Rearranged; hide WhereIs; hide IsHome; hide Exchanges;
    var home := GoneHome(s, player, now);
    if 1 <= from <= limit && 1 <= to <= limit && from != to {
      HomeIs(home.value, player);
      if MayMove(home.value, player, from, to) {
        RearrangedIs(home.value, player, from - 1, to - 1);
      }
    }
  }

  // ---------------------------------------------------------------- taking and storing

  /** The first slot of the house with such an emoji that is no child. */
  ghost predicate IsFirstAtHome(s: State, player: string, emoji: string, k: nat) {
    CanPart(s, player, k, emoji) && forall j: nat | j < k :: !CanPart(s, player, j, emoji)
  }

  ghost predicate IsFirstOnHim(s: State, player: string, emoji: string, k: nat) {
    var gear := SlotsIn(s.gear, player);
    k < |gear| && Looks(gear[k], emoji) && forall j: nat | j < k :: !Looks(gear[j], emoji)
  }

  /** The slot on him it goes in: the first free one, or that of the emoji he names to make room. */
  ghost predicate IsRoomFor(s: State, player: string, swap: string, k: nat) {
    if swap == "" then IsFirstFree(SlotsIn(s.gear, player), k) && k < CARRIED_LIMIT else IsFirstOnHim(s, player, swap, k)
  }

  /** What was in one slot is in the other. */
  ghost predicate Across(s: State, t: State, player: string, atHome: nat, onHim: nat) {
    && t == s.(house := t.house, gear := t.gear)
    && t.house == Put(s.house, player, atHome, At(s.gear, player, onHim))
    && t.gear == Put(s.gear, player, onHim, At(s.house, player, atHome))
  }

  lemma FirstAtHomeIs(s: State, player: string, emoji: string)
    ensures forall k: nat :: HouseLike(s, player, emoji, 0) == Some(k) <==> IsFirstAtHome(s, player, emoji, k)
    ensures HouseLike(s, player, emoji, 0).None? <==> !exists k: nat :: IsFirstAtHome(s, player, emoji, k)
  {
    hide CanPart;
    var found := HouseLike(s, player, emoji, 0);
    if found.Some? {
      assert IsFirstAtHome(s, player, emoji, found.value);
      assert forall k: nat | IsFirstAtHome(s, player, emoji, k) :: !(k < found.value) && !(found.value < k);
    }
  }

  lemma FirstOnHimIs(s: State, player: string, emoji: string)
    ensures forall k: nat :: FirstLike(SlotsIn(s.gear, player), emoji) == Some(k) <==> IsFirstOnHim(s, player, emoji, k)
    ensures FirstLike(SlotsIn(s.gear, player), emoji).None? <==> !exists k: nat :: IsFirstOnHim(s, player, emoji, k)
  {
    hide Looks;
    var found := FirstLike(SlotsIn(s.gear, player), emoji);
    if found.Some? {
      assert IsFirstOnHim(s, player, emoji, found.value);
    }
  }

  lemma RoomForIs(s: State, player: string, swap: string)
    ensures forall k: nat :: RoomOnHim(s, player, swap) == Some(k) <==> IsRoomFor(s, player, swap, k)
    ensures RoomOnHim(s, player, swap).None? <==> !exists k: nat :: IsRoomFor(s, player, swap, k)
  {
    hide FreeSlot; hide FirstLike; hide IsFirstFree; hide IsFirstOnHim;
    FreeFirst(SlotsIn(s.gear, player), CARRIED_LIMIT);
    FirstOnHimIs(s, player, swap);
    var room := RoomOnHim(s, player, swap);
    if room.Some? {
      assert IsRoomFor(s, player, swap, room.value);
    }
  }

  /** gear_take, once he is home: he has it on him exactly when he is at home, has it there and has room for it. */
  lemma TakesExactly(s: State, player: string, emoji: string, swap: string, now: int)
    requires Take(s, player, emoji, swap, now).Done?
    ensures var home, t := GoneHome(s, player, now), Take(s, player, emoji, swap, now).value;
            && home.Done?
            && if IsHome(home.value, player) && (exists k: nat :: IsFirstAtHome(home.value, player, emoji, k))
                  && (exists k: nat :: IsRoomFor(home.value, player, swap, k))
               then exists atHome: nat, onHim: nat |
                      IsFirstAtHome(home.value, player, emoji, atHome) && IsRoomFor(home.value, player, swap, onHim) ::
                      Across(home.value, t, player, atHome, onHim)
               else t == home.value
  {
    hide GoneHome; hide HouseLike; hide RoomOnHim; hide IsFirstAtHome; hide IsRoomFor; hide NamesChild; hide FirstLike; hide WhereIs;
    hide IsHome; hide Across; hide PutAcross;
    var home := GoneHome(s, player, now).value;
    HomeIs(home, player);
    FirstAtHomeIs(home, player, emoji);
    RoomForIs(home, player, swap);
    if TakeAnswer(home, player, emoji, swap) == GearStatus.Taken {
      var from, to := HouseLike(home, player, emoji, 0).value, RoomOnHim(home, player, swap).value;
      AcrossIs(home, player, from, to);
      assert IsFirstAtHome(home, player, emoji, from) && IsRoomFor(home, player, swap, to);
    }
  }

  lemma AcrossIs(s: State, player: string, from: nat, to: nat)
    ensures Across(s, PutAcross(s, player, from, to), player, from, to)
  {
    hide Put; hide At;
  }

  /** gear_store, once he is home: it is in the house exactly when he is at home, has it on him, and the house has a slot free. */
  lemma StoresExactly(s: State, player: string, emoji: string, limit: nat, now: int)
    requires Store(s, player, emoji, limit, now).Done?
    ensures var home, t := GoneHome(s, player, now), Store(s, player, emoji, limit, now).value;
            && home.Done?
            && if IsHome(home.value, player) && (exists k: nat :: IsFirstOnHim(home.value, player, emoji, k))
                  && Departures.HasRoom(SlotsIn(home.value.house, player), limit)
               then exists atHome: nat, onHim: nat |
                      IsFirstFree(SlotsIn(home.value.house, player), atHome) && IsFirstOnHim(home.value, player, emoji, onHim) ::
                      Across(home.value, t, player, atHome, onHim)
               else t == home.value
  {
    hide GoneHome; hide FreeSlot; hide FirstLike; hide IsFirstFree; hide IsFirstOnHim; hide WhereIs; hide IsHome; hide Across; hide PutAcross;
    hide Departures.HasRoom;
    var home := GoneHome(s, player, now).value;
    HomeIs(home, player);
    FirstOnHimIs(home, player, emoji);
    FreeFirst(SlotsIn(home.house, player), limit);
    Departures.RoomIs(SlotsIn(home.house, player), limit);
    if StoreAnswer(home, player, emoji, limit) == Stored {
      var from, to := FreeSlot(SlotsIn(home.house, player), limit).value, FirstLike(SlotsIn(home.gear, player), emoji).value;
      AcrossIs(home, player, from, to);
      assert IsFirstFree(SlotsIn(home.house, player), from) && IsFirstOnHim(home, player, emoji, to);
    }
  }
}
