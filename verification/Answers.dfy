/** src/game.cpp, what is answered: the first reason there is, in the order in which they are asked, each told from what is there. */
module Answers {
  import opened Basics
  import opened Ledger
  import opened Places
  import opened World
  import opened Powers
  import opened Rides
  import opened Belongings
  import opened Journeys
  import opened Facts
  import Burning
  import Claims
  import Conquests
  import Departures
  import Errands
  import Fires
  import Household

  // ---------------------------------------------------------------- riding

  /** raid_start, for one who names himself, and for one who stays where he is. */
  ghost function WhyNoRide(s: State, player: string, known: Option<string>, homewards: bool, load: Load, now: int, rules: Rules): RaidStatus {
    if homewards then
      if IsOut(s, player) then ComingHome else if IsIn(s, player) then LeftThePlace else HomeAlready
    else if known.None? then UnknownTarget
    else if IsOut(s, player) then AlreadyTravelling
    else if load.gift == 0 && (load.emoji == "" || (Departures.IsThrowable(load.emoji) && !load.intact))
            && Departures.IsNew(s, known.value, now) then ProtectedTarget
    else if Counter(s.frozen, player) > now then FrozenRaider
    else if IsIn(s, player) then HoldingPlace
    else if load.gift < 0 then InvalidAmount
    else if load.gift > 0 && load.gift > Counter(s.scores, player) then InsufficientScore
    else if load.emoji == "" then Started
    else if !Departures.HasOnHim(s, player, load.emoji) && !Departures.HasAtHome(s, player, load.emoji) then NoSuchEmoji
    else if !Departures.HasOnHim(s, player, load.emoji) && !Departures.HasRoom(SlotsIn(s.gear, player), CARRIED_LIMIT) then HandsFull
    else if !(Departures.IsThrowable(load.emoji) && !load.intact)
            && !Departures.MayReceive(s, known.value, load.emoji, rules.furnitureLimit) then NoRoom
    else Started
  }

  lemma ReceivesWhen(s: State, player: string, emoji: string, limit: nat)
    ensures CanReceive(s, player, emoji, limit) <==> Departures.MayReceive(s, player, emoji, limit)
  {
    hide Departures.HasRoom; hide FreeSlot; hide WhereIs; hide IsIn; hide IsOut;
    Departures.RoomIs(SlotsIn(s.gear, player), CARRIED_LIMIT);
    Departures.RoomIs(SlotsIn(s.house, player), limit);
    WhereItIs(s, player);
  }

  lemma WhyEmojiStays(s: State, player: string, target: string, load: Load, rules: Rules)
    ensures EmojiStays(s, player, target, load, rules) ==
              if load.emoji == "" then None
              else if !Departures.HasOnHim(s, player, load.emoji) && !Departures.HasAtHome(s, player, load.emoji) then Some(NoSuchEmoji)
              else if !Departures.HasOnHim(s, player, load.emoji) && !Departures.HasRoom(SlotsIn(s.gear, player), CARRIED_LIMIT)
              then Some(HandsFull)
              else if !(Departures.IsThrowable(load.emoji) && !load.intact)
                      && !Departures.MayReceive(s, target, load.emoji, rules.furnitureLimit) then Some(NoRoom)
              else None
  {
    hide Finding; hide Departures.HasOnHim; hide Departures.HasAtHome; hide Departures.HasRoom; hide FreeSlot; hide CanReceive;
    hide Departures.MayReceive;
    Departures.FoundIs(s, player, load.emoji);
    Departures.RoomIs(SlotsIn(s.gear, player), CARRIED_LIMIT);
    ReceivesWhen(s, target, load.emoji, rules.furnitureLimit);
  }

  lemma WhyKeptBack(s: State, player: string, target: string, load: Load, now: int)
    ensures KeptBack(s, player, target, load, now) ==
              if IsOut(s, player) then Some(AlreadyTravelling)
              else if load.gift == 0 && (load.emoji == "" || (Departures.IsThrowable(load.emoji) && !load.intact))
                      && Departures.IsNew(s, target, now) then Some(ProtectedTarget)
              else if Counter(s.frozen, player) > now then Some(FrozenRaider)
              else if IsIn(s, player) then Some(HoldingPlace)
              else if load.gift < 0 then Some(InvalidAmount)
              else if load.gift > 0 && load.gift > Counter(s.scores, player) then Some(InsufficientScore)
              else None
  {
    hide IsIn; hide IsOut; hide HoldsPlace; hide RideOf;
    WhereItIs(s, player);
  }

  lemma RideAnswered(s: State, player: string, known: Option<string>, homewards: bool, load: Load, now: int, rules: Rules)
    ensures RaidAnswer(s, player, known, homewards, load, now, rules) == WhyNoRide(s, player, known, homewards, load, now, rules)
  {
    hide IsIn; hide IsOut; hide HoldsPlace; hide RideOf; hide KeptBack; hide EmojiStays; hide Departures.HasOnHim;
    hide Departures.HasAtHome; hide Departures.HasRoom; hide Departures.MayReceive; hide Departures.IsThrowable; hide Departures.IsNew;
    WhereItIs(s, player);
    if known.Some? {
      WhyKeptBack(s, player, known.value, load, now);
      WhyEmojiStays(s, player, known.value, load, rules);
    }
  }

  // ---------------------------------------------------------------- the place

  /** conquister_claim. */
  lemma ClaimAnsweredWhy(s: State, userId: int, player: string, now: int, rules: Claims.ClaimRules)
    ensures Claims.ClaimAnswer(s, userId, player, now, rules) ==
              if IsOut(s, player) then Claims.Travelling
              else if player in s.cooldowns && s.cooldowns[player] > now then Claims.Cooldown
              else if IsIn(s, player) then Claims.AlreadyHeld
              else if Counter(s.frozen, player) > now then Claims.ClaimStatus.Frozen
              else if Conquests.SomebodyIn(s) && Conquests.Stops(s, player, s.current.value.username, now, rules) then Claims.Defended
              else Claims.ClaimStatus.Taken
  {
    hide IsIn; hide IsOut; hide HoldsPlace; hide RideOf; hide Claims.IsStopped; hide Conquests.Stops; hide Claims.Ready;
    WhereItIs(s, player);
    var t := Claims.Ready(s, userId, player);
    Conquests.TakenExactly(s, userId, player, now, rules);
  }

  // ---------------------------------------------------------------- the house

  /** It works on him, no place is named, and there is a slot free on him. */
  ghost predicate IsWorn(s: State, player: string, emoji: string, position: int) {
    position == 0 && PowerOf(emoji).Some? && KindOf(PowerOf(emoji).value) == Kind.Carried
    && Departures.HasRoom(SlotsIn(s.gear, player), CARRIED_LIMIT)
  }

  /** The slot of the house it is for: the one named, or the first free one. */
  ghost predicate IsAimedAt(s: State, player: string, position: int, k: nat) {
    if position == 0 then IsFirstFree(SlotsIn(s.house, player), k) else k == position - 1
  }

  /** furniture_buy, once he is home. */
  ghost function WhyNoSlot(s: State, player: string, emoji: string, position: int, limit: nat): Option<Household.FurnitureStatus> {
    var house := SlotsIn(s.house, player);
    if IsWorn(s, player, emoji, position) then None
    else if position == 0 && !Departures.HasRoom(house, limit) then Some(Household.Full)
    else if position != 0 && !(1 <= position <= limit) then Some(Household.InvalidPosition)
    else if exists k: nat :: IsAimedAt(s, player, position, k) && IsChild(s.children, player, k) then Some(Household.ChildThere)
    else if exists k: nat :: IsAimedAt(s, player, position, k) && k < |house| && SameEmoji(house[k], emoji)
    then Some(Household.AlreadyThere)
    else None
  }

  lemma AimedWhere(s: State, player: string, emoji: string, position: int, limit: nat)
    ensures var spot := Household.SlotFor(s, player, emoji, position, limit);
            if IsWorn(s, player, emoji, position) then spot.ToWear?
            else if position == 0 && !Departures.HasRoom(SlotsIn(s.house, player), limit) then spot == Household.Refused(Household.Full)
            else if position != 0 && !(1 <= position <= limit) then spot == Household.Refused(Household.InvalidPosition)
            else spot.ToKeep? && forall k: nat :: IsAimedAt(s, player, position, k) <==> k == spot.slot
  {
    hide PowerOf; hide FreeSlot; hide IsFirstFree; hide Departures.HasRoom;
    FreeFirst(SlotsIn(s.house, player), limit);
    Departures.RoomIs(SlotsIn(s.gear, player), CARRIED_LIMIT);
    Departures.RoomIs(SlotsIn(s.house, player), limit);
    OneFirst(SlotsIn(s.house, player));
  }

  lemma OneFirst(slots: seq<string>)
    ensures forall j: nat, k: nat | IsFirstFree(slots, j) && IsFirstFree(slots, k) :: j == k
  {
    assert forall j: nat, k: nat | IsFirstFree(slots, j) && IsFirstFree(slots, k) :: !(j < k) && !(k < j);
  }

  lemma SlotRefused(s: State, player: string, emoji: string, position: int, limit: nat)
    ensures var spot, why := Household.SpotFor(s, player, emoji, position, limit), WhyNoSlot(s, player, emoji, position, limit);
            if why.Some? then spot == Household.Refused(why.value) else !spot.Refused?
  {
    hide IsWorn; hide IsAimedAt; hide Departures.HasRoom; hide Household.SlotFor; hide IsChild; hide SameEmoji;
    AimedWhere(s, player, emoji, position, limit);
  }

  lemma PurchaseAnswered(s: State, player: string, emoji: string, position: int, cost: int, limit: nat, inflation: int)
    requires cost <= MOST
    ensures var why := WhyNoSlot(s, player, emoji, position, limit);
            Household.BuyAnswer(s, player, emoji, position, cost, limit, inflation) ==
              if !Errands.IsHome(s, player) then Household.NotHome
              else if why.Some? then why.value
              else if Counter(s.scores, player) < Errands.PriceAfter(cost, Errands.CopiesOut(s, emoji), inflation)
              then Household.InsufficientScore
              else Household.Bought
  {
    hide WhyNoSlot; hide Household.SpotFor; hide Household.Price; hide Errands.PriceAfter; hide Errands.CopiesOut; hide Errands.IsHome; hide WhereIs;
    Errands.HomeIs(s, player);
    SlotRefused(s, player, emoji, position, limit);
    Errands.PriceTold(s, emoji, cost, inflation);
  }

  /** furniture_move, once he is home. */
  lemma MoveAnswered(s: State, player: string, from: int, to: int, limit: nat)
    ensures Household.MoveAnswer(s, player, from, to, limit) ==
              if !(1 <= from <= limit && 1 <= to <= limit) then Household.InvalidSlot
              else if from == to then Household.SameSlot
              else if !Errands.IsHome(s, player) then Household.Away
              else if At(s.house, player, from - 1) == "" then Household.EmptySlot
              else Household.Moved
  {
    hide Errands.IsHome; hide WhereIs; hide At;
    Errands.HomeIs(s, player);
  }

  /** Such an emoji of his is a child. */
  ghost predicate HasSuchChild(s: State, player: string, emoji: string) {
    exists k: nat :: k < |SlotsIn(s.house, player)| && SameEmoji(SlotsIn(s.house, player)[k], emoji) && IsChild(s.children, player, k)
  }

  lemma ChildNamed(s: State, player: string, emoji: string)
    ensures Household.NamesChild(s, player, emoji) <==> HasSuchChild(s, player, emoji)
  {
    hide SameEmoji;
  }

  /** gear_take, once he is home. */
  lemma TakeAnswered(s: State, player: string, emoji: string, swap: string)
    ensures Household.TakeAnswer(s, player, emoji, swap) ==
              if !Errands.IsHome(s, player) then Household.NotAtHome
              else if !exists k: nat :: Errands.IsFirstAtHome(s, player, emoji, k) then
                if HasSuchChild(s, player, emoji) then Household.ChildStays
                else if exists k: nat :: Errands.IsFirstOnHim(s, player, emoji, k) then Household.AlreadyOn
                else Household.NotOwned
              else if !exists k: nat :: Errands.IsRoomFor(s, player, swap, k) then
                if swap == "" then Household.NoRoomOnHim else Household.SwapMissing
              else Household.GearStatus.Taken
  {
    hide Errands.IsHome; hide WhereIs; hide Errands.IsFirstAtHome; hide Errands.IsFirstOnHim; hide Errands.IsRoomFor; hide HouseLike;
    hide FirstLike; hide Household.RoomOnHim; hide HasSuchChild; hide Household.NamesChild;
    Errands.HomeIs(s, player);
    Errands.FirstAtHomeIs(s, player, emoji);
    Errands.FirstOnHimIs(s, player, emoji);
    Errands.RoomForIs(s, player, swap);
    ChildNamed(s, player, emoji);
  }

  /** gear_store, once he is home. */
  lemma StoreAnswered(s: State, player: string, emoji: string, limit: nat)
    ensures Household.StoreAnswer(s, player, emoji, limit) ==
              if !Errands.IsHome(s, player) then Household.NotAtHome
              else if !exists k: nat :: Errands.IsFirstOnHim(s, player, emoji, k) then Household.NotOn
              else if !Departures.HasRoom(SlotsIn(s.house, player), limit) then Household.HouseFull
              else Household.Stored
  {
    hide Errands.IsHome; hide WhereIs; hide Errands.IsFirstOnHim; hide FirstLike; hide FreeSlot; hide Departures.HasRoom;
    Errands.HomeIs(s, player);
    Errands.FirstOnHimIs(s, player, emoji);
    Departures.RoomIs(SlotsIn(s.house, player), limit);
  }

  /** furniture_burn. */
  lemma BurnAnswered(s: State, player: string, emoji: string, destroy: bool)
    ensures Burning.BurnAnswer(s, player, emoji, destroy) ==
              if IsOut(s, player) then Burning.OnHisWay
              else if Fires.HasIt(s, player, emoji) then Burning.Burned
              else if !exists j: nat :: Fires.IsFirstChild(s, player, emoji, j) then Burning.NotHis
              else if !destroy then Burning.ChildSpared
              else Burning.Burned
  {
    hide RideOf; hide IsOut; hide Finding; hide Departures.HasOnHim; hide Departures.HasAtHome; hide Burning.FirstChildLike;
    hide Fires.LooksLike;
    WhereItIs(s, player);
    Departures.FoundIs(s, player, emoji);
    Fires.FirstChildIs(s, player, emoji, 0);
    var child := Burning.FirstChildLike(s, player, emoji, 0);
    assert child.Some? ==> Fires.IsFirstChild(s, player, emoji, child.value);
  }
}
