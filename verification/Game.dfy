/** src/game.cpp, in the form it is written in: the state every transaction changes in place, field by field. What a method
    comes to is the function of the same deed on the whole state; what those promise is proved beside them. */
module Game {
  import opened Basics
  import opened Text
  import opened Slots
  import opened Powers
  import opened Ledger
  import opened Places
  import opened World
  import opened Rides
  import opened Family
  import opened Holds
  import opened Naming
  import opened Belongings
  import opened Claims
  import opened Journeys
  import opened Household
  import opened Burning
  import opened Linking
  import opened Runs
  import opened Quoting
  import opened Loops

  class StorageSession {
    /** The state a transaction works on: a copy of what is saved, until it is saved again. */
    var state: State

    constructor (saved: State)
      ensures state == saved
    {
      state := saved;
    }

    /** random_index. */
    method RandomIndex(count: nat) returns (index: nat)
      requires count > 0
      modifies this
      ensures index == Roll(old(state), count) && index < count
      ensures state == Rolled(old(state))
    {
      index := 0;
      if state.luck != [] {
        index := state.luck[0] % count;
        state := state.(luck := state.luck[1..]);
      }
    }

    /** A chance in percent, drawn for only when there is one. */
    method Try(chance: int) returns (lucky: bool)
      modifies this
      ensures lucky == Lucky(old(state), chance)
      ensures state == Tried(old(state), chance)
    {
      hide Roll; hide Rolled;
      lucky := false;
      if chance > 0 {
        var drawn := RandomIndex(100);
        lucky := drawn < chance;
      }
    }

    /** hang. */
    method Hang(player: string, slots: seq<string>)
      modifies this
      ensures state == old(state).(house := Hung(old(state).house, player, slots))
    {
      var kept := StripSlots(slots);
      state := state.(house := if kept == [] then state.house - {player} else state.house[player := kept]);
    }

    /** hang_gear. */
    method HangGear(player: string, slots: seq<string>)
      modifies this
      ensures state == old(state).(gear := Hung(old(state).gear, player, slots))
    {
      var kept := StripSlots(slots);
      state := state.(gear := if kept == [] then state.gear - {player} else state.gear[player := kept]);
    }

    /** One slot of the house holds something else. */
    method SetInHouse(player: string, slot: nat, emoji: string)
      modifies this
      ensures state == InHouse(old(state), player, slot, emoji)
    {
      hide Hung;
      var slots := Grown(HouseSlots(state, player), slot + 1);
      Hang(player, slots[slot := emoji]);
    }

    method SetOnHim(player: string, slot: nat, emoji: string)
      modifies this
      ensures state == OnHim(old(state), player, slot, emoji)
    {
      hide Hung;
      var slots := Grown(GearSlots(state, player), slot + 1);
      HangGear(player, slots[slot := emoji]);
    }

    method PutEmojiOn(player: string, emoji: string) returns (put: bool)
      modifies this
      ensures put == PutOn(old(state), player, emoji).Some?
      ensures state == if put then PutOn(old(state), player, emoji).value else old(state)
    {
      hide FreeSlot; hide OnHim;
      var slot := FindFree(GearSlots(state, player), CARRIED_LIMIT);
      put := slot.Some?;
      if put {
        SetOnHim(player, slot.value, emoji);
      }
    }

    method PutEmojiInHouse(player: string, emoji: string, limit: nat) returns (put: bool)
      modifies this
      ensures put == PutInHouse(old(state), player, emoji, limit).Some?
      ensures state == if put then PutInHouse(old(state), player, emoji, limit).value else old(state)
    {
      hide FreeSlot; hide InHouse;
      var slot := FindFree(HouseSlots(state, player), limit);
      put := slot.Some?;
      if put {
        SetInHouse(player, slot.value, emoji);
      }
    }

    /** receive. */
    method Receive(player: string, emoji: string, limit: nat) returns (received: bool)
      modifies this
      ensures received == Received(old(state), player, emoji, limit).Some?
      ensures state == if received then Received(old(state), player, emoji, limit).value else old(state)
    {
      hide PutOn; hide PutInHouse; hide WorksOnHim; hide WhereIs;
      received := false;
      if WorksOnHim(emoji) && WhereIs(state, player) == AtHome {
        received := PutEmojiOn(player, emoji);
      }
      if !received {
        received := PutEmojiInHouse(player, emoji, limit);
      }
    }

    /** put_on, or put_in_house without a limit. */
    method TakeBack(player: string, emoji: string)
      modifies this
      ensures state == TakenBack(old(state), player, emoji)
    {
      hide PutOn; hide InHouse;
      var put := PutEmojiOn(player, emoji);
      if !put {
        var slots := HouseSlots(state, player);
        var free := FindFree(slots, |slots| + 1);
        SetInHouse(player, free.value, emoji);
      }
    }

    // -------------------------------------------------------------- what lands

    /** blow_up. */
    method BlowUp(target: string, onHim: bool)
      modifies this
      ensures state == BlownUp(old(state), target, onHim)
    {
      hide Exposed; hide Put; hide Roll; hide SlotsIn;
      var slots := if onHim then GearSlots(state, target) else HouseSlots(state, target);
      var there := FindExposed(slots);
      if there == [] {
        return;
      }
      var drawn := RandomIndex(|there|);
      var hit := there[drawn];
      if onHim {
        SetOnHim(target, hit, "");
      } else {
        SetInHouse(target, hit, "");
      }
      state := state.(told := state.told + [Went(slots[hit])]);
    }

    /** start_over on one player. */
    method StartOver(player: string, walked: nat, now: int)
      modifies this
      ensures state == StartedOver(old(state), player, walked, now)
    {
      hide *;
      StartedOverWhole(state, player, walked, now);
      var lost := Losing(state.raids, player, walked, now);
      var wiped := Wiped(player, Counter(state.scores, player) + LostPalle(lost),
                         HouseSlots(state, player) + GearSlots(state, player) + [LostGift(lost)]);
      state := state.(told := state.told + [wiped] + [Came(BALLOON)],
                      scores := NoPalle(state.scores, player),
                      current := if HoldsPlace(state, player) then None else state.current);
      EmptyRides(player, now);
      EraseTraces(player);
    }

    /** What is his in the houses, on the players and in the lists, but for a new balloon. */
    method EraseTraces(player: string)
      modifies this
      ensures state == old(state).(
                house := Hung(old(state).house, player, []), gear := old(state).gear[player := [BALLOON]],
                pregnancies := NotExpecting(old(state).pregnancies, player), children := Elsewhere(old(state).children, player),
                balloons := old(state).balloons - {player}, cooldowns := old(state).cooldowns - {player},
                smeared := old(state).smeared - {player})
    {
      hide Elsewhere; hide NotExpecting; hide Hung;
      Hang(player, []);
      var pregnancies := EraseMother(state.pregnancies, player);
      var children := EraseOwner(state.children, player);
      state := state.(gear := state.gear[player := [BALLOON]], pregnancies := pregnancies, children := children,
                      balloons := state.balloons - {player}, cooldowns := state.cooldowns - {player},
                      smeared := state.smeared - {player});
    }

    method EmptyRides(player: string, now: int)
      modifies this
      ensures state == old(state).(raids := Emptied(old(state).raids, player, now))
    {
      ghost var before := state;
      for j := 0 to |state.raids|
        invariant state == before.(raids := state.raids) && |state.raids| == |before.raids|
        invariant forall k | 0 <= k < j :: state.raids[k] == Emptied(before.raids, player, now)[k]
        invariant forall k | j <= k < |before.raids| :: state.raids[k] == before.raids[k]
      {
        var raid := state.raids[j];
        if raid.raider == player {
          state := state.(raids := state.raids[j := raid.(arrived := true, back := now, loot := 0, gift := 0, giftEmoji := "")]);
        }
      }
      assert state.raids == Emptied(before.raids, player, now);
    }

    /** smear. */
    method Smear(victim: string, now: int, rules: Rules)
      modifies this
      ensures state == Smeared(old(state), victim, now, rules)
    {
      if rules.smearedSeconds > 0 {
        state := state.(smeared := state.smeared[victim := now + rules.smearedSeconds]);
      }
    }

    method GoOff(thrower: string, victim: string, site: Whereabouts, rules: Rules)
      modifies this
      ensures state == Bombed(old(state), thrower, victim, site, rules)
    {
      hide BlownUp; hide Roll; hide Rolled;
      var dud := Try(rules.bombDudPercent);
      if dud {
        BlowUp(thrower, true);
      } else {
        BlowUp(victim, site == AtPlace);
      }
    }

    /** land. */
    method Land(thrown: string, thrower: string, victim: string, site: Whereabouts, walked: nat, now: int, rules: Rules)
      modifies this
      ensures state == Landed(old(state), thrown, thrower, victim, site, walked, now, rules)
    {
      hide PowerOf; hide StartedOver; hide Bombed; hide FreezeTime; hide Smeared;
      var power := PowerOf(thrown);
      if power == Some(Poo) {
        Smear(victim, now, rules);
      } else if power == Some(Bomb) {
        GoOff(thrower, victim, site, rules);
      } else if power == Some(Nuke) {
        StartOver(victim, walked, now);
      } else if power == Some(Seed) {
        state := state.(pregnancies := state.pregnancies + [Pregnancy(victim, thrower, now + Max(rules.pregnancySeconds, 0))]);
      } else if power == Some(Ice) {
        var froze := FreezeTime(state, victim, rules);
        if froze > 0 {
          state := state.(frozen := state.frozen[victim := now + froze]);
        }
      }
    }

    // -------------------------------------------------------------- at the house

    /** balloon_attempt. */
    method AttemptBalloon(player: string, site: Whereabouts, now: int) returns (roll: BalloonRoll)
      modifies this
      ensures roll == Attempt(old(state), player, site, now)
      ensures state == Attempted(old(state), player, site, now)
    {
      hide BalloonThere; hide Roll; hide Rolled;
      if !BalloonThere(state, player, site, now) {
        return NoBalloon;
      }
      var attempt := Counter(state.balloons, player) + 1;
      var drawn := RandomIndex(4);
      if drawn < attempt {
        state := state.(balloons := state.balloons - {player});
        return Popped;
      }
      state := state.(balloons := state.balloons[player := attempt]);
      return Held;
    }

    /** sneaks. */
    method Sneak(raid: Raid, rules: Rules, now: int) returns (sneaked: bool)
      modifies this
      ensures sneaked == Sneaks(old(state), raid, rules, now)
      ensures state == Tried(old(state), SneakChance(old(state), raid, rules, now))
    {
      hide BalloonThere; hide HouseCopies; hide CarriedCopies; hide Roll; hide Rolled; hide Share;
      sneaked := false;
      var guarded := BalloonThere(state, raid.target, AtHome, now) || HouseCopies(state, raid.target, Dog) > 0;
      var chance := Share(CarriedCopies(state, raid.raider, Ninja), rules.ninjaPercent);
      if !guarded || chance <= 0 {
        return;
      }
      var quiet := Max(0, chance - HouseCopies(state, raid.target, Alarm) * Max(rules.alarmPercent, 0));
      var drawn := RandomIndex(100);
      sneaked := drawn < quiet;
    }

    /** salt. */
    method PaySalt(raid: Raid, now: int, rules: Rules)
      modifies this
      ensures state == Salted(old(state), raid, now, rules)
    {
      hide Toll; hide HouseCopies; hide Share; hide Recent; hide Forgotten; hide Knocked;
      var share := SaltShare(state, raid, rules);
      var knocks := EraseLate(state.knocks, now);
      if share <= 0 || !Knocked(knocks, raid.raider, raid.target) {
        state := state.(knocks := knocks + [Knock(raid.raider, raid.target, now)]);
        return;
      }
      knocks := EraseSame(knocks, raid.raider, raid.target);
      var his := Max(Counter(state.scores, raid.raider), 0);
      var paid := Toll(Counter(state.scores, raid.raider), share);
      state := state.(knocks := knocks, scores := state.scores[raid.raider := his - paid]);
      state := state.(scores := state.scores[raid.target := Counter(state.scores, raid.target) + paid]);
    }

    /** The dino of the house, and what it may eat. */
    method Bite(raid: Raid, rules: Rules)
      modifies this
      ensures state == Bitten(old(state), raid, rules)
    {
      hide BlownUp; hide HouseCopies; hide Share; hide Roll;
      var bites := Try(Share(HouseCopies(state, raid.target, Dino), rules.dinoPercent));
      if bites {
        BlowUp(raid.raider, true);
      }
    }

    method FindBoardable(target: string) returns (there: seq<nat>)
      ensures there == Boardable(state, target, |HouseSlots(state, target)|)
    {
      hide CanBoard;
      var slots := HouseSlots(state, target);
      there := [];
      for slot := 0 to |slots|
        invariant there == Boardable(state, target, slot)
      {
        if CanBoard(state, target, slot) {
          there := there + [slot];
        }
      }
    }

    /** board. */
    method Board(raid: Raid, rules: Rules)
      modifies this
      ensures state == Boarded(old(state), raid, rules)
    {
      hide CarriedCopies; hide Share; hide Roll; hide Rolled; hide FreeSlot; hide Boardable; hide InHouse; hide PutOn; hide SlotsIn;
      var lucky := Try(Share(CarriedCopies(state, raid.raider, Pirate), rules.piratePercent));
      if !lucky {
        return;
      }
      var room := FindFree(GearSlots(state, raid.raider), CARRIED_LIMIT);
      if room.None? {
        return;
      }
      var there := FindBoardable(raid.target);
      if there == [] {
        return;
      }
      ghost var before := state;
      var drawn := RandomIndex(|there|);
      assert state.house == before.house;
      var emoji := At(state.house, raid.target, there[drawn]);
      SetInHouse(raid.target, there[drawn], "");
      var put := PutEmojiOn(raid.raider, emoji);
    }

    // -------------------------------------------------------------- one ride of the walk

    method SetLoot(ride: nat, loot: int)
      requires ride < |state.raids|
      modifies this
      ensures state == SetRide(old(state), ride, old(state).raids[ride].(loot := loot))
    {
      state := state.(raids := state.raids[ride := state.raids[ride].(loot := loot)]);
    }

    method PayOut(player: string, palle: int)
      modifies this
      ensures state == old(state).(scores := Debit(old(state).scores, player, palle))
    {
      if palle > 0 {
        state := state.(scores := state.scores[player := Counter(state.scores, player) - palle]);
      }
    }

    method PayIn(player: string, palle: int)
      modifies this
      ensures state == old(state).(scores := Credit(old(state).scores, player, palle))
    {
      if palle > 0 {
        state := state.(scores := state.scores[player := Counter(state.scores, player) + palle]);
      }
    }

    /** The loot goes from the target's palle onto the ride. */
    method Carry(ride: nat, loot: int)
      requires ride < |state.raids|
      modifies this
      ensures state == Carrying(old(state), ride, loot)
    {
      hide Debit;
      PayOut(state.raids[ride].target, loot);
      SetLoot(ride, loot);
    }

    /** A raid that got through. */
    method Rob(ride: nat, rules: Rules)
      requires ride < |state.raids|
      modifies this
      ensures state == Robbed(old(state), ride, rules)
    {
      hide Boarded; hide Loot; hide Carrying;
      var raid := state.raids[ride];
      Carry(ride, Loot(state, raid, rules));
      Board(raid, rules);
    }

    /** Who came to rob meets what guards the house. */
    method Raid(ride: nat, now: int, rules: Rules)
      requires ride < |state.raids|
      modifies this
      ensures state == Raided(old(state), ride, now, rules)
    {
      hide Sneaks; hide SneakChance; hide Attempt; hide Attempted; hide Robbed; hide PastBalloon; hide SetRide;
      var raid := state.raids[ride];
      var sneaked := Sneak(raid, rules, now);
      if sneaked {
        Rob(ride, rules);
        return;
      }
      var balloon := AttemptBalloon(raid.target, AtHome, now);
      if balloon == Held {
        SetLoot(ride, 0);
      } else {
        MeetDogs(ride, rules);
      }
    }

    /** The dogs guard the house whether he is in or out. */
    method MeetDogs(ride: nat, rules: Rules)
      requires ride < |state.raids|
      modifies this
      ensures state == PastBalloon(old(state), ride, rules)
    {
      hide Robbed; hide Share; hide HouseCopies; hide Roll; hide Rolled; hide SetRide;
      var caught := Try(Share(HouseCopies(state, state.raids[ride].target, Dog), rules.dogPercent));
      if caught {
        SetLoot(ride, 0);
      } else {
        Rob(ride, rules);
      }
    }

    /** A thrown emoji reaches the house, or comes back from its mailbox. */
    method Strike(ride: nat, now: int, rules: Rules)
      requires ride < |state.raids|
      modifies this
      ensures state == Struck(old(state), ride, now, rules)
    {
      hide Landed; hide Share; hide HouseCopies; hide Lucky; hide Tried;
      var raid := state.raids[ride];
      var sentBack := Try(Share(HouseCopies(state, raid.target, Mailbox), rules.mailboxPercent));
      if sentBack {
        Land(raid.giftEmoji, raid.raider, raid.raider, AtHome, ride, now, rules.(bombDudPercent := 0));
      } else {
        Land(raid.giftEmoji, raid.raider, raid.target, AtHome, ride, now, rules);
      }
      state := state.(raids := state.raids[ride := state.raids[ride].(giftEmoji := "")],
                      told := state.told + [Went(state.raids[ride].giftEmoji)]);
    }

    /** The palle somebody came to give. */
    method HandOver(ride: nat)
      requires ride < |state.raids|
      modifies this
      ensures state == Handed(old(state), ride)
    {
      var raid := state.raids[ride];
      if raid.gift > 0 {
        state := state.(scores := state.scores[raid.target := Counter(state.scores, raid.target) + raid.gift],
                        raids := state.raids[ride := raid.(gift := 0)]);
      }
    }

    /** An emoji that is to be kept: with nowhere to go, it stays with him. */
    method HandEmoji(ride: nat, limit: nat)
      requires ride < |state.raids|
      modifies this
      ensures var raid := old(state).raids[ride];
              state == match Received(old(state), raid.target, raid.giftEmoji, limit)
                       case Some(u) => SetRide(u, ride, raid.(giftEmoji := ""))
                       case None => old(state)
    {
      hide Received;
      var raid := state.raids[ride];
      var received := Receive(raid.target, raid.giftEmoji, limit);
      if received {
        state := state.(raids := state.raids[ride := raid.(giftEmoji := "")]);
      }
    }

    /** Who came to give hands it over. */
    method Deliver(ride: nat, now: int, rules: Rules)
      requires ride < |state.raids|
      modifies this
      ensures state == Delivered(old(state), ride, now, rules)
    {
      hide Handed; hide SetRide; hide Struck; hide Received; hide PowerOf; hide WhereIs;
      HandOver(ride);
      var raid := state.raids[ride];
      if raid.giftEmoji == "" {
        return;
      }
      var thrown := IsThrown(raid.giftEmoji) && !raid.intact;
      if thrown && IsPower(raid.giftEmoji, Seed) && WhereIs(state, raid.target) != AtHome {
        return;
      }
      if thrown {
        Strike(ride, now, rules);
      } else {
        HandEmoji(ride, rules.furnitureLimit);
      }
    }

    /** What a ride does when it gets there. */
    method Arrive(ride: nat, now: int, rules: Rules)
      requires ride < |state.raids|
      modifies this
      ensures state == Arrived(old(state), ride, now, rules)
    {
      hide Delivered; hide Salted; hide Bitten; hide Raided;
      var raid := state.raids[ride];
      if raid.arrived || now < raid.arrive {
        return;
      }
      state := state.(raids := state.raids[ride := raid.(arrived := true)]);
      if raid.gift == 0 && raid.giftEmoji == "" {
        PaySalt(raid, now, rules);
        Bite(raid, rules);
      }
      if raid.gift > 0 || raid.giftEmoji != "" {
        Deliver(ride, now, rules);
      } else {
        Raid(ride, now, rules);
      }
    }

    /** What a ride does when it is home. */
    method ComeHome(ride: nat, now: int)
      requires ride < |state.raids|
      modifies this
      ensures state == CameHome(old(state), ride, now)
    {
      hide Unpacked; hide Credit;
      var raid := state.raids[ride];
      if raid.arrived && now >= raid.back {
        Unpack(raid);
        PayIn(raid.raider, raid.loot + raid.gift);
        state := state.(told := state.told + [Returned(ride, raid.loot + raid.gift, raid.giftEmoji)]);
      }
    }

    method Unpack(raid: Raid)
      modifies this
      ensures state == Unpacked(old(state), raid)
    {
      hide TakenBack;
      if raid.giftEmoji != "" {
        TakeBack(raid.raider, raid.giftEmoji);
      }
    }

    /** erase_if: the rides that are over. */
    method EraseOver(now: int)
      modifies this
      ensures state == old(state).(raids := UnderWay(old(state).raids, now))
    {
      hide Due;
      var list := state.raids;
      var kept := [];
      for k := 0 to |list|
        invariant state == old(state) && list == state.raids && kept == UnderWay(list[..k], now)
      {
        assert list[..k + 1][..k] == list[..k];
        if !Due(list[k], now) {
          kept := kept + [list[k]];
        }
      }
      assert list[..|list|] == list;
      state := state.(raids := kept);
    }

    // -------------------------------------------------------------- before the walk

    /** wash. */
    method Wash(now: int)
      modifies this
      ensures state == Washed(old(state), now)
    {
      var clean := KeepUntil(state.smeared, now);
      var thawed := KeepUntil(state.frozen, now);
      state := state.(smeared := clean, frozen := thawed);
    }

    /** lay_eggs: first what each house lays, then everybody is paid. */
    method LayEggs(now: int, rules: Rules)
      modifies this
      ensures state == LaidEggs(old(state), now, rules)
    {
      hide Eggs; hide Total; hide Added;
      var minutes, perHen, laid := Minutes(state.eggsAt, now), 0, map[];
      if rules.henPerMinute > 0 && minutes > 0 {
        laid := FindEggs(state.house, rules.henPerMinute * minutes);
      }
      var scores, sum := AddEggs(state.scores, laid);
      state := state.(eggsAt := PaidUpTo(state.eggsAt, now, rules.henPerMinute), scores := scores, told := state.told + [Laid(sum)]);
    }

    /** One child of the list, in its slot. */
    method GrowOne(child: Child, now: int, rules: Rules)
      modifies this
      ensures state == ChildAged(old(state), child, now, rules)
    {
      hide Put; hide ChildEmoji; hide Age;
      var here, looks := At(state.house, child.owner, child.slot), ChildEmoji(child.male, Age(child, now, rules));
      if here != "" && here != looks {
        SetInHouse(child.owner, child.slot, looks);
        state := state.(told := state.told + [Went(here), Came(looks)]);
      }
    }

    /** The first loop of grow: who stays, who leaves. */
    method GrowUp(now: int, rules: Rules)
      modifies this
      ensures state == GrownFrom(old(state), 0, now, rules)
    {
      hide ChildAged; hide Family.Stays; hide Dropped;
      var k := 0;
      while k < |state.children|
        invariant k <= |state.children|
        invariant GrownFrom(state, k, now, rules) == GrownFrom(old(state), 0, now, rules)
        decreases |state.children| - k
      {
        var children := state.children;
        var stays := Family.Stays(state, children[k], now, rules);
        GrowOne(children[k], now, rules);
        if stays {
          k := k + 1;
        } else {
          state := state.(children := Dropped(children, k));
        }
      }
    }

    /** Her one chance. */
    method Court(k: nat, now: int, rules: Rules)
      requires k < |state.children|
      modifies this
      ensures state == Courted(old(state), k, now, rules)
    {
      hide Lucky; hide Tried;
      var girl := state.children[k];
      var lucky := Try(rules.matingPercent);
      var pregnancies := if lucky then state.pregnancies + [Pregnancy(girl.owner, "", now + Max(rules.pregnancySeconds, 0))]
                         else state.pregnancies;
      state := state.(children := state.children[k := girl.(courted := true)], pregnancies := pregnancies);
    }

    /** The second loop of grow: the girls and the boys. */
    method CourtAll(now: int, rules: Rules)
      modifies this
      ensures state == CourtedFrom(old(state), 0, now, rules)
    {
      hide Courted; hide Courts;
      var k := 0;
      while k < |state.children|
        invariant k <= |state.children|
        invariant CourtedFrom(state, k, now, rules) == CourtedFrom(old(state), 0, now, rules)
        decreases |state.children| - k
      {
        if Courts(state.children, state.children[k], now, rules) {
          Court(k, now, rules);
        }
        k := k + 1;
      }
    }

    method FindReplaceable(mother: string) returns (there: seq<nat>)
      ensures there == Replaceable(state, mother, |HouseSlots(state, mother)|)
    {
      hide CanReplace;
      there := [];
      for slot := 0 to |HouseSlots(state, mother)|
        invariant there == Replaceable(state, mother, slot)
      {
        if CanReplace(state, mother, slot) {
          there := there + [slot];
        }
      }
    }

    method Bear(mother: string, slot: nat, male: bool, now: int)
      modifies this
      ensures state == BornIn(old(state), mother, slot, male, now)
    {
      hide Put; hide ChildEmoji;
      var here := At(state.house, mother, slot);
      SetInHouse(mother, slot, ChildEmoji(male, 0));
      state := state.(children := state.children + [Child(mother, slot, male, now, false)],
                      told := state.told + [Went(here), Came(ChildEmoji(male, 0))]);
    }

    method GiveBirth(mother: string, now: int, rules: Rules)
      modifies this
      ensures state == Birth(old(state), mother, now, rules)
    {
      hide BornIn; hide FreeSlot; hide Replaceable; hide Roll; hide Rolled;
      var drawn := RandomIndex(2);
      var free := FindFree(HouseSlots(state, mother), rules.furnitureLimit);
      if free.Some? {
        Bear(mother, free.value, drawn == 0, now);
        return;
      }
      var others := FindReplaceable(mother);
      if others != [] {
        var at := RandomIndex(|others|);
        Bear(mother, others[at], drawn == 0, now);
      }
    }

    /** births. */
    method Births(now: int, rules: Rules)
      modifies this
      ensures state == BirthsFrom(old(state), 0, now, rules)
    {
      hide Birth; hide Dropped;
      var k := 0;
      while k < |state.pregnancies|
        invariant k <= |state.pregnancies|
        invariant BirthsFrom(state, k, now, rules) == BirthsFrom(old(state), 0, now, rules)
        decreases |state.pregnancies| - k
      {
        var pregnancies := state.pregnancies;
        if pregnancies[k].due > now {
          k := k + 1;
        } else {
          GiveBirth(pregnancies[k].mother, now, rules);
          state := state.(pregnancies := Dropped(pregnancies, k));
        }
      }
    }

    /** raid_due. */
    method RaidDue(now: int, rules: Rules)
      modifies this
      ensures state == Round(old(state), now, rules)
    {
      hide Washed; hide LaidEggs; hide GrownFrom; hide CourtedFrom; hide BirthsFrom; hide Arrived; hide CameHome; hide UnderWay;
      Wash(now);
      LayEggs(now, rules);
      GrowUp(now, rules);
      CourtAll(now, rules);
      Births(now, rules);
      ghost var before := state;
      for ride := 0 to |state.raids|
        invariant |state.raids| == |before.raids|
        invariant ride <= |state.raids| && Walk(state, ride, now, rules) == Walk(before, 0, now, rules)
      {
        Arrive(ride, now, rules);
        ComeHome(ride, now);
      }
      EraseOver(now);
    }

    // -------------------------------------------------------------- the hold

    /** settle_hold. What cannot be counted abandons the transaction. */
    method SettleHold(hold: Holder, now: int) returns (saved: bool)
      modifies this
      ensures saved <==> SettledHold(old(state), hold, now).Done?
      ensures saved ==> state == SettledHold(old(state), hold, now).value
    {
      hide Earned;
      var earned := Earned(hold, now);
      if earned.Abandoned? {
        return false;
      }
      var pay, score := earned.value + hold.banked, Counter(state.scores, hold.username);
      if score > 0 && pay > MOST - score {
        return false;
      }
      state := state.(scores := state.scores[hold.username := score + pay], told := state.told + [Paid(hold.username, pay)]);
      return true;
    }

    /** leave_place. */
    method LeavePlace(now: int) returns (saved: bool)
      modifies this
      ensures saved <==> LeftPlace(old(state), now).Done?
      ensures saved ==> state == LeftPlace(old(state), now).value
    {
      hide SettledHold;
      if state.current.None? {
        return true;
      }
      var holder := state.current.value;
      state := state.(current := None);
      saved := SettleHold(holder, now);
    }

    /** go_home. */
    method GoHome(player: string, now: int) returns (saved: bool)
      modifies this
      ensures saved <==> GoneHome(old(state), player, now).Done?
      ensures saved ==> state == GoneHome(old(state), player, now).value
    {
      hide LeftPlace; hide WhereIs;
      saved := true;
      if WhereIs(state, player) == AtPlace {
        saved := LeavePlace(now);
      }
    }

    /** lose_bolts. */
    method LoseBolts(now: int) returns (saved: bool)
      modifies this
      ensures saved <==> LostBolts(old(state), now).Done?
      ensures saved ==> state == LostBolts(old(state), now).value
    {
      hide LosingBolts; hide CarriedCopies;
      if state.current.None? {
        return true;
      }
      var left := CarriedCopies(state, state.current.value.username, Bolt);
      var hold := PutAside(state.current.value, left, now);
      saved := hold.Done?;
      if saved {
        state := state.(current := Some(hold.value));
      }
    }

    // -------------------------------------------------------------- coming for the place

    /** The loop of lobsters_copying. */
    method FindLobsters(player: string, kicked: string) returns (copied: map<nat, string>)
      ensures copied == LobstersCopying(state.gear, player, kicked)
    {
      hide IsLobster;
      var mine, theirs := GearSlots(state, player), GearSlots(state, kicked);
      copied := map[];
      for slot := 0 to Min(|mine|, |theirs|)
        invariant copied == map k: nat | k < slot && IsLobster(mine[k]) && theirs[k] != "" && !IsLobster(theirs[k]) :: theirs[k]
      {
        if IsLobster(mine[slot]) && theirs[slot] != "" && !IsLobster(theirs[slot]) {
          copied := copied[slot := theirs[slot]];
        }
      }
    }

    /** He is in, on the bolts he shows as he comes. */
    method MoveIn(userId: int, player: string, kicked: string, now: int, rules: ClaimRules)
      modifies this
      ensures state == MovedIn(old(state), userId, player, kicked, now, rules)
    {
      hide LobstersCopying; hide ShownGear;
      var lobsters := map[];
      if kicked != "" {
        lobsters := FindLobsters(player, kicked);
      }
      var hold := Holder(userId, player, now, 0, 0, 0, 0, lobsters);
      var bolts := CountSlots(ShownGear(Some(hold), state.gear, player), Bolt);
      if bolts > 0 && rules.lightning > 0 {
        hold := hold.(percent := 100 + bolts * rules.lightning, bolts := bolts);
      }
      state := state.(current := Some(hold), entered := if player in state.joined then state.entered[player := 1] else state.entered);
    }

    /** What guards the holder, and what is left of it. */
    method PassBalloon(player: string, holder: string, now: int, rules: ClaimRules) returns (stopped: bool)
      modifies this
      ensures stopped == IsStopped(old(state), player, holder, now, rules)
      ensures state == AfterBalloon(old(state), player, holder, now, rules)
    {
      hide FirstEntry; hide BalloonThere; hide Attempt; hide Attempted; hide Stealth; hide Roll; hide Rolled;
      stopped := false;
      var first := FirstEntry(state, player, now);
      var sneaked := false;
      if TriesToSneak(state, player, holder, now, rules) {
        var stealth := Stealth(state, player, rules);
        var drawn := RandomIndex(100);
        sneaked := drawn < stealth;
      }
      if !sneaked && !first {
        var balloon := AttemptBalloon(holder, AtPlace, now);
        if balloon == Held {
          stopped := true;
        } else {
          state := state.(balloons := state.balloons - {holder});
        }
      }
    }

    /** conquister_claim. */
    method Claim(userId: int, player: string, now: int, rules: ClaimRules) returns (answer: ClaimStatus, saved: bool)
      modifies this
      ensures saved <==> Claims.Claim(old(state), userId, player, now, rules).Done?
      ensures saved ==> state == Claims.Claim(old(state), userId, player, now, rules).value
      ensures answer == ClaimAnswer(old(state), userId, player, now, rules)
    {
      hide Remembered; hide FrozenFor; hide HoldsPlace; hide IsStopped; hide AfterBalloon; hide Penalty; hide SettledHold; hide MovedIn;
      saved := true;
      var away := SentAway(state, player, now);
      state := state.(names := Remembered(state.names, player, userId));
      if away == Some(Travelling) || away == Some(Cooldown) {
        return away.value, true;
      }
      state := state.(cooldowns := state.cooldowns - {player});
      if away.Some? {
        return away.value, true;
      }
      if state.current.Some? && state.current.value.username != "" {
        answer, saved := Meet(userId, player, now, rules);
      } else {
        answer := ClaimStatus.Taken;
        MoveIn(userId, player, "", now, rules);
      }
    }

    method Meet(userId: int, player: string, now: int, rules: ClaimRules) returns (answer: ClaimStatus, saved: bool)
      requires state.current.Some?
      modifies this
      ensures saved <==> Met(old(state), userId, player, now, rules).Done?
      ensures saved ==> state == Met(old(state), userId, player, now, rules).value
      ensures answer == if IsStopped(old(state), player, old(state).current.value.username, now, rules) then Defended else ClaimStatus.Taken
    {
      hide IsStopped; hide AfterBalloon; hide Penalty; hide SettledHold; hide MovedIn;
      var holder := state.current.value.username;
      var stopped := PassBalloon(player, holder, now, rules);
      if stopped {
        var wait := Penalty(state, player, rules);
        if wait > 0 {
          state := state.(cooldowns := state.cooldowns[player := now + wait]);
        }
        return Defended, true;
      }
      answer := ClaimStatus.Taken;
      saved := SettleHold(state.current.value, now);
      if saved {
        MoveIn(userId, player, holder, now, rules);
      }
    }

    // -------------------------------------------------------------- setting off

    /** player_id: drawn until it is nobody's. Draws that run out abandon the transaction. */
    method MapPlayer(player: string) returns (saved: bool)
      modifies this
      ensures saved <==> OnMap(old(state), player).Done?
      ensures saved ==> state == OnMap(old(state), player).value
    {
      if player in state.ids {
        return true;
      }
      var draw := DrawFree(state.ids, state.luck);
      saved := draw.Some?;
      if saved {
        state := state.(ids := state.ids[player := state.luck[draw.value] % Position.IDS], luck := state.luck[draw.value + 1..]);
      }
    }

    /** The first slot of the house that holds an emoji he can part with: slot_holding. */
    method FindInHouse(player: string, emoji: string) returns (slot: Option<nat>)
      ensures slot == HouseLike(state, player, emoji, 0)
    {
      hide CanPart;
      var at := 0;
      while at < |HouseSlots(state, player)|
        invariant HouseLike(state, player, emoji, at) == HouseLike(state, player, emoji, 0)
      {
        if CanPart(state, player, at, emoji) {
          return Some(at);
        }
        at := at + 1;
      }
      return None;
    }

    /** Where he has it: on him before the house. */
    method Find(player: string, emoji: string) returns (found: Found)
      ensures found == Finding(state, player, emoji)
    {
      hide FirstLike; hide HouseLike;
      var on := FindLike(GearSlots(state, player), emoji);
      if on.Some? {
        return Found.Carried(on.value);
      }
      var kept := FindInHouse(player, emoji);
      found := if kept.Some? then Kept(kept.value) else Nowhere;
    }

    /** take_emoji. */
    method TakeEmoji(player: string, emoji: string)
      modifies this
      ensures state == TakenFrom(old(state), player, emoji)
    {
      hide Finding; hide OnHim; hide InHouse;
      var found := Find(player, emoji);
      match found
      case Carried(slot) => SetOnHim(player, slot, "");
      case Kept(slot) => SetInHouse(player, slot, "");
      case Nowhere =>
    }

    /** Naming yourself is the way home. */
    method HeadHome(player: string, now: int) returns (saved: bool)
      modifies this
      ensures saved <==> Homewards(old(state), player, now).Done?
      ensures saved ==> state == Homewards(old(state), player, now).value
    {
      hide GoneHome; hide RideOf; hide Turned; hide SetRide;
      var ride := RideOf(state.raids, player);
      if ride.None? {
        saved := GoHome(player, now);
        return;
      }
      TurnBack(ride.value, now);
      saved := true;
    }

    /** What is left is the road already walked. */
    method TurnBack(ride: nat, now: int)
      requires ride < |state.raids|
      modifies this
      ensures state == SetRide(old(state), ride, Turned(old(state).raids[ride], now))
    {
      var raid := state.raids[ride];
      var leg := raid.back - raid.arrive;
      var left := if now < raid.arrive then Max(now - (raid.arrive - leg), 0) else Max(raid.back - now, 0);
      state := state.(raids := state.raids[ride := raid.(arrived := true, back := now + left)]);
    }

    method Leave(player: string, target: string, load: Load, now: int, rules: Rules) returns (saved: bool)
      modifies this
      ensures saved <==> SetOff(old(state), player, target, load, now, rules).Done?
      ensures saved ==> state == SetOff(old(state), player, target, load, now, rules).value
    {
      hide OnMap; hide TakenFrom; hide OnTheWay;
      if load.emoji != "" {
        TakeEmoji(player, load.emoji);
      }
      saved := MapPlayer(player);
      if saved {
        saved := MapPlayer(target);
      }
      if saved {
        state := state.(raids := state.raids + [OnTheWay(state, player, target, load, now, rules)]);
      }
    }

    /** raid_start. */
    method RaidStart(userId: int, player: string, known: Option<string>, homewards: bool, load: Load, now: int, rules: Rules)
      returns (answer: RaidStatus, saved: bool)
      modifies this
      ensures answer == RaidAnswer(old(state), player, known, homewards, load, now, rules)
      ensures saved <==> Journeys.RaidStart(old(state), userId, player, known, homewards, load, now, rules).Done?
      ensures saved ==> state == Journeys.RaidStart(old(state), userId, player, known, homewards, load, now, rules).value
    {
      hide Remembered; hide RaidAnswer; hide Homewards; hide SetOff; hide PickedUp;
      answer := RaidAnswer(state, player, known, homewards, load, now, rules);
      state := state.(names := Remembered(state.names, player, userId));
      if homewards {
        saved := HeadHome(player, now);
        return;
      }
      saved := true;
      if answer == Started || IsLate(answer) {
        PickUp(player, load.gift);
      }
      if answer == Started {
        saved := Leave(player, known.value, load, now, rules);
      }
    }

    method PickUp(player: string, gift: int)
      modifies this
      ensures state == PickedUp(old(state), player, gift)
    {
      if gift != 0 {
        state := state.(scores := state.scores[player := Counter(state.scores, player) - gift]);
      }
    }

    // -------------------------------------------------------------- at home

    /** furniture_buy. */
    method Buy(player: string, emoji: string, position: int, cost: int, limit: nat, now: int, inflation: int)
      returns (answer: FurnitureStatus, saved: bool)
      modifies this
      ensures saved <==> Household.Buy(old(state), player, emoji, position, cost, limit, now, inflation).Done?
      ensures saved ==> state == Household.Buy(old(state), player, emoji, position, cost, limit, now, inflation).value
      ensures saved ==> answer == BuyAnswer(GoneHome(old(state), player, now).value, player, emoji, position, cost, limit, inflation)
    {
      hide GoneHome; hide SpotFor; hide WhereIs; hide Stock; hide Inflated; hide Plain; hide Paying;
      answer := NotHome;
      saved := GoHome(player, now);
      if !saved || WhereIs(state, player) != AtHome {
        return;
      }
      var spot := SpotFor(state, player, emoji, position, limit);
      if spot.Refused? {
        return spot.why, true;
      }
      var wanted := Plain(emoji);
      var inHouses := CountCopies(state.house, wanted);
      var onPlayers := CountCopies(state.gear, wanted);
      var carried := CountGifts(state.raids, wanted);
      assert inHouses + onPlayers + carried == Stock(state.house, state.gear, state.raids, 0, 0, wanted) by {
        StockIs(state.house, state.gear, state.raids, wanted);
      }
      var charged := Inflate(cost, inHouses + onPlayers + carried, inflation);
      if Counter(state.scores, player) < charged {
        return FurnitureStatus.InsufficientScore, true;
      }
      answer := Bought;
      Pay(player, spot, emoji, charged);
    }

    method Pay(player: string, spot: Spot, emoji: string, price: int)
      requires !spot.Refused?
      modifies this
      ensures state == Paying(old(state), player, spot, emoji, price)
    {
      hide OnHim; hide InHouse; hide At;
      var replaced := Replaced(state, player, spot);
      if spot.ToWear? {
        SetOnHim(player, spot.slot, emoji);
      } else {
        SetInHouse(player, spot.slot, emoji);
      }
      state := state.(scores := state.scores[player := Counter(state.scores, player) - price],
                      told := state.told + [Spent(player, price)] + [Went(replaced)] + [Came(emoji)]);
    }

    /** The emoji change places, and a child moves with its own. */
    method Swap(player: string, from: nat, to: nat)
      requires from < |HouseSlots(state, player)|
      modifies this
      ensures state == Rearranged(old(state), player, from, to)
    {
      hide Hung; hide ChildSlot;
      var slots := Grown(HouseSlots(state, player), to + 1);
      var children := state.children;
      for k := 0 to |children|
        invariant |children| == |state.children|
        invariant forall j | 0 <= j < k :: children[j] == ChildSlot(state.children[j], player, from, to)
        invariant forall j | k <= j < |children| :: children[j] == state.children[j]
      {
        children := children[k := ChildSlot(children[k], player, from, to)];
      }
      assert children == ChildrenMoved(state.children, player, from, to);
      state := state.(children := children);
      Hang(player, slots[from := slots[to]][to := slots[from]]);
    }

    /** furniture_move. */
    method Move(player: string, from: int, to: int, limit: nat, now: int) returns (saved: bool)
      modifies this
      ensures saved <==> Household.Move(old(state), player, from, to, limit, now).Done?
      ensures saved ==> state == Household.Move(old(state), player, from, to, limit, now).value
    {
      hide GoneHome; hide WhereIs; hide Rearranged; hide At;
      if !IsSlot(from, limit) || !IsSlot(to, limit) || from == to {
        return true;
      }
      saved := GoHome(player, now);
      if saved && MoveAnswer(state, player, from, to, limit) == Moved {
        Swap(player, from - 1, to - 1);
      }
    }

    /** An emoji of the house and what is on him change places. */
    method Exchange(player: string, from: nat, to: nat)
      modifies this
      ensures state == PutAcross(old(state), player, from, to)
    {
      hide Put; hide At;
      var kept, worn := At(state.house, player, from), At(state.gear, player, to);
      SetInHouse(player, from, worn);
      SetOnHim(player, to, kept);
    }

    /** gear_take. */
    method Take(player: string, emoji: string, swap: string, now: int) returns (answer: GearStatus, saved: bool)
      modifies this
      ensures saved <==> Household.Take(old(state), player, emoji, swap, now).Done?
      ensures saved ==> state == Household.Take(old(state), player, emoji, swap, now).value
      ensures saved ==> answer == TakeAnswer(GoneHome(old(state), player, now).value, player, emoji, swap)
    {
      hide GoneHome; hide TakeAnswer; hide HouseLike; hide RoomOnHim; hide PutAcross;
      answer := NotAtHome;
      saved := GoHome(player, now);
      if saved {
        answer := TakeAnswer(state, player, emoji, swap);
        if answer == GearStatus.Taken {
          TakeHas(state, player, emoji, swap);
          var from := FindInHouse(player, emoji);
          Exchange(player, from.value, RoomOnHim(state, player, swap).value);
        }
      }
    }

    /** gear_store. */
    method Store(player: string, emoji: string, limit: nat, now: int) returns (answer: GearStatus, saved: bool)
      modifies this
      ensures saved <==> Household.Store(old(state), player, emoji, limit, now).Done?
      ensures saved ==> state == Household.Store(old(state), player, emoji, limit, now).value
      ensures saved ==> answer == StoreAnswer(GoneHome(old(state), player, now).value, player, emoji, limit)
    {
      hide GoneHome; hide WhereIs; hide FirstLike; hide FreeSlot; hide PutAcross;
      answer := NotAtHome;
      saved := GoHome(player, now);
      if saved {
        answer := StoreAnswer(state, player, emoji, limit);
        if answer == Stored {
          var from := FindLike(GearSlots(state, player), emoji);
          var to := FindFree(HouseSlots(state, player), limit);
          Exchange(player, to.value, from.value);
        }
      }
    }

    // -------------------------------------------------------------- back to the place

    /** The whole game starts over. */
    method StartAgain()
      modifies this
      ensures state == StartedAgain(old(state))
    {
      hide KnownPlayers;
      var players := KnownPlayers(state);
      var over := Over(state.scores, state.house, state.gear, state.raids, players);
      var scores := ZeroAll(state.scores);
      state := state.(current := None, scores := scores, house := map[], gear := Welcomed(players), raids := [],
                      balloons := map[], cooldowns := map[], smeared := map[], frozen := map[], pregnancies := [],
                      children := [], knocks := [], told := state.told + [over]);
    }

    /** The first of his children that looks like that. */
    method FindChild(player: string, emoji: string) returns (child: Option<nat>)
      ensures child == FirstChildLike(state, player, emoji, 0)
    {
      hide SameEmoji;
      var at := 0;
      while at < |state.children|
        invariant FirstChildLike(state, player, emoji, at) == FirstChildLike(state, player, emoji, 0)
      {
        var kid := state.children[at];
        if kid.owner == player && kid.slot < |HouseSlots(state, player)| && SameEmoji(HouseSlots(state, player)[kid.slot], emoji) {
          return Some(at);
        }
        at := at + 1;
      }
      return None;
    }

    method BurnChild(child: nat)
      requires child < |state.children|
      modifies this
      ensures state == BurntChild(old(state), child)
    {
      hide Put; hide At;
      var kid := state.children[child];
      var here := At(state.house, kid.owner, kid.slot);
      SetInHouse(kid.owner, kid.slot, "");
      state := state.(children := Dropped(state.children, child), told := state.told + [Went(here)]);
    }

    method GiveUp(player: string, emoji: string)
      modifies this
      ensures state == Gone(old(state), player, emoji)
    {
      hide Finding; hide TakenFrom; hide At;
      var found := Find(player, emoji);
      var content := Content(state, player, found);
      TakeEmoji(player, emoji);
      state := state.(told := state.told + [Went(content)]);
    }

    /** furniture_burn. */
    method Burn(player: string, emoji: string, now: int, rules: Rules, destroy: bool) returns (answer: BurnStatus, saved: bool)
      modifies this
      ensures answer == BurnAnswer(old(state), player, emoji, destroy)
      ensures saved <==> Burning.Burn(old(state), player, emoji, now, rules, destroy).Done?
      ensures saved ==> state == Burning.Burn(old(state), player, emoji, now, rules, destroy).value
    {
      hide RideOf; hide Finding; hide FirstChildLike; hide BurntChild; hide Gone; hide LostBolts; hide StartedAgain; hide PowerOf;
      hide Landed;
      saved := true;
      answer := BurnAnswer(state, player, emoji, destroy);
      if answer != Burned {
        return;
      }
      var found := Find(player, emoji);
      if found == Nowhere {
        var child := FindChild(player, emoji);
        if child.Some? {
          BurnChild(child.value);
        }
        return;
      }
      GiveUp(player, emoji);
      if !destroy && IsPower(emoji, Nuke) {
        StartAgain();
        return;
      }
      if !destroy && LandsOnHolder(state, player, emoji) {
        Land(emoji, player, state.current.value.username, AtPlace, 0, now, rules);
      }
      saved := LoseBolts(now);
    }

    /** palle_burn. */
    method BurnPalle(player: string, amount: int)
      modifies this
      ensures state == Burning.BurnPalle(old(state), player, amount)
    {
      hide RideOf;
      var score := Counter(state.scores, player);
      if RideOf(state.raids, player).Some? || amount <= 0 || amount > score {
        return;
      }
      state := state.(scores := state.scores[player := score - amount], told := state.told + [Spent(player, amount)]);
    }

    // -------------------------------------------------------------- who is who

    /** welcome. */
    method Welcome(player: string, limit: nat)
      modifies this
      ensures state == Greeted(old(state), player, limit)
    {
      hide HasBalloon; hide PutOn; hide PutInHouse;
      if Counter(state.welcomed, player) != 0 {
        return;
      }
      state := state.(welcomed := state.welcomed[player := 1]);
      if HasBalloon(state, player) || limit == 0 {
        return;
      }
      var handed := PutEmojiOn(player, BALLOON);
      if !handed {
        handed := PutEmojiInHouse(player, BALLOON, limit);
      }
      if handed {
        state := state.(told := state.told + [Came(BALLOON)]);
      }
    }

    /** player_seen. */
    method Speak(userId: int, username: string, account: string, candidate: Option<string>, limit: nat, now: int, today: int)
      returns (key: string)
      modifies this
      ensures state == Seen(old(state), userId, username, account, candidate, limit, now, today)
      ensures key == BoundTo(old(state), PlatformKey(userId, username, account), candidate)[PlatformKey(userId, username, account)]
    {
      hide PlatformKey; hide BoundTo; hide Called; hide FirstSeen; hide Greeted; hide DayCounted;
      var mine := PlatformKey(userId, username, account);
      key := BindTo(mine, candidate);
      Call(key, userId, username);
      state := FirstSeen(state, key, now);
      Welcome(key, limit);
      state := DayCounted(state, key, now, today);
    }

    /** Whoever speaks is bound to a player, if he is not already. */
    method BindTo(mine: string, candidate: Option<string>) returns (key: string)
      modifies this
      ensures state == old(state).(names := old(state).names.(accounts := BoundTo(old(state), mine, candidate)))
      ensures key == BoundTo(old(state), mine, candidate)[mine]
    {
      hide LegacyOwner;
      if mine !in state.names.accounts {
        var owner := LegacyOwner(state, mine, candidate);
        var bound := if owner.Some? then owner.value else mine;
        state := state.(names := state.names.(accounts := state.names.accounts[mine := bound]));
      }
      key := state.names.accounts[mine];
    }

    /** The name he goes by is his alone from now on. */
    method Call(key: string, userId: int, username: string)
      modifies this
      ensures state == old(state).(names := Called(old(state).names, key, userId, username))
    {
      hide Remembered; hide NamesOfOthers; hide Lower;
      var names := state.names;
      if userId != 0 {
        var others := EraseNames(names.telegramNames, key);
        names := names.(telegramNames := others[Lower(username) := key]);
      } else {
        var others := EraseNames(names.ircNicks, key);
        names := names.(ircNicks := others[Lower(username) := key]);
      }
      if userId != 0 || Counter(names.telegramIds, key) == 0 {
        names := names.(displayNames := names.displayNames[key := username]);
      }
      state := state.(names := Remembered(names, key, userId));
    }

    /** player_link. */
    method Link(mine: string, userId: int, other: Option<string>) returns (answer: LinkStatus, saved: bool)
      requires BoundOnce(state.names.accounts)
      modifies this
      ensures saved <==> Linking.Link(old(state), mine, userId, other).Done?
      ensures saved ==> state == Linking.Link(old(state), mine, userId, other).value
      ensures saved ==> answer == LinkAnswer(old(state), mine, userId, Named(old(state), userId, other))
    {
      hide BoundOnce; hide AnotherLinked; hide HasAssets; hide Asked; hide MadeOne; hide AccountOf;
      answer := UnknownAccount;
      if mine !in state.names.accounts {
        return answer, false;
      }
      var accounts := state.names.accounts;
      var theirs := None;
      if other.Some? {
        theirs := FindAccount(accounts, other.value, Theirs(userId));
      }
      assert theirs == Named(state, userId, other);
      if theirs.None? {
        return answer, true;
      }
      var myKey, otherKey := accounts[mine], accounts[theirs.value];
      if myKey == otherKey {
        return Self, true;
      }
      if theirs.value !in state.names.linkRequests || state.names.linkRequests[theirs.value] != mine {
        state := Asked(state, mine, theirs.value);
        return Pending, true;
      }
      var another := FindAnother(accounts, mine, theirs.value, userId);
      if another {
        return AlreadyLinked, true;
      }
      if HasAssets(state, myKey) && HasAssets(state, otherKey) {
        return Conflict, true;
      }
      state := MadeOne(state, mine, theirs.value);
      return Linked, true;
    }

    /** balloons_hand_out, over the players on file. */
    method HandOut(players: seq<string>, limit: nat)
      modifies this
      ensures state == HandedOut(old(state), players, limit)
    {
      hide Greeted;
      for k := 0 to |players|
        invariant state == HandedOut(old(state), players[..k], limit)
      {
        assert players[..k + 1][..k] == players[..k];
        Welcome(players[k], limit);
      }
      assert players[..|players|] == players;
    }

    // -------------------------------------------------------------- quotes

    /** quote_add. */
    method AddQuote(player: string, quote: string, cost: int) returns (answer: QuoteStatus, saved: bool)
      modifies this
      ensures answer == Quoting.AddAnswer(old(state), player, quote, cost)
      ensures saved <==> Quoting.AddQuote(old(state), player, quote, cost).Done?
      ensures saved ==> state == Quoting.AddQuote(old(state), player, quote, cost).value
    {
      var score := Counter(state.scores, player);
      if score < cost {
        return TooPoor, true;
      }
      if quote in state.quotes.kept {
        return Duplicate, true;
      }
      answer := QuoteAdded;
      var added := Counter(state.quotes.added, player);
      saved := added != MOST;
      if saved {
        state := state.(quotes := Quotes(state.quotes.kept + [quote], state.quotes.added[player := added + 1],
                                         state.quotes.authors[quote := player]),
                        scores := state.scores[player := score - cost], told := state.told + [Spent(player, cost)]);
      }
    }

    /** quote_delete. */
    method DeleteQuote(selector: string)
      modifies this
      ensures state == Quoting.DeleteQuote(old(state), selector)
    {
      hide Selected; hide WithoutQuote;
      var at := SelectKept(state.quotes.kept, selector);
      if at.Some? {
        var left := EraseQuote(state.quotes, at.value);
        state := state.(quotes := left);
      }
    }

    // -------------------------------------------------------------- invites

    /** invite_record. */
    method RecordInvite(newcomer: string, inviter: Option<string>, now: int)
      modifies this
      ensures state == Linking.RecordInvite(old(state), newcomer, inviter, now)
    {
      if newcomer !in state.joined || now - state.joined[newcomer] >= INVITE_WINDOW {
        return;
      }
      if newcomer in state.invites.invitedBy || inviter.None? || inviter.value == newcomer {
        return;
      }
      state := state.(invites := state.invites.(invitedBy := state.invites.invitedBy[newcomer := inviter.value]));
    }

    /** invite_due. */
    method InviteDue(newcomer: string, samePerson: bool)
      modifies this
      ensures state == Linking.InviteDue(old(state), newcomer, samePerson)
    {
      var invites := state.invites;
      if newcomer !in invites.invitedBy || newcomer in invites.paid || Counter(invites.days, newcomer) < DAYS_NEEDED {
        return;
      }
      if samePerson {
        state := state.(invites := invites.(paid := invites.paid[newcomer := -1]));
        return;
      }
      var broughtBy := invites.invitedBy[newcomer];
      state := state.(invites := invites.(paid := invites.paid[newcomer := 1]),
                      scores := state.scores[broughtBy := Counter(state.scores, broughtBy) + INVITER_REWARD]);
      state := state.(scores := state.scores[newcomer := Counter(state.scores, newcomer) + INVITED_REWARD],
                      told := state.told + [Rewarded(INVITER_REWARD + INVITED_REWARD)]);
    }
  }

  /** What is saved, one transaction after the other. */
  class Storage {
    var conquister: State

    /** A transaction works on a copy, which is saved if it ends well; what it abandons leaves everything as it was. */
    method Transaction(command: Command)
      requires Bound(conquister.names.accounts)
      modifies this
      ensures conquister == Next(old(conquister), command)
    {
      hide Bound; hide Made;
      var session := new StorageSession(conquister);
      var saved := true;
      if command.BeSeen? || command.LinkAccounts? {
        saved := Introduce(session, command);
      } else if IsPaperwork(command) {
        saved := DoPaperwork(session, command);
      } else {
        saved := Play(session, command);
      }
      if saved {
        conquister := session.state;
      }
    }

    static method Introduce(session: StorageSession, command: Command) returns (saved: bool)
      requires (command.BeSeen? || command.LinkAccounts?) && Bound(session.state.names.accounts)
      modifies session
      ensures saved <==> Made(old(session.state), command).Done?
      ensures saved ==> session.state == Made(old(session.state), command).value
    {
      hide Bound; hide Seen; hide Linking.Link; hide LinkAnswer; hide BoundTo; hide PlatformKey;
      assert BoundOnce(session.state.names.accounts) by { BoundIsOnce(session.state.names.accounts); }
      saved := true;
      match command {
        case BeSeen(userId, username, account, candidate, limit, now, today) =>
          var _ := session.Speak(userId, username, account, candidate, limit, now, today);
        case LinkAccounts(mine, userId, other) =>
          var _, done := session.Link(mine, userId, other);
          saved := done;
      }
    }

    /** What concerns invites, welcomes and quotes. */
    static predicate IsPaperwork(command: Command) {
      || command.RecordInvite? || command.SettleInvite? || command.HandOutBalloons? || command.AddQuote? || command.DeleteQuote?
    }

    static method DoPaperwork(session: StorageSession, command: Command) returns (saved: bool)
      requires IsPaperwork(command)
      modifies session
      ensures saved <==> Made(old(session.state), command).Done?
      ensures saved ==> session.state == Made(old(session.state), command).value
    {
      hide Linking.InviteDue; hide HandedOut; hide Quoting.AddQuote; hide Quoting.DeleteQuote; hide Linking.RecordInvite; hide AddAnswer;
      saved := true;
      match command {
        case RecordInvite(newcomer, inviter, now) =>
          session.RecordInvite(newcomer, inviter, now);
        case SettleInvite(newcomer, samePerson) =>
          session.InviteDue(newcomer, samePerson);
        case HandOutBalloons(players, limit) =>
          session.HandOut(players, limit);
        case AddQuote(player, quote, cost) =>
          var _, done := session.AddQuote(player, quote, cost);
          saved := done;
        case DeleteQuote(selector) =>
          session.DeleteQuote(selector);
      }
    }

    static method Play(session: StorageSession, command: Command) returns (saved: bool)
      requires !IsPaperwork(command) && !command.BeSeen? && !command.LinkAccounts?
      modifies session
      ensures saved <==> Made(old(session.state), command).Done?
      ensures saved ==> session.state == Made(old(session.state), command).value
    {
      hide Claims.Claim; hide Journeys.RaidStart; hide Household.Buy; hide Household.Move; hide Household.Take;
      hide Household.Store; hide Burning.Burn; hide Burning.BurnPalle; hide Family.Round;
      hide ClaimAnswer; hide RaidAnswer; hide BuyAnswer; hide TakeAnswer; hide StoreAnswer; hide BurnAnswer;
      saved := true;
      match command {
        case ClaimPlace(userId, player, now, claims) =>
          var _, done := session.Claim(userId, player, now, claims);
          saved := done;
        case StartRaid(userId, player, known, homewards, load, now, rules) =>
          var _, done := session.RaidStart(userId, player, known, homewards, load, now, rules);
          saved := done;
        case BuyEmoji(player, emoji, position, cost, limit, now, inflation) =>
          var _, done := session.Buy(player, emoji, position, cost, limit, now, inflation);
          saved := done;
        case MoveEmoji(player, from, to, limit, now) =>
          saved := session.Move(player, from, to, limit, now);
        case TakeGear(player, emoji, swap, now) =>
          var _, done := session.Take(player, emoji, swap, now);
          saved := done;
        case StoreGear(player, emoji, limit, now) =>
          var _, done := session.Store(player, emoji, limit, now);
          saved := done;
        case BurnEmoji(player, emoji, now, rules, destroy) =>
          var _, done := session.Burn(player, emoji, now, rules, destroy);
          saved := done;
        case DestroyPalle(player, amount) =>
          session.BurnPalle(player, amount);
        case KeepRound(now, rules) =>
          session.RaidDue(now, rules);
      }
    }
  }
}
