/** src/game.cpp: whatever happens in the game, what is stored for a player reads back as the slots it was written from. */
module Filing {
  import opened Basics
  import opened Text
  import opened Emoji
  import opened Slots
  import opened Powers
  import opened Ledger
  import opened Places
  import opened World
  import opened Laws
  import opened Rides
  import opened Family
  import opened Holds
  import opened Claims
  import opened Belongings
  import opened Journeys
  import opened Household
  import opened Burning
  import opened Naming
  import opened Linking
  import opened Runs
  import Neighbours
  import Quoting
  import Settling

  // ---------------------------------------------------------------- closed emoji everywhere

  ghost predicate Clean(place: Place) {
    forall player: string, slot: nat :: Fits(At(place, player, slot))
  }

  ghost predicate CleanHold(current: Option<Holder>) {
    current.Some? ==> forall slot | slot in current.value.lobsters :: Fits(current.value.lobsters[slot])
  }

  ghost predicate CleanRides(raids: seq<Raid>) {
    forall j | 0 <= j < |raids| :: Fits(raids[j].giftEmoji)
  }

  ghost predicate Filed(s: State) {
    Clean(s.house) && Clean(s.gear) && CleanHold(s.current) && CleanRides(s.raids)
  }

  /** An emoji of four bytes that neither sticks nor is a regional letter stands alone. */
  lemma FourBytesClosed(third: char, fourth: char)
    requires IsTail(third) && IsTail(fourth)
    requires var code := 0x1F000 + (third as int - 0x80) * 64 + (fourth as int - 0x80); !Sticks(code) && !IsRegional(code)
    ensures Closed(['\U{F0}', '\U{9F}', third, fourth])
  {
    hide FirstLetter; hide Complete;
    var emoji := ['\U{F0}', '\U{9F}', third, fourth];
    assert emoji + "" == emoji;
    Neighbours.FourBytesLetter(third, fourth, "");
    assert emoji[4..] == "" && Whole(emoji);
    assert Letters(emoji) == [FirstLetter(emoji)];
    assert Letters(emoji)[1..] == [];
  }

  lemma FacesFit()
    ensures Fits(BALLOON) && Fits("")
    ensures forall male: bool, age: int :: Fits(ChildEmoji(male, age))
  {
    hide Closed;
    FourBytesClosed('\U{8E}', '\U{88}');
    FourBytesClosed('\U{91}', '\U{B6}');
    FourBytesClosed('\U{91}', '\U{A6}');
    FourBytesClosed('\U{91}', '\U{A7}');
    FourBytesClosed('\U{91}', '\U{A8}');
    FourBytesClosed('\U{91}', '\U{A9}');
    FourBytesClosed('\U{91}', '\U{B4}');
    FourBytesClosed('\U{91}', '\U{B5}');
  }

  // ---------------------------------------------------------------- places

  lemma PutClean(place: Place, player: string, slot: nat, emoji: string)
    requires Clean(place) && Fits(emoji)
    ensures Clean(Put(place, player, slot, emoji))
  {
    hide Put; hide Fits;
    PutAt(place, player, slot, emoji);
  }

  lemma HungClean(place: Place, player: string, slots: seq<string>)
    requires Clean(place) && forall k | 0 <= k < |slots| :: Fits(slots[k])
    ensures Clean(Hung(place, player, slots))
  {
    hide Hung; hide Closed;
    HungAt(place, player, slots);
  }

  lemma ResetClean(place: Place, player: string)
    requires Clean(place)
    ensures Clean(place[player := [BALLOON]])
  {
    hide Fits;
    FacesFit();
    var after := place[player := [BALLOON]];
    forall q: string, k: nat
      ensures Fits(At(after, q, k))
    {
      assert q != player ==> At(after, q, k) == At(place, q, k);
    }
  }

  lemma DroppedClean(place: Place, player: string)
    requires Clean(place)
    ensures Clean(place - {player})
  {
    hide Fits;
    FacesFit();
    var after := place - {player};
    forall q: string, k: nat
      ensures Fits(At(after, q, k))
    {
      assert q != player ==> At(after, q, k) == At(place, q, k);
    }
  }

  /** What a deed leaves alone is as it was. */
  lemma FiledStays(s: State, t: State)
    requires Filed(s) && t.house == s.house && t.gear == s.gear && t.raids == s.raids
    requires t.current == s.current || t.current.None?
    ensures Filed(t)
  {
  }

  // ---------------------------------------------------------------- one slot

  lemma InHouseFiled(s: State, player: string, slot: nat, emoji: string)
    requires Filed(s) && Fits(emoji)
    ensures Filed(InHouse(s, player, slot, emoji))
  {
    hide Put; hide Fits; hide Clean; hide CleanHold; hide CleanRides;
    PutClean(s.house, player, slot, emoji);
  }

  lemma OnHimFiled(s: State, player: string, slot: nat, emoji: string)
    requires Filed(s) && Fits(emoji)
    ensures Filed(OnHim(s, player, slot, emoji))
  {
    hide Put; hide Fits; hide Clean; hide CleanHold; hide CleanRides;
    PutClean(s.gear, player, slot, emoji);
  }

  lemma PutOnFiled(s: State, player: string, emoji: string)
    requires Filed(s) && Fits(emoji)
    ensures PutOn(s, player, emoji).Some? ==> Filed(PutOn(s, player, emoji).value)
  {
    hide Filed; hide Fits; hide OnHim; hide FreeSlot;
    var slot := FreeSlot(GearSlots(s, player), CARRIED_LIMIT);
    if slot.Some? {
      OnHimFiled(s, player, slot.value, emoji);
    }
  }

  lemma PutInHouseFiled(s: State, player: string, emoji: string, limit: nat)
    requires Filed(s) && Fits(emoji)
    ensures PutInHouse(s, player, emoji, limit).Some? ==> Filed(PutInHouse(s, player, emoji, limit).value)
  {
    hide Filed; hide Fits; hide InHouse; hide FreeSlot;
    var slot := FreeSlot(HouseSlots(s, player), limit);
    if slot.Some? {
      InHouseFiled(s, player, slot.value, emoji);
    }
  }

  lemma ReceivedFiled(s: State, player: string, emoji: string, limit: nat)
    requires Filed(s) && Fits(emoji)
    ensures Received(s, player, emoji, limit).Some? ==> Filed(Received(s, player, emoji, limit).value)
  {
    hide Filed; hide Fits; hide PutOn; hide PutInHouse; hide WorksOnHim; hide WhereIs;
    PutOnFiled(s, player, emoji);
    PutInHouseFiled(s, player, emoji, limit);
  }

  lemma TakenBackFiled(s: State, player: string, emoji: string)
    requires Filed(s) && Fits(emoji)
    ensures Filed(TakenBack(s, player, emoji))
  {
    hide Filed; hide Fits; hide PutOn; hide InHouse;
    PutOnFiled(s, player, emoji);
    InHouseFiled(s, player, FirstEmpty(HouseSlots(s, player)), emoji);
  }

  // ---------------------------------------------------------------- what lands

  lemma BlownUpFiled(s: State, target: string, onHim: bool)
    requires Filed(s)
    ensures Filed(BlownUp(s, target, onHim))
  {
    hide Filed; hide Exposed; hide InHouse; hide OnHim; hide SlotsIn; hide Roll;
    var slots := if onHim then GearSlots(s, target) else HouseSlots(s, target);
    var there := Exposed(slots, |slots|);
    FacesFit();
    if there != [] {
      var hit := there[Roll(s, |there|)];
      InHouseFiled(s, target, hit, "");
      OnHimFiled(s, target, hit, "");
      var t := if onHim then OnHim(s, target, hit, "") else InHouse(s, target, hit, "");
      FiledStays(t, BlownUp(s, target, onHim));
    }
  }

  lemma EmptiedClean(raids: seq<Raid>, player: string, now: int)
    requires CleanRides(raids)
    ensures CleanRides(Emptied(raids, player, now))
  {
    hide Closed;
  }

  lemma StartedOverFiled(s: State, player: string, walked: nat, now: int)
    requires Filed(s)
    ensures Filed(StartedOver(s, player, walked, now))
  {
    hide StartedOver; hide Emptied; hide Hung; hide Clean; hide CleanRides; hide HoldsPlace; hide Elsewhere;
    Settling.StartedOverFields(s, player, walked, now);
    EmptiedClean(s.raids, player, now);
    HungClean(s.house, player, []);
    ResetClean(s.gear, player);
  }

  lemma BombedFiled(s: State, thrower: string, victim: string, site: Whereabouts, rules: Rules)
    requires Filed(s)
    ensures Filed(Bombed(s, thrower, victim, site, rules))
  {
    hide Filed; hide BlownUp; hide Lucky;
    FiledStays(s, Rolled(s));
    FiledStays(s, Tried(s, rules.bombDudPercent));
    BlownUpFiled(Rolled(s), thrower, true);
    BlownUpFiled(Tried(s, rules.bombDudPercent), victim, site == AtPlace);
  }

  lemma LandedFiled(s: State, thrown: string, thrower: string, victim: string, site: Whereabouts, walked: nat, now: int, rules: Rules)
    requires Filed(s)
    ensures Filed(Landed(s, thrown, thrower, victim, site, walked, now, rules))
  {
    hide Filed; hide PowerOf; hide Bombed; hide StartedOver; hide Smeared; hide Expecting; hide Rides.Frozen;
    BombedFiled(s, thrower, victim, site, rules);
    StartedOverFiled(s, victim, walked, now);
    FiledStays(s, Smeared(s, victim, now, rules));
    FiledStays(s, Expecting(s, thrower, victim, now, rules));
    FiledStays(s, Rides.Frozen(s, victim, now, rules));
  }

  // ---------------------------------------------------------------- a ride of the walk

  lemma SetRideFiled(s: State, ride: nat, raid: Raid)
    requires Filed(s) && ride < |s.raids| && Fits(raid.giftEmoji)
    ensures Filed(SetRide(s, ride, raid))
  {
    hide Fits; hide Clean; hide CleanHold;
  }

  lemma RideFits(s: State, ride: nat)
    requires Filed(s) && ride < |s.raids|
    ensures Fits(s.raids[ride].giftEmoji)
  {
    hide Fits;
  }

  lemma AtFits(s: State, player: string, slot: nat)
    requires Filed(s)
    ensures Fits(At(s.house, player, slot)) && Fits(At(s.gear, player, slot))
  {
    hide Fits;
  }

  lemma BittenFiled(s: State, raid: Raid, rules: Rules)
    requires Filed(s)
    ensures Filed(Bitten(s, raid, rules))
  {
    hide Filed; hide BlownUp; hide HouseCopies; hide Share; hide Rolled;
    var jaws := Share(HouseCopies(s, raid.target, Dino), rules.dinoPercent);
    FiledStays(s, Rolled(s));
    FiledStays(s, Tried(s, jaws));
    BlownUpFiled(Rolled(s), raid.raider, true);
  }

  lemma BoardedFiled(s: State, raid: Raid, rules: Rules)
    requires Filed(s)
    ensures Filed(Boarded(s, raid, rules))
  {
    hide Filed; hide CarriedCopies; hide Share; hide Boardable; hide PutOn; hide InHouse; hide FreeSlot; hide At; hide SlotsIn; hide Roll;
    var chance := Share(CarriedCopies(s, raid.raider, Pirate), rules.piratePercent);
    var t := Rolled(s);
    FacesFit();
    FiledStays(s, Tried(s, chance));
    FiledStays(s, t);
    var there := Boardable(t, raid.target, |HouseSlots(t, raid.target)|);
    if there != [] {
      var taken := there[Roll(t, |there|)];
      FiledStays(t, Rolled(t));
      InHouseFiled(Rolled(t), raid.target, taken, "");
      AtFits(t, raid.target, taken);
      PutOnFiled(InHouse(Rolled(t), raid.target, taken, ""), raid.raider, At(t.house, raid.target, taken));
    }
  }

  lemma RobbedFiled(s: State, ride: nat, rules: Rules)
    requires Filed(s) && ride < |s.raids|
    ensures Filed(Robbed(s, ride, rules))
  {
    hide Filed; hide Boarded; hide Loot; hide Debit;
    var loot := Loot(s, s.raids[ride], rules);
    RideFits(s, ride);
    SetRideFiled(s, ride, s.raids[ride].(loot := loot));
    FiledStays(SetRide(s, ride, s.raids[ride].(loot := loot)), Carrying(s, ride, loot));
    BoardedFiled(Carrying(s, ride, loot), s.raids[ride], rules);
  }

  lemma PastBalloonFiled(s: State, ride: nat, rules: Rules)
    requires Filed(s) && ride < |s.raids|
    ensures Filed(PastBalloon(s, ride, rules))
  {
    hide Filed; hide Robbed; hide SetRide; hide Share; hide HouseCopies; hide Lucky; hide Rolled; hide Fits;
    var t := Tried(s, Share(HouseCopies(s, s.raids[ride].target, Dog), rules.dogPercent));
    FiledStays(s, t);
    RideFits(t, ride);
    SetRideFiled(t, ride, t.raids[ride].(loot := 0));
    RobbedFiled(t, ride, rules);
  }

  lemma RaidedFiled(s: State, ride: nat, now: int, rules: Rules)
    requires Filed(s) && ride < |s.raids|
    ensures Filed(Raided(s, ride, now, rules))
  {
    hide Filed; hide Robbed; hide SetRide; hide Sneaks; hide SneakChance; hide Attempt; hide Attempted; hide PastBalloon; hide Tried;
    hide Fits;
    var raid := s.raids[ride];
    var t := Tried(s, SneakChance(s, raid, rules, now));
    FiledStays(s, t);
    RideFits(s, ride);
    RobbedFiled(t, ride, rules);
    var u := Attempted(t, raid.target, AtHome, now);
    FiledStays(t, u);
    SetRideFiled(u, ride, raid.(loot := 0));
    PastBalloonFiled(u, ride, rules);
  }

  lemma StruckFiled(s: State, ride: nat, now: int, rules: Rules)
    requires Filed(s) && ride < |s.raids|
    ensures Filed(Struck(s, ride, now, rules))
  {
    hide Filed; hide Landed; hide SetRide; hide Share; hide HouseCopies; hide SentBack; hide AsItIs; hide Tried;
    var raid := s.raids[ride];
    var t := Tried(s, Share(HouseCopies(s, raid.target, Mailbox), rules.mailboxPercent));
    FiledStays(s, t);
    var victim := if SentBack(s, raid, rules) then raid.raider else raid.target;
    var as' := if SentBack(s, raid, rules) then AsItIs(rules) else rules;
    LandedFiled(t, raid.giftEmoji, raid.raider, victim, AtHome, ride, now, as');
    var u := Landed(t, raid.giftEmoji, raid.raider, victim, AtHome, ride, now, as');
    FacesFit();
    SetRideFiled(u, ride, u.raids[ride].(giftEmoji := ""));
    FiledStays(SetRide(u, ride, u.raids[ride].(giftEmoji := "")), ThrownAway(u, ride));
  }

  lemma HandedFiled(s: State, ride: nat)
    requires Filed(s) && ride < |s.raids|
    ensures Filed(Handed(s, ride))
  {
    hide Filed; hide Fits;
    var raid := s.raids[ride];
    RideFits(s, ride);
    var t := WithScore(s, raid.target, Counter(s.scores, raid.target) + raid.gift);
    FiledStays(s, t);
    SetRideFiled(t, ride, raid.(gift := 0));
  }

  lemma DeliveredFiled(s: State, ride: nat, now: int, rules: Rules)
    requires Filed(s) && ride < |s.raids|
    ensures Filed(Delivered(s, ride, now, rules))
  {
    hide Filed; hide Handed; hide Struck; hide Received; hide PowerOf; hide WhereIs; hide SetRide;
    var t := Handed(s, ride);
    HandedFiled(s, ride);
    RideFits(t, ride);
    FacesFit();
    StruckFiled(t, ride, now, rules);
    var raid := t.raids[ride];
    ReceivedFiled(t, raid.target, raid.giftEmoji, rules.furnitureLimit);
    var u := Received(t, raid.target, raid.giftEmoji, rules.furnitureLimit);
    if u.Some? {
      SetRideFiled(u.value, ride, raid.(giftEmoji := ""));
    }
  }

  lemma ArrivedFiled(s: State, ride: nat, now: int, rules: Rules)
    requires Filed(s) && ride < |s.raids|
    ensures Filed(Arrived(s, ride, now, rules))
  {
    hide Filed; hide Delivered; hide Salted; hide Bitten; hide Raided; hide SetRide;
    var raid := s.raids[ride];
    RideFits(s, ride);
    var t := SetRide(s, ride, raid.(arrived := true));
    SetRideFiled(s, ride, raid.(arrived := true));
    DeliveredFiled(t, ride, now, rules);
    FiledStays(t, Salted(t, raid, now, rules));
    BittenFiled(Salted(t, raid, now, rules), raid, rules);
    RaidedFiled(t, ride, now, rules);
    RaidedFiled(Bitten(Salted(t, raid, now, rules), raid, rules), ride, now, rules);
  }

  lemma CameHomeFiled(s: State, ride: nat, now: int)
    requires Filed(s) && ride < |s.raids|
    ensures Filed(CameHome(s, ride, now))
  {
    hide Filed; hide TakenBack; hide Credit;
    var raid := s.raids[ride];
    RideFits(s, ride);
    TakenBackFiled(s, raid.raider, raid.giftEmoji);
    FiledStays(Unpacked(s, raid), Unpacked(s, raid).(scores := CameHome(s, ride, now).scores, told := CameHome(s, ride, now).told));
  }

  lemma {:induction false} WalkFiled(s: State, ride: nat, now: int, rules: Rules)
    requires Filed(s) && ride <= |s.raids|
    ensures Filed(Walk(s, ride, now, rules))
    decreases |s.raids| - ride
  {
    hide Filed; hide Arrived; hide CameHome;
    if ride < |s.raids| {
      ArrivedFiled(s, ride, now, rules);
      CameHomeFiled(Arrived(s, ride, now, rules), ride, now);
      WalkFiled(CameHome(Arrived(s, ride, now, rules), ride, now), ride + 1, now, rules);
    }
  }

  // ---------------------------------------------------------------- before the walk, and the round

  lemma ChildAgedFiled(s: State, child: Child, now: int, rules: Rules)
    requires Filed(s)
    ensures Filed(ChildAged(s, child, now, rules))
  {
    hide Clean; hide CleanHold; hide CleanRides; hide Put; hide ChildEmoji; hide Age; hide At; hide Fits;
    FacesFit();
    PutClean(s.house, child.owner, child.slot, ChildEmoji(child.male, Age(child, now, rules)));
  }

  lemma {:induction false} GrownFiled(s: State, k: nat, now: int, rules: Rules)
    requires Filed(s) && k <= |s.children|
    ensures Filed(GrownFrom(s, k, now, rules))
    decreases |s.children| - k
  {
    hide Filed; hide ChildAged; hide Family.Stays;
    if k < |s.children| {
      var t := ChildAged(s, s.children[k], now, rules);
      ChildAgedFiled(s, s.children[k], now, rules);
      if Family.Stays(s, s.children[k], now, rules) {
        GrownFiled(t, k + 1, now, rules);
      } else {
        FiledStays(t, t.(children := Dropped(s.children, k)));
        GrownFiled(t.(children := Dropped(s.children, k)), k, now, rules);
      }
    }
  }

  lemma {:induction false} CourtedFiled(s: State, k: nat, now: int, rules: Rules)
    requires Filed(s) && k <= |s.children|
    ensures Filed(CourtedFrom(s, k, now, rules))
    decreases |s.children| - k
  {
    hide Filed; hide Courted; hide Courts;
    if k < |s.children| {
      if Courts(s.children, s.children[k], now, rules) {
        FiledStays(s, Courted(s, k, now, rules));
        CourtedFiled(Courted(s, k, now, rules), k + 1, now, rules);
      } else {
        CourtedFiled(s, k + 1, now, rules);
      }
    }
  }

  lemma BornInFiled(s: State, mother: string, slot: nat, male: bool, now: int)
    requires Filed(s)
    ensures Filed(BornIn(s, mother, slot, male, now))
  {
    hide Clean; hide CleanHold; hide CleanRides; hide Put; hide ChildEmoji; hide At; hide Fits;
    FacesFit();
    PutClean(s.house, mother, slot, ChildEmoji(male, 0));
  }

  lemma BirthFiled(s: State, mother: string, now: int, rules: Rules)
    requires Filed(s)
    ensures Filed(Birth(s, mother, now, rules))
  {
    hide Filed; hide BornIn; hide FreeSlot; hide Replaceable; hide Rolled; hide SlotsIn;
    var t, male := Rolled(s), Roll(s, 2) == 0;
    FiledStays(s, t);
    FiledStays(t, Rolled(t));
    var free := FreeSlot(HouseSlots(t, mother), rules.furnitureLimit);
    var others := Replaceable(t, mother, |HouseSlots(t, mother)|);
    if free.Some? {
      BornInFiled(t, mother, free.value, male, now);
    } else if others != [] {
      BornInFiled(Rolled(t), mother, others[Roll(t, |others|)], male, now);
    }
  }

  lemma {:induction false} BirthsFiled(s: State, k: nat, now: int, rules: Rules)
    requires Filed(s) && k <= |s.pregnancies|
    ensures Filed(BirthsFrom(s, k, now, rules))
    decreases |s.pregnancies| - k
  {
    hide Filed; hide Birth;
    if k < |s.pregnancies| {
      if s.pregnancies[k].due > now {
        BirthsFiled(s, k + 1, now, rules);
      } else {
        var t := Birth(s, s.pregnancies[k].mother, now, rules);
        BirthFiled(s, s.pregnancies[k].mother, now, rules);
        FiledStays(t, t.(pregnancies := Dropped(s.pregnancies, k)));
        BirthsFiled(t.(pregnancies := Dropped(s.pregnancies, k)), k, now, rules);
      }
    }
  }

  lemma UnderWayFiled(s: State, now: int)
    requires Filed(s)
    ensures Filed(s.(raids := UnderWay(s.raids, now)))
  {
    hide Fits; hide Clean; hide CleanHold; hide Due;
    var kept := UnderWay(s.raids, now);
    forall j | 0 <= j < |kept|
      ensures Fits(kept[j].giftEmoji)
    {
      assert kept[j] in s.raids;
    }
  }

  lemma RoundFiled(s: State, now: int, rules: Rules)
    requires Filed(s)
    ensures Filed(Round(s, now, rules))
  {
    hide Filed; hide Washed; hide LaidEggs; hide GrownFrom; hide CourtedFrom; hide BirthsFrom; hide Walk; hide UnderWay;
    var a := LaidEggs(Washed(s, now), now, rules);
    FiledStays(s, Washed(s, now));
    FiledStays(Washed(s, now), a);
    var b := GrownFrom(a, 0, now, rules);
    GrownFiled(a, 0, now, rules);
    CourtedFiled(b, 0, now, rules);
    BirthsFiled(CourtedFrom(b, 0, now, rules), 0, now, rules);
    WalkFiled(BirthsFrom(CourtedFrom(b, 0, now, rules), 0, now, rules), 0, now, rules);
    UnderWayFiled(Walk(BirthsFrom(CourtedFrom(b, 0, now, rules), 0, now, rules), 0, now, rules), now);
  }

  // ---------------------------------------------------------------- the place

  lemma GoneHomeFiled(s: State, player: string, now: int)
    requires Filed(s)
    ensures var t := GoneHome(s, player, now); t.Done? ==> Filed(t.value)
  {
    hide Filed; hide WhereIs; hide SettledHold;
    var t := GoneHome(s, player, now);
    if t.Done? {
      FiledStays(s, t.value);
    }
  }

  lemma LostBoltsFiled(s: State, now: int)
    requires Filed(s)
    ensures var t := LostBolts(s, now); t.Done? ==> Filed(t.value)
  {
    hide Clean; hide CleanRides; hide Fits; hide CarriedCopies; hide LosingBolts;
    if s.current.Some? {
      Burning.SameHolder(s.current.value, CarriedCopies(s, s.current.value.username, Bolt), now);
    }
  }

  lemma CopiedFit(gear: Place, player: string, kicked: string)
    requires Clean(gear)
    ensures var copied := LobstersCopying(gear, player, kicked); forall slot | slot in copied :: Fits(copied[slot])
  {
    hide Fits; hide IsLobster;
    var theirs := SlotsIn(gear, kicked);
    forall slot: nat | slot < |theirs|
      ensures Fits(theirs[slot])
    {
      assert theirs[slot] == At(gear, kicked, slot);
    }
  }

  lemma MovedInFiled(s: State, userId: int, player: string, kicked: string, now: int, rules: ClaimRules)
    requires Filed(s)
    ensures Filed(MovedIn(s, userId, player, kicked, now, rules))
  {
    hide Clean; hide CleanRides; hide Fits; hide LobstersCopying; hide CountPower; hide ShownGear;
    CopiedFit(s.gear, player, kicked);
  }

  lemma OustedFiled(s: State, userId: int, player: string, now: int, rules: ClaimRules)
    requires Filed(s) && s.current.Some?
    ensures var t := Ousted(s, userId, player, now, rules); t.Done? ==> Filed(t.value)
  {
    hide Filed; hide SettledHold; hide MovedIn;
    var t := SettledHold(s, s.current.value, now);
    if t.Done? {
      FiledStays(s, t.value);
      MovedInFiled(t.value, userId, player, s.current.value.username, now, rules);
    }
  }

  lemma ClaimFiled(s: State, userId: int, player: string, now: int, rules: ClaimRules)
    requires Filed(s)
    ensures var t := Claim(s, userId, player, now, rules); t.Done? ==> Filed(t.value)
  {
    hide Filed; hide Ready; hide SentAway; hide IsStopped; hide AfterBalloon; hide Penalized; hide Ousted; hide MovedIn;
    var t := Ready(s, userId, player);
    FiledStays(s, t);
    FiledStays(s, t.(cooldowns := s.cooldowns));
    MovedInFiled(t, userId, player, "", now, rules);
    if HolderThere(t) {
      var u := AfterBalloon(t, player, t.current.value.username, now, rules);
      FiledStays(t, u);
      FiledStays(u, Penalized(u, player, now, rules));
      OustedFiled(u, userId, player, now, rules);
    }
  }

  // ---------------------------------------------------------------- setting off

  lemma TakenFromFiled(s: State, player: string, emoji: string)
    requires Filed(s)
    ensures Filed(TakenFrom(s, player, emoji))
  {
    hide Filed; hide Finding; hide OnHim; hide InHouse; hide Closed;
    var found := Finding(s, player, emoji);
    if found.Carried? {
      OnHimFiled(s, player, found.slot, "");
    } else if found.Kept? {
      InHouseFiled(s, player, found.slot, "");
    }
  }

  lemma UnhungFiled(s: State, player: string, emoji: string)
    requires Filed(s)
    ensures Filed(Unhung(s, player, emoji))
  {
    hide Filed; hide TakenFrom;
    TakenFromFiled(s, player, emoji);
  }

  lemma RideAdded(s: State, raid: Raid)
    requires Filed(s) && Fits(raid.giftEmoji)
    ensures Filed(s.(raids := s.raids + [raid]))
  {
    hide Fits; hide Clean; hide CleanHold;
  }

  lemma SetOffFiled(s: State, player: string, target: string, load: Load, now: int, rules: Rules)
    requires Filed(s) && Fits(load.emoji)
    ensures var t := SetOff(s, player, target, load, now, rules); t.Done? ==> Filed(t.value)
  {
    hide Filed; hide Fits; hide Unhung; hide OnMap; hide TravelTime;
    var a := Unhung(s, player, load.emoji);
    UnhungFiled(s, player, load.emoji);
    var b := OnMap(a, player);
    if b.Done? {
      FiledStays(a, b.value);
      var c := OnMap(b.value, target);
      if c.Done? {
        FiledStays(b.value, c.value);
        RideAdded(c.value, OnTheWay(c.value, player, target, load, now, rules));
      }
    }
  }

  lemma HomewardsFiled(s: State, player: string, now: int)
    requires Filed(s)
    ensures var t := Homewards(s, player, now); t.Done? ==> Filed(t.value)
  {
    hide Filed; hide Fits; hide GoneHome; hide SetRide; hide RideOf;
    GoneHomeFiled(s, player, now);
    var ride := RideOf(s.raids, player);
    if ride.Some? {
      RideFits(s, ride.value);
      SetRideFiled(s, ride.value, Turned(s.raids[ride.value], now));
    }
  }

  lemma RaidStartFiled(s: State, userId: int, player: string, known: Option<string>, homewards: bool, load: Load, now: int,
                       rules: Rules)
    requires Filed(s) && Fits(load.emoji)
    ensures var t := RaidStart(s, userId, player, known, homewards, load, now, rules); t.Done? ==> Filed(t.value)
  {
    hide Filed; hide Fits; hide Remembered; hide RaidAnswer; hide Homewards; hide SetOff; hide PickedUp;
    var u := s.(names := Remembered(s.names, player, userId));
    FiledStays(s, u);
    HomewardsFiled(u, player, now);
    FiledStays(u, PickedUp(u, player, load.gift));
    if known.Some? {
      SetOffFiled(PickedUp(u, player, load.gift), player, known.value, load, now, rules);
    }
  }

  // ---------------------------------------------------------------- at home

  lemma PayingFiled(s: State, player: string, spot: Spot, emoji: string, price: int)
    requires Filed(s) && Fits(emoji) && !spot.Refused?
    ensures Filed(Paying(s, player, spot, emoji, price))
  {
    hide Filed; hide Fits; hide OnHim; hide InHouse; hide Replaced;
    if spot.ToWear? {
      OnHimFiled(s, player, spot.slot, emoji);
    } else {
      InHouseFiled(s, player, spot.slot, emoji);
    }
    FiledStays(Placed(s, player, spot, emoji), Paying(s, player, spot, emoji, price));
  }

  lemma BuyFiled(s: State, player: string, emoji: string, position: int, cost: int, limit: nat, now: int, inflation: int)
    requires Filed(s) && Fits(emoji)
    ensures var t := Buy(s, player, emoji, position, cost, limit, now, inflation); t.Done? ==> Filed(t.value)
  {
    hide Filed; hide Fits; hide GoneHome; hide SpotFor; hide Price; hide Paying; hide WhereIs;
    var t := GoneHome(s, player, now);
    GoneHomeFiled(s, player, now);
    if t.Done? && BuyAnswer(t.value, player, emoji, position, cost, limit, inflation) == Bought {
      PayingFiled(t.value, player, SpotFor(t.value, player, emoji, position, limit), emoji,
                  Price(t.value, emoji, cost, inflation));
    }
  }

  lemma RearrangedFiled(s: State, player: string, from: nat, to: nat)
    requires Filed(s) && from < |HouseSlots(s, player)|
    ensures Filed(Rearranged(s, player, from, to))
  {
    hide Fits; hide CleanHold; hide CleanRides; hide Exchanged; hide ChildrenMoved; hide Hung; hide At;
    RearrangedAt(s, player, from, to);
  }

  lemma MoveFiled(s: State, player: string, from: int, to: int, limit: nat, now: int)
    requires Filed(s)
    ensures var t := Move(s, player, from, to, limit, now); t.Done? ==> Filed(t.value)
  {
    hide Filed; hide GoneHome; hide MoveAnswer; hide Rearranged;
    var t := GoneHome(s, player, now);
    GoneHomeFiled(s, player, now);
    if t.Done? && MoveAnswer(t.value, player, from, to, limit) == Moved {
      RearrangedFiled(t.value, player, from - 1, to - 1);
    }
  }

  lemma PutAcrossFiled(s: State, player: string, from: nat, to: nat)
    requires Filed(s)
    ensures Filed(PutAcross(s, player, from, to))
  {
    hide Fits; hide Clean; hide CleanHold; hide CleanRides; hide Put; hide At;
    assert Fits(At(s.gear, player, to)) && Fits(At(s.house, player, from)) by { AtFits(s, player, to); AtFits(s, player, from); }
    PutClean(s.house, player, from, At(s.gear, player, to));
    PutClean(s.gear, player, to, At(s.house, player, from));
  }

  lemma TakeFiled(s: State, player: string, emoji: string, swap: string, now: int)
    requires Filed(s)
    ensures var t := Take(s, player, emoji, swap, now); t.Done? ==> Filed(t.value)
  {
    hide Filed; hide GoneHome; hide WhereIs; hide PutAcross; hide HouseLike; hide RoomOnHim; hide NamesChild; hide FirstLike;
    var t := GoneHome(s, player, now);
    GoneHomeFiled(s, player, now);
    if t.Done? && TakeAnswer(t.value, player, emoji, swap) == GearStatus.Taken {
      PutAcrossFiled(t.value, player, HouseLike(t.value, player, emoji, 0).value, RoomOnHim(t.value, player, swap).value);
    }
  }

  lemma StoreFiled(s: State, player: string, emoji: string, limit: nat, now: int)
    requires Filed(s)
    ensures var t := Store(s, player, emoji, limit, now); t.Done? ==> Filed(t.value)
  {
    hide Filed; hide GoneHome; hide WhereIs; hide PutAcross; hide FreeSlot; hide FirstLike;
    var t := GoneHome(s, player, now);
    GoneHomeFiled(s, player, now);
    if t.Done? && StoreAnswer(t.value, player, emoji, limit) == Stored {
      PutAcrossFiled(t.value, player, FreeSlot(HouseSlots(t.value, player), limit).value,
                     FirstLike(GearSlots(t.value, player), emoji).value);
    }
  }

  // ---------------------------------------------------------------- burning

  lemma GoneFiled(s: State, player: string, emoji: string)
    requires Filed(s)
    ensures Filed(Burning.Gone(s, player, emoji))
  {
    hide Filed; hide TakenFrom; hide Finding; hide Content;
    TakenFromFiled(s, player, emoji);
    FiledStays(TakenFrom(s, player, emoji), Burning.Gone(s, player, emoji));
  }

  lemma BurntChildFiled(s: State, child: nat)
    requires Filed(s) && child < |s.children|
    ensures Filed(Burning.BurntChild(s, child))
  {
    hide Filed; hide Family.Dropped; hide Put; hide At; hide Closed;
    var owner, slot := s.children[child].owner, s.children[child].slot;
    InHouseFiled(s, owner, slot, "");
    FiledStays(InHouse(s, owner, slot, ""), Burning.BurntChild(s, child));
  }

  lemma StartedAgainFiled(s: State)
    ensures Filed(Burning.StartedAgain(s))
  {
    hide Fits; hide Burning.KnownPlayers;
    FacesFit();
    var t := Burning.StartedAgain(s);
    assert forall q: string, k: nat :: At(t.gear, q, k) == BALLOON || At(t.gear, q, k) == "";
  }

  lemma ThrownAtPlaceFiled(s: State, player: string, emoji: string, now: int, rules: Rules)
    requires Filed(s)
    ensures Filed(Burning.ThrownAtPlace(s, player, emoji, now, rules))
  {
    hide Filed; hide Landed; hide Burning.LandsOnHolder;
    if s.current.Some? {
      LandedFiled(s, emoji, player, s.current.value.username, AtPlace, 0, now, rules);
    }
  }

  lemma BurnFiled(s: State, player: string, emoji: string, now: int, rules: Rules, destroy: bool)
    requires Filed(s)
    ensures var t := Burning.Burn(s, player, emoji, now, rules, destroy); t.Done? ==> Filed(t.value)
  {
    hide Filed; hide Burning.Gone; hide Finding; hide Burning.FirstChildLike; hide Burning.BurntChild; hide LostBolts;
    hide Burning.ThrownAtPlace; hide Burning.StartedAgain; hide IsPower; hide Burning.BurnAnswer;
    var t := Burning.Gone(s, player, emoji);
    GoneFiled(s, player, emoji);
    var child := Burning.FirstChildLike(s, player, emoji, 0);
    if child.Some? {
      BurntChildFiled(s, child.value);
    }
    LostBoltsFiled(t, now);
    StartedAgainFiled(t);
    ThrownAtPlaceFiled(t, player, emoji, now, rules);
    LostBoltsFiled(Burning.ThrownAtPlace(t, player, emoji, now, rules), now);
  }

  // ---------------------------------------------------------------- accounts

  lemma BalloonHandedFiled(s: State, player: string, limit: nat)
    requires Filed(s)
    ensures BalloonHanded(s, player, limit).Some? ==> Filed(BalloonHanded(s, player, limit).value)
  {
    hide Filed; hide Fits; hide PutOn; hide PutInHouse;
    FacesFit();
    PutOnFiled(s, player, BALLOON);
    PutInHouseFiled(s, player, BALLOON, limit);
  }

  lemma GreetedFiled(s: State, player: string, limit: nat)
    requires Filed(s)
    ensures Filed(Greeted(s, player, limit))
  {
    hide Filed; hide HasBalloon; hide BalloonHanded; hide Tell;
    var t := s.(welcomed := s.welcomed[player := 1]);
    FiledStays(s, t);
    BalloonHandedFiled(t, player, limit);
    var handed := BalloonHanded(t, player, limit);
    if handed.Some? {
      FiledStays(handed.value, Tell(handed.value, Came(BALLOON)));
    }
  }

  lemma {:induction false} HandedOutFiled(s: State, players: seq<string>, limit: nat)
    requires Filed(s)
    ensures Filed(HandedOut(s, players, limit))
  {
    hide Filed; hide Greeted;
    if players != [] {
      HandedOutFiled(s, players[..|players| - 1], limit);
      GreetedFiled(HandedOut(s, players[..|players| - 1], limit), players[|players| - 1], limit);
    }
  }

  lemma QuoteFiled(s: State, player: string, quote: string, cost: int)
    requires Filed(s)
    ensures var t := Quoting.AddQuote(s, player, quote, cost); t.Done? ==> Filed(t.value)
  {
    hide Filed; hide Quoting.AddQuote;
    var t := Quoting.AddQuote(s, player, quote, cost);
    if t.Done? {
      FiledStays(s, t.value);
    }
  }

  lemma SeenFiled(s: State, userId: int, username: string, account: string, candidate: Option<string>, limit: nat, now: int,
                  today: int)
    requires Filed(s)
    ensures Filed(Seen(s, userId, username, account, candidate, limit, now, today))
  {
    hide Filed; hide PlatformKey; hide BoundTo; hide Called; hide FirstSeen; hide Greeted; hide DayCounted;
    var mine := PlatformKey(userId, username, account);
    var accounts := BoundTo(s, mine, candidate);
    var key := accounts[mine];
    var t := FirstSeen(s.(names := Called(s.names.(accounts := accounts), key, userId, username)), key, now);
    FiledStays(s, t);
    GreetedFiled(t, key, limit);
    FiledStays(Greeted(t, key, limit), DayCounted(Greeted(t, key, limit), key, now, today));
  }

  lemma MergedFiled(s: State, names: Names, secondary: string)
    requires Filed(s)
    ensures Filed(Merged(s, names, secondary))
  {
    hide Clean; hide Fits; hide CleanHold; hide CleanRides;
    DroppedClean(s.house, secondary);
    DroppedClean(s.gear, secondary);
  }

  lemma MadeOneFiled(s: State, mine: string, theirs: string)
    requires Filed(s) && mine in s.names.accounts && theirs in s.names.accounts
    ensures Filed(MadeOne(s, mine, theirs))
  {
    hide Filed; hide Merged; hide MergedNames; hide HasAssets;
    var myKey, otherKey := s.names.accounts[mine], s.names.accounts[theirs];
    var primary, secondary := Primary(s, myKey, otherKey), Secondary(s, myKey, otherKey);
    MergedFiled(s, MergedNames(s.names, mine, theirs, primary, secondary), secondary);
  }

  lemma AskedFiled(s: State, mine: string, theirs: string)
    requires Filed(s)
    ensures Filed(Asked(s, mine, theirs))
  {
    hide Filed;
    FiledStays(s, Asked(s, mine, theirs));
  }

  lemma LinkFiled(s: State, mine: string, userId: int, other: Option<string>)
    requires Filed(s)
    ensures var t := Linking.Link(s, mine, userId, other); t.Done? ==> Filed(t.value)
  {
    hide *;
    var t, theirs := Linking.Link(s, mine, userId, other), Named(s, userId, other);
    if mine !in s.names.accounts {
      NotSeen(s, mine, userId, other);
    } else {
      LinkDoes(s, mine, userId, other);
      if theirs.Some? && t == Done(Asked(s, mine, theirs.value)) {
        AskedFiled(s, mine, theirs.value);
      } else if theirs.Some? && theirs.value in s.names.accounts {
        MadeOneFiled(s, mine, theirs.value);
      }
    }
  }

  // ---------------------------------------------------------------- every run

  lemma NextFiled(s: State, command: Command)
    requires Filed(s) && IsPlain(command)
    ensures Filed(Next(s, command))
  {
    hide Filed; hide Fits; hide Claim; hide RaidStart; hide Buy; hide Move; hide Take; hide Store; hide Burning.Burn; hide Seen;
    hide Linking.Link; hide Family.Round; hide HandedOut; hide Quoting.AddQuote; hide Quoting.DeleteQuote;
    match command
    case ClaimPlace(userId, player, now, claims) => ClaimFiled(s, userId, player, now, claims);
    case StartRaid(userId, player, known, homewards, load, now, rules) =>
      RaidStartFiled(s, userId, player, known, homewards, load, now, rules);
    case BuyEmoji(player, emoji, position, cost, limit, now, inflation) =>
      BuyFiled(s, player, emoji, position, cost, limit, now, inflation);
    case MoveEmoji(player, from, to, limit, now) => MoveFiled(s, player, from, to, limit, now);
    case TakeGear(player, emoji, swap, now) => TakeFiled(s, player, emoji, swap, now);
    case StoreGear(player, emoji, limit, now) => StoreFiled(s, player, emoji, limit, now);
    case BurnEmoji(player, emoji, now, rules, destroy) => BurnFiled(s, player, emoji, now, rules, destroy);
    case DestroyPalle(player, amount) => FiledStays(s, Burning.BurnPalle(s, player, amount));
    case BeSeen(userId, username, account, candidate, limit, now, today) =>
      SeenFiled(s, userId, username, account, candidate, limit, now, today);
    case LinkAccounts(mine, userId, other) => LinkFiled(s, mine, userId, other);
    case RecordInvite(newcomer, inviter, now) => FiledStays(s, Linking.RecordInvite(s, newcomer, inviter, now));
    case SettleInvite(newcomer, samePerson) => FiledStays(s, InviteDue(s, newcomer, samePerson));
    case HandOutBalloons(players, limit) => HandedOutFiled(s, players, limit);
    case AddQuote(player, quote, cost) => QuoteFiled(s, player, quote, cost);
    case DeleteQuote(selector) => FiledStays(s, Quoting.DeleteQuote(s, selector));
    case KeepRound(now, rules) => RoundFiled(s, now, rules);
  }

  lemma {:induction false} RunFiled(s: State, commands: seq<Command>)
    requires Filed(s) && forall k | 0 <= k < |commands| :: IsSensible(commands[k])
    ensures Filed(Runs.Run(s, commands))
  {
    hide Filed; hide Next; hide IsPlain; hide IsModest;
    if commands != [] {
      RunFiled(s, commands[..|commands| - 1]);
      NextFiled(Runs.Run(s, commands[..|commands| - 1]), commands[|commands| - 1]);
    }
  }

  lemma CleanReads(place: Place, player: string)
    requires Clean(place) && Tidy(place)
    ensures Read(Slots.Stored(SlotsIn(place, player))) == SlotsIn(place, player)
  {
    hide Closed; hide Read; hide Slots.Stored;
    var slots := SlotsIn(place, player);
    forall k | 0 <= k < |slots|
      ensures Fits(slots[k])
    {
      assert At(place, player, k) == slots[k];
    }
    RoundTrip(slots);
  }

  lemma NothingFiled(luck: seq<nat>)
    ensures Filed(Unplayed(luck))
  {
  }

  /** From the first day on, what is stored for a player, in his house and on him, reads back as the slots it was written
      from, as long as the emoji that are bought and carried are closed ones: nothing that is thrown, laid, robbed, born,
      grown, moved or merged in between ever makes two emoji one. */
  lemma AlwaysReadsBack(luck: seq<nat>, commands: seq<Command>, player: string)
    requires forall k | 0 <= k < |commands| :: IsSensible(commands[k])
    ensures var t := Runs.Run(Unplayed(luck), commands);
            && Read(Slots.Stored(HouseSlots(t, player))) == HouseSlots(t, player)
            && Read(Slots.Stored(GearSlots(t, player))) == GearSlots(t, player)
  {
    hide Filed; hide Sound; hide Runs.Run; hide Read; hide Slots.Stored; hide IsSensible; hide Clean; hide Tidy;
    var t := Runs.Run(Unplayed(luck), commands);
    NothingFiled(luck);
    RunFiled(Unplayed(luck), commands);
    FromNothing(luck, commands, "");
    SoundTidy(t);
    assert Clean(t.house) && Clean(t.gear) by { FiledClean(t); }
    CleanReads(t.house, player);
    CleanReads(t.gear, player);
  }

  lemma FiledClean(s: State)
    requires Filed(s)
    ensures Clean(s.house) && Clean(s.gear)
  {
  }
}
