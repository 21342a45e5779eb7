/** src/game.cpp: the children keep their slots. What takes one away is its age, a reset of its house, or being burned. */
module Children {
  import opened Basics
  import opened Powers
  import opened Ledger
  import opened Places
  import opened World
  import opened Laws
  import opened Rides
  import opened Family
  import opened Holds
  import opened Naming
  import opened Belongings
  import opened Claims
  import opened Journeys
  import opened Household
  import opened Linking
  import opened Runs
  import Burning
  import Keeping
  import Quoting
  import Settling
  import Telling

  /** The child it was: that it courted is all that may have changed. */
  predicate IsSame(child: Child, other: Child) {
    other == child.(courted := other.courted)
  }

  ghost predicate IsAmong(children: seq<Child>, child: Child) {
    exists j :: 0 <= j < |children| && IsSame(child, children[j])
  }

  /** Since then, that player was told to start over. */
  ghost predicate ResetTold(told: seq<Event>, from: nat, owner: string) {
    exists k :: from <= k < |told| && told[k].Wiped? && told[k].player == owner
  }

  // ---------------------------------------------------------------- while the rides are walked

  /** Nobody is told to start over. */
  ghost predicate NoReset(told: seq<Event>, told': seq<Event>) {
    told <= told' && forall k | |told| <= k < |told'| :: !told'[k].Wiped?
  }

  /** What the slot of a child shows. */
  function FaceOf(house: Place, child: Child): string {
    At(house, child.owner, child.slot)
  }

  /** Every child's slot shows a child. */
  ghost predicate AllShown(s: State) {
    forall child | child in s.children :: IsChildFace(FaceOf(s.house, child))
  }

  /** The children left are exactly those whose owner did not start over, and each slot shows what it showed. */
  ghost predicate Sifted(s: State, t: State) {
    && s.told <= t.told
    && (forall child :: child in t.children <==> child in s.children && !ResetTold(t.told, |s.told|, child.owner))
    && (forall child | child in t.children :: FaceOf(t.house, child) == FaceOf(s.house, child))
  }

  lemma SiftedShown(s: State, t: State)
    requires AllShown(s) && Sifted(s, t)
    ensures AllShown(t)
  {
    hide IsChildFace;
  }

  lemma SiftedOn(s: State, t: State, u: State)
    requires Sifted(s, t) && Sifted(t, u)
    ensures Sifted(s, u)
  {
    hide FaceOf;
    forall owner: string
      ensures ResetTold(u.told, |s.told|, owner) <==> ResetTold(t.told, |s.told|, owner) || ResetTold(u.told, |t.told|, owner)
    {
      if ResetTold(t.told, |s.told|, owner) {
        var k :| |s.told| <= k < |t.told| && t.told[k].Wiped? && t.told[k].player == owner;
        assert u.told[k] == t.told[k];
      }
      if ResetTold(u.told, |s.told|, owner) {
        var k :| |s.told| <= k < |u.told| && u.told[k].Wiped? && u.told[k].player == owner;
        assert k < |t.told| ==> u.told[k] == t.told[k];
      }
    }
  }

  /** No child's slot is touched. */
  ghost predicate SameFaces(s: State, t: State) {
    forall child | child in s.children :: FaceOf(t.house, child) == FaceOf(s.house, child)
  }

  lemma SiftedStays(s: State, t: State)
    requires t.children == s.children && SameFaces(s, t) && NoReset(s.told, t.told)
    ensures Sifted(s, t)
  {
    hide FaceOf;
  }

  lemma SameHouseSifts(s: State, t: State)
    requires t.children == s.children && t.house == s.house && t.told == s.told
    ensures Sifted(s, t)
  {
  }

  /** A slot that is empty or has a power is no child's. */
  lemma SpareSlot(s: State, player: string, slot: nat, emoji: string)
    requires AllShown(s) && (At(s.house, player, slot) == "" || PowerOf(At(s.house, player, slot)).Some?)
    ensures SameFaces(s, InHouse(s, player, slot, emoji))
  {
    hide Put; hide PowerOf; hide ChildEmoji;
    PutAt(s.house, player, slot, emoji);
    Faces();
    forall child | child in s.children
      ensures FaceOf(InHouse(s, player, slot, emoji).house, child) == FaceOf(s.house, child)
    {
      assert IsChildFace(FaceOf(s.house, child));
    }
  }

  /** Nor is one that is on no child's list. */
  lemma OtherSlot(s: State, player: string, slot: nat, emoji: string)
    requires !IsChild(s.children, player, slot)
    ensures SameFaces(s, InHouse(s, player, slot, emoji))
  {
    hide Put;
    PutAt(s.house, player, slot, emoji);
  }

  lemma BlownUpSifts(s: State, target: string, onHim: bool)
    requires AllShown(s)
    ensures Sifted(s, BlownUp(s, target, onHim))
  {
    hide Exposed; hide InHouse; hide OnHim; hide Roll; hide Sifted; hide PowerOf; hide SameFaces;
    var t := BlownUp(s, target, onHim);
    var slots := if onHim then GearSlots(s, target) else HouseSlots(s, target);
    var there := Exposed(slots, |slots|);
    assert SameFaces(s, s) by { SameHouseFaces(s, s); }
    if there != [] {
      var hit := there[Roll(s, |there|)];
      if onHim {
        SameHouseFaces(s, t);
      } else {
        SpareSlot(s, target, hit, "");
        FacesOf(s, InHouse(s, target, hit, ""), t);
      }
    }
    SiftedStays(s, t);
  }

  lemma SameHouseFaces(s: State, t: State)
    requires t.house == s.house
    ensures SameFaces(s, t)
  {
  }

  lemma FacesOf(s: State, t: State, u: State)
    requires SameFaces(s, t) && u.house == t.house
    ensures SameFaces(s, u)
  {
  }

  lemma BombedSifts(s: State, thrower: string, victim: string, site: Whereabouts, rules: Rules)
    requires AllShown(s)
    ensures Sifted(s, Bombed(s, thrower, victim, site, rules))
  {
    hide Sifted; hide BlownUp; hide Lucky; hide AllShown;
    SameHouseSifts(s, Rolled(s));
    SameHouseSifts(s, Tried(s, rules.bombDudPercent));
    SiftedShown(s, Rolled(s));
    SiftedShown(s, Tried(s, rules.bombDudPercent));
    BlownUpSifts(Rolled(s), thrower, true);
    BlownUpSifts(Tried(s, rules.bombDudPercent), victim, site == AtPlace);
    SiftedOn(s, Rolled(s), BlownUp(Rolled(s), thrower, true));
    SiftedOn(s, Tried(s, rules.bombDudPercent), BlownUp(Tried(s, rules.bombDudPercent), victim, site == AtPlace));
  }

  lemma StartedOverSifts(s: State, player: string, walked: nat, now: int)
    ensures Sifted(s, StartedOver(s, player, walked, now))
  {
    hide StartedOver; hide Hung;
    var t := StartedOver(s, player, walked, now);
    StartedOverTells(s, player, walked, now);
    HungAt(s.house, player, []);
    assert t.told[|s.told|].Wiped? && t.told[|s.told|].player == player;
    assert !t.told[|s.told| + 1].Wiped?;
  }

  lemma StartedOverTells(s: State, player: string, walked: nat, now: int)
    ensures var t := StartedOver(s, player, walked, now);
            && t.children == Elsewhere(s.children, player) && t.house == Hung(s.house, player, [])
            && |t.told| == |s.told| + 2 && s.told <= t.told
            && t.told[|s.told|].Wiped? && t.told[|s.told|].player == player && t.told[|s.told| + 1] == Came(BALLOON)
  {
    hide Elsewhere; hide Emptied; hide NotExpecting; hide Losing; hide Hung;
  }

  lemma LandedSifts(s: State, thrown: string, thrower: string, victim: string, site: Whereabouts, walked: nat, now: int, rules: Rules)
    requires AllShown(s)
    ensures Sifted(s, Landed(s, thrown, thrower, victim, site, walked, now, rules))
  {
    hide Sifted; hide PowerOf; hide Bombed; hide StartedOver; hide Smeared; hide Expecting; hide Rides.Frozen; hide AllShown;
    BombedSifts(s, thrower, victim, site, rules);
    StartedOverSifts(s, victim, walked, now);
    SameHouseSifts(s, Smeared(s, victim, now, rules));
    SameHouseSifts(s, Expecting(s, thrower, victim, now, rules));
    SameHouseSifts(s, Rides.Frozen(s, victim, now, rules));
    SameHouseSifts(s, s);
  }

  lemma BittenSifts(s: State, raid: Raid, rules: Rules)
    requires AllShown(s)
    ensures Sifted(s, Bitten(s, raid, rules))
  {
    hide Sifted; hide BlownUp; hide HouseCopies; hide Share; hide Lucky; hide AllShown;
    var jaws := Share(HouseCopies(s, raid.target, Dino), rules.dinoPercent);
    SameHouseSifts(s, Rolled(s));
    SameHouseSifts(s, Tried(s, jaws));
    SiftedShown(s, Rolled(s));
    BlownUpSifts(Rolled(s), raid.raider, true);
    SiftedOn(s, Rolled(s), BlownUp(Rolled(s), raid.raider, true));
  }

  // ---------------------------------------------------------------- what moves emoji about

  lemma PutOnSifts(s: State, player: string, emoji: string)
    ensures PutOn(s, player, emoji).Some? ==> Sifted(s, PutOn(s, player, emoji).value)
  {
    hide Sifted; hide FreeSlot; hide Put;
    var t := PutOn(s, player, emoji);
    if t.Some? {
      SameHouseSifts(s, t.value);
    }
  }

  lemma InHouseSifts(s: State, player: string, slot: nat, emoji: string)
    requires SameFaces(s, InHouse(s, player, slot, emoji))
    ensures Sifted(s, InHouse(s, player, slot, emoji))
  {
    hide Sifted; hide SameFaces; hide Put;
    SiftedStays(s, InHouse(s, player, slot, emoji));
  }

  lemma FreeSifts(s: State, player: string, slot: nat, emoji: string)
    requires AllShown(s) && (slot < |HouseSlots(s, player)| ==> HouseSlots(s, player)[slot] == "")
    ensures Sifted(s, InHouse(s, player, slot, emoji))
  {
    hide Sifted; hide SameFaces; hide AllShown; hide InHouse; hide PowerOf;
    SpareSlot(s, player, slot, emoji);
    InHouseSifts(s, player, slot, emoji);
  }

  lemma PutInHouseSifts(s: State, player: string, emoji: string, limit: nat)
    requires AllShown(s)
    ensures PutInHouse(s, player, emoji, limit).Some? ==> Sifted(s, PutInHouse(s, player, emoji, limit).value)
  {
    hide Sifted; hide FreeSlot; hide AllShown; hide InHouse;
    var slot := FreeSlot(HouseSlots(s, player), limit);
    if slot.Some? {
      FreeSifts(s, player, slot.value, emoji);
    }
  }

  lemma ReceivedSifts(s: State, player: string, emoji: string, limit: nat)
    requires AllShown(s)
    ensures Received(s, player, emoji, limit).Some? ==> Sifted(s, Received(s, player, emoji, limit).value)
  {
    hide Sifted; hide PutOn; hide PutInHouse; hide WorksOnHim; hide WhereIs; hide AllShown;
    PutOnSifts(s, player, emoji);
    PutInHouseSifts(s, player, emoji, limit);
  }

  lemma TakenBackSifts(s: State, player: string, emoji: string)
    requires AllShown(s)
    ensures Sifted(s, TakenBack(s, player, emoji))
  {
    hide Sifted; hide PutOn; hide InHouse; hide AllShown; hide FirstEmpty;
    PutOnSifts(s, player, emoji);
    FreeSifts(s, player, FirstEmpty(HouseSlots(s, player)), emoji);
  }

  lemma BoardedSifts(s: State, raid: Raid, rules: Rules)
    ensures Sifted(s, Boarded(s, raid, rules))
  {
    hide Sifted; hide CarriedCopies; hide Share; hide Boardable; hide PutOn; hide InHouse; hide FreeSlot; hide At; hide SlotsIn; hide Roll;
    hide CanBoard; hide Rolled;
    var chance := Share(CarriedCopies(s, raid.raider, Pirate), rules.piratePercent);
    var t := Rolled(s);
    SameHouseSifts(s, t);
    SameHouseSifts(s, Tried(s, chance));
    var there := Boardable(t, raid.target, |HouseSlots(t, raid.target)|);
    if there != [] {
      var taken := there[Roll(t, |there|)];
      BoardSifts(s, t, raid.raider, raid.target, taken);
    }
  }

  lemma BoardSifts(s: State, t: State, raider: string, target: string, taken: nat)
    requires t == s.(luck := t.luck) && CanBoard(t, target, taken)
    ensures var u := InHouse(Rolled(t), target, taken, "");
            && Sifted(s, u)
            && (PutOn(u, raider, At(t.house, target, taken)).Some? ==> Sifted(s, PutOn(u, raider, At(t.house, target, taken)).value))
  {
    hide Sifted; hide PutOn; hide InHouse; hide SameFaces; hide IsChild;
    var r := Rolled(t);
    var u := InHouse(r, target, taken, "");
    SameHouseSifts(s, r);
    OtherSlot(r, target, taken, "");
    InHouseSifts(r, target, taken, "");
    SiftedOn(s, r, u);
    PutOnSifts(u, raider, At(t.house, target, taken));
    if PutOn(u, raider, At(t.house, target, taken)).Some? {
      SiftedOn(s, u, PutOn(u, raider, At(t.house, target, taken)).value);
    }
  }

  lemma RobbedSifts(s: State, ride: nat, rules: Rules)
    requires ride < |s.raids|
    ensures Sifted(s, Robbed(s, ride, rules))
  {
    hide Sifted; hide Boarded; hide Carrying; hide Loot;
    var t := Carrying(s, ride, Loot(s, s.raids[ride], rules));
    SameHouseSifts(s, t);
    BoardedSifts(t, s.raids[ride], rules);
    SiftedOn(s, t, Boarded(t, s.raids[ride], rules));
  }

  lemma PastBalloonSifts(s: State, ride: nat, rules: Rules)
    requires ride < |s.raids|
    ensures Sifted(s, PastBalloon(s, ride, rules))
  {
    hide Sifted; hide Robbed; hide SetRide; hide Share; hide HouseCopies; hide Lucky; hide Rolled;
    var t := Tried(s, Share(HouseCopies(s, s.raids[ride].target, Dog), rules.dogPercent));
    SameHouseSifts(s, t);
    SameHouseSifts(s, SetRide(t, ride, t.raids[ride].(loot := 0)));
    RobbedSifts(t, ride, rules);
    SiftedOn(s, t, Robbed(t, ride, rules));
  }

  lemma RaidedSifts(s: State, ride: nat, now: int, rules: Rules)
    requires ride < |s.raids|
    ensures Sifted(s, Raided(s, ride, now, rules))
  {
    hide Sifted; hide Robbed; hide SetRide; hide Sneaks; hide SneakChance; hide Attempt; hide Attempted; hide PastBalloon; hide Tried;
    var raid := s.raids[ride];
    var t := Tried(s, SneakChance(s, raid, rules, now));
    var u := Attempted(t, raid.target, AtHome, now);
    SameHouseSifts(s, t);
    SameHouseSifts(s, u);
    RobbedSifts(t, ride, rules);
    SiftedOn(s, t, Robbed(t, ride, rules));
    PastBalloonSifts(u, ride, rules);
    SiftedOn(s, u, PastBalloon(u, ride, rules));
    SameHouseSifts(s, SetRide(u, ride, raid.(loot := 0)));
  }

  lemma ThrownAwaySifts(s: State, ride: nat)
    requires ride < |s.raids|
    ensures Sifted(s, ThrownAway(s, ride))
  {
    hide Sifted; hide SetRide; hide SameFaces;
    SameHouseFaces(s, ThrownAway(s, ride));
    SiftedStays(s, ThrownAway(s, ride));
  }

  lemma StruckSifts(s: State, ride: nat, now: int, rules: Rules)
    requires AllShown(s) && ride < |s.raids|
    ensures Sifted(s, Struck(s, ride, now, rules))
  {
    hide Sifted; hide Landed; hide ThrownAway; hide Share; hide HouseCopies; hide SentBack; hide AsItIs; hide Tried; hide AllShown;
    var raid := s.raids[ride];
    var t := Tried(s, Share(HouseCopies(s, raid.target, Mailbox), rules.mailboxPercent));
    SameHouseSifts(s, t);
    SiftedShown(s, t);
    var victim := if SentBack(s, raid, rules) then raid.raider else raid.target;
    var as' := if SentBack(s, raid, rules) then AsItIs(rules) else rules;
    var u := Landed(t, raid.giftEmoji, raid.raider, victim, AtHome, ride, now, as');
    LandedSifts(t, raid.giftEmoji, raid.raider, victim, AtHome, ride, now, as');
    SiftedOn(s, t, u);
    ThrownAwaySifts(u, ride);
    SiftedOn(s, u, ThrownAway(u, ride));
  }

  lemma HandedSifts(s: State, ride: nat)
    requires ride < |s.raids|
    ensures Sifted(s, Handed(s, ride))
  {
    hide Sifted; hide Handed;
    Telling.HandedTold(s, ride);
    SameHouseSifts(s, Handed(s, ride));
  }

  lemma DeliveredSifts(s: State, ride: nat, now: int, rules: Rules)
    requires AllShown(s) && ride < |s.raids|
    ensures Sifted(s, Delivered(s, ride, now, rules))
  {
    hide Sifted; hide Handed; hide Struck; hide Received; hide PowerOf; hide WhereIs; hide SetRide; hide AllShown;
    var t := Handed(s, ride);
    HandedSifts(s, ride);
    SiftedShown(s, t);
    StruckSifts(t, ride, now, rules);
    SiftedOn(s, t, Struck(t, ride, now, rules));
    var raid := t.raids[ride];
    var u := Received(t, raid.target, raid.giftEmoji, rules.furnitureLimit);
    ReceivedSifts(t, raid.target, raid.giftEmoji, rules.furnitureLimit);
    if u.Some? {
      SiftedOn(s, t, u.value);
      SameHouseSifts(u.value, SetRide(u.value, ride, raid.(giftEmoji := "")));
      SiftedOn(s, u.value, SetRide(u.value, ride, raid.(giftEmoji := "")));
    }
  }

  lemma ArrivedSifts(s: State, ride: nat, now: int, rules: Rules)
    requires AllShown(s) && ride < |s.raids|
    ensures Sifted(s, Arrived(s, ride, now, rules))
  {
    hide Sifted; hide Delivered; hide Salted; hide Bitten; hide Raided; hide SetRide; hide AllShown;
    var raid := s.raids[ride];
    var t := SetRide(s, ride, raid.(arrived := true));
    SameHouseSifts(s, s);
    SameHouseSifts(s, t);
    SiftedShown(s, t);
    DeliveredSifts(t, ride, now, rules);
    SiftedOn(s, t, Delivered(t, ride, now, rules));
    RaidedSifts(t, ride, now, rules);
    SiftedOn(s, t, Raided(t, ride, now, rules));
    var u := Salted(t, raid, now, rules);
    SameHouseSifts(s, u);
    SiftedShown(s, u);
    BittenSifts(u, raid, rules);
    SiftedOn(s, u, Bitten(u, raid, rules));
    RaidedSifts(Bitten(u, raid, rules), ride, now, rules);
    SiftedOn(s, Bitten(u, raid, rules), Raided(Bitten(u, raid, rules), ride, now, rules));
  }

  lemma UnpackedSifts(s: State, raid: Raid)
    requires AllShown(s)
    ensures Sifted(s, Unpacked(s, raid))
  {
    hide Sifted; hide TakenBack; hide AllShown;
    SameHouseSifts(s, s);
    TakenBackSifts(s, raid.raider, raid.giftEmoji);
  }

  lemma CameHomeSifts(s: State, ride: nat, now: int)
    requires AllShown(s) && ride < |s.raids|
    ensures Sifted(s, CameHome(s, ride, now))
  {
    hide Sifted; hide Unpacked; hide Credit; hide AllShown; hide SameFaces;
    var t, u := CameHome(s, ride, now), Unpacked(s, s.raids[ride]);
    Settling.CameHomeTold(s, ride, now);
    SameHouseSifts(s, s);
    UnpackedSifts(s, s.raids[ride]);
    if Due(s.raids[ride], now) {
      SameHouseFaces(u, t);
      SiftedStays(u, t);
      SiftedOn(s, u, t);
    }
  }

  lemma {:induction false} WalkSifts(s: State, ride: nat, now: int, rules: Rules)
    requires AllShown(s) && ride <= |s.raids|
    ensures Sifted(s, Walk(s, ride, now, rules))
    decreases |s.raids| - ride
  {
    hide Sifted; hide Arrived; hide CameHome; hide AllShown;
    if ride == |s.raids| {
      SameHouseSifts(s, s);
    } else {
      var t := Arrived(s, ride, now, rules);
      var u := CameHome(t, ride, now);
      ArrivedSifts(s, ride, now, rules);
      SiftedShown(s, t);
      CameHomeSifts(t, ride, now);
      SiftedOn(s, t, u);
      SiftedShown(s, u);
      WalkSifts(u, ride + 1, now, rules);
      SiftedOn(s, u, Walk(u, ride + 1, now, rules));
    }
  }

  // ---------------------------------------------------------------- before the rides are walked

  /** It has lived all its ages. */
  predicate IsOut(child: Child, now: int, rules: Rules) {
    ChildEmoji(child.male, Age(child, now, rules)) == ""
  }

  lemma ThereInHouse(s: State, k: nat)
    requires Standing(s) && k < |s.children|
    ensures At(s.house, s.children[k].owner, s.children[k].slot) != ""
  {
    hide RidesSound; hide OnePlace; hide Mapped; hide Housed; hide Solvent; hide ChildEmoji;
    assert IsChildFace(At(s.house, s.children[k].owner, s.children[k].slot));
    Faces();
  }

  lemma DroppedParts<T>(list: seq<T>, k: nat)
    requires k < |list|
    ensures Dropped(list, k)[..k] == list[..k] && Dropped(list, k)[k..] == list[k + 1..]
    ensures list[..k + 1] == list[..k] + [list[k]] && list[k..] == [list[k]] + list[k + 1..]
  {
  }

  lemma NoResetOn(told: seq<Event>, told': seq<Event>, told'': seq<Event>)
    requires NoReset(told, told') && NoReset(told', told'')
    ensures NoReset(told, told'')
  {
    forall k | |told| <= k < |told'|
      ensures !told''[k].Wiped?
    {
      assert told''[k] == told'[k];
    }
  }

  lemma ToldTwo(told: seq<Event>, one: Event, other: Event)
    requires !one.Wiped? && !other.Wiped?
    ensures NoReset(told, told + [one, other])
  {
  }

  lemma LooksTold(s: State, child: Child, now: int, rules: Rules)
    ensures NoReset(s.told, ChildAged(s, child, now, rules).told)
  {
    hide ChildEmoji; hide Age; hide At; hide Put; hide NoReset;
    NothingTold(s.told);
    ToldTwo(s.told, Went(At(s.house, child.owner, child.slot)), Came(ChildEmoji(child.male, Age(child, now, rules))));
  }

  lemma StaysUnlessOut(s: State, k: nat, now: int, rules: Rules)
    requires Standing(s) && k < |s.children|
    ensures Family.Stays(s, s.children[k], now, rules) <==> !IsOut(s.children[k], now, rules)
  {
    hide Standing; hide ChildEmoji; hide Age; hide At;
    ThereInHouse(s, k);
  }

  /** One child of the list, and the list after it. */
  lemma AfterChildTells(s: State, k: nat, now: int, rules: Rules)
    requires k < |s.children|
    ensures NoReset(s.told, Keeping.AfterChild(s, k, now, rules).told)
  {
    hide Family.Stays; hide Dropped; hide ChildAged; hide NoReset;
    LooksTold(s, s.children[k], now, rules);
  }

  lemma AfterChildLeaves(s: State, k: nat, now: int, rules: Rules)
    requires k < |s.children|
    ensures Keeping.AfterChild(s, k, now, rules).children
         == if Family.Stays(s, s.children[k], now, rules) then s.children else Dropped(s.children, k)
  {
    hide Family.Stays; hide Dropped; hide ChildAged;
  }

  ghost predicate LeftOver(before: seq<Child>, k: nat, after: seq<Child>, now: int, rules: Rules)
    requires k <= |before|
  {
    forall child :: child in after <==> child in before[..k] || (child in before[k..] && !IsOut(child, now, rules))
  }

  lemma LeftOverOn(before: seq<Child>, k: nat, after: seq<Child>, now: int, rules: Rules)
    requires k < |before|
    ensures IsOut(before[k], now, rules) && LeftOver(Dropped(before, k), k, after, now, rules) ==> LeftOver(before, k, after, now, rules)
    ensures !IsOut(before[k], now, rules) && LeftOver(before, k + 1, after, now, rules) ==> LeftOver(before, k, after, now, rules)
  {
    hide IsOut; hide Dropped;
    DroppedParts(before, k);
  }

  lemma {:induction false} GrownLeaves(s: State, k: nat, now: int, rules: Rules)
    requires Standing(s) && k <= |s.children|
    ensures NoReset(s.told, GrownFrom(s, k, now, rules).told)
    ensures LeftOver(s.children, k, GrownFrom(s, k, now, rules).children, now, rules)
    decreases |s.children| - k
  {
    hide Standing; hide Settling.Step; hide ChildAged; hide Family.Stays; hide IsOut; hide LeftOver; hide NoReset; hide Dropped;
    if k == |s.children| {
      assert LeftOver(s.children, k, s.children, now, rules) by { AllLeft(s.children, now, rules); }
      assert NoReset(s.told, s.told) by { NothingTold(s.told); }
    } else {
      var u := Keeping.AfterChild(s, k, now, rules);
      Keeping.ChildSteps(s, k, now, rules, "");
      Settling.StandsAfter(s, u, true, 0, now, "");
      StaysUnlessOut(s, k, now, rules);
      AfterChildTells(s, k, now, rules);
      AfterChildLeaves(s, k, now, rules);
      var next := if Family.Stays(s, s.children[k], now, rules) then k + 1 else k;
      GrownLeaves(u, next, now, rules);
      NoResetOn(s.told, u.told, GrownFrom(u, next, now, rules).told);
      LeftOverOn(s.children, k, GrownFrom(u, next, now, rules).children, now, rules);
    }
  }

  lemma AllLeft(children: seq<Child>, now: int, rules: Rules)
    ensures LeftOver(children, |children|, children, now, rules)
  {
    assert children[..|children|] == children;
  }

  lemma NothingTold(told: seq<Event>)
    ensures NoReset(told, told)
  {
  }

  /** The same children, in the same order. */
  ghost predicate AllSame(before: seq<Child>, after: seq<Child>) {
    |after| == |before| && forall j | 0 <= j < |before| :: IsSame(before[j], after[j])
  }

  lemma CourtedOne(before: seq<Child>, k: nat, after: seq<Child>)
    requires k < |before|
    ensures AllSame(before[k := before[k].(courted := true)], after) ==> AllSame(before, after)
  {
  }

  lemma {:induction false} CourtedSame(s: State, k: nat, now: int, rules: Rules)
    requires k <= |s.children|
    ensures var t := CourtedFrom(s, k, now, rules); t.told == s.told && AllSame(s.children, t.children)
    decreases |s.children| - k
  {
    hide Courted; hide Courts; hide AllSame;
    if k == |s.children| {
      assert AllSame(s.children, s.children) by { SameChildren(s.children); }
    } else if Courts(s.children, s.children[k], now, rules) {
      var t := Courted(s, k, now, rules);
      CourtedSame(t, k + 1, now, rules);
      CourtedOne(s.children, k, CourtedFrom(t, k + 1, now, rules).children);
    } else {
      CourtedSame(s, k + 1, now, rules);
    }
  }

  lemma SameChildren(children: seq<Child>)
    ensures AllSame(children, children)
  {
  }

  /** Nobody is told to start over, and whoever joined the children is born now. */
  ghost predicate Joined(s: State, t: State, now: int) {
    && NoReset(s.told, t.told) && s.children <= t.children
    && forall j | |s.children| <= j < |t.children| :: t.children[j].born == now
  }

  lemma NobodyJoined(s: State, t: State, now: int)
    requires t.told == s.told && t.children == s.children
    ensures Joined(s, t, now)
  {
  }

  lemma BornInJoins(s: State, t: State, mother: string, slot: nat, male: bool, now: int)
    requires t.told == s.told && t.children == s.children
    ensures Joined(s, BornIn(t, mother, slot, male, now), now)
  {
    hide Put; hide ChildEmoji; hide At; hide NoReset;
    ToldTwo(s.told, Went(At(t.house, mother, slot)), Came(ChildEmoji(male, 0)));
  }

  lemma BirthJoins(s: State, mother: string, now: int, rules: Rules)
    ensures Joined(s, Birth(s, mother, now, rules), now)
  {
    hide FreeSlot; hide Replaceable; hide Rolled; hide SlotsIn; hide BornIn; hide Joined; hide Roll;
    var t, male := Rolled(s), Roll(s, 2) == 0;
    NobodyJoined(s, t, now);
    var free := FreeSlot(HouseSlots(t, mother), rules.furnitureLimit);
    var others := Replaceable(t, mother, |HouseSlots(t, mother)|);
    if free.Some? {
      BornInJoins(s, t, mother, free.value, male, now);
    } else if others != [] {
      BornInJoins(s, Rolled(t), mother, others[Roll(t, |others|)], male, now);
    }
  }

  lemma JoinedOn(s: State, t: State, u: State, now: int)
    requires Joined(s, t, now) && Joined(t, u, now)
    ensures Joined(s, u, now)
  {
    hide NoReset;
    NoResetOn(s.told, t.told, u.told);
  }

  lemma {:induction false} BirthsJoin(s: State, k: nat, now: int, rules: Rules)
    requires k <= |s.pregnancies|
    ensures Joined(s, BirthsFrom(s, k, now, rules), now)
    decreases |s.pregnancies| - k
  {
    hide Birth; hide Joined; hide Dropped;
    if k == |s.pregnancies| {
      NobodyJoined(s, s, now);
    } else if s.pregnancies[k].due > now {
      BirthsJoin(s, k + 1, now, rules);
    } else {
      var t := Birth(s, s.pregnancies[k].mother, now, rules);
      var u := t.(pregnancies := Dropped(s.pregnancies, k));
      BirthJoins(s, s.pregnancies[k].mother, now, rules);
      NobodyJoined(t, u, now);
      JoinedOn(s, t, u, now);
      BirthsJoin(u, k, now, rules);
      JoinedOn(s, u, BirthsFrom(u, k, now, rules), now);
    }
  }

  lemma NewbornStays(child: Child, now: int, rules: Rules)
    requires child.born == now
    ensures !IsOut(child, now, rules)
  {
  }

  /** What is left of the children before the walk, and who joined them. */
  lemma BeforeTheWalkChildren(s: State, now: int, rules: Rules, child: Child)
    requires Sound(s) && IsAmong(s.children, child)
    ensures var t := BeforeTheWalk(s, now, rules);
            && NoReset(s.told, t.told)
            && (IsAmong(t.children, child) <==> !IsOut(child, now, rules))
  {
    hide Sound; hide Standing; hide Washed; hide LaidEggs; hide GrownFrom; hide CourtedFrom; hide BirthsFrom; hide IsOut;
    var a := LaidEggs(Washed(s, now), now, rules);
    EggsStand(s, now, rules);
    var b := GrownFrom(a, 0, now, rules);
    GrownLeaves(a, 0, now, rules);
    var c := CourtedFrom(b, 0, now, rules);
    CourtedSame(b, 0, now, rules);
    var d := BirthsFrom(c, 0, now, rules);
    BirthsJoin(c, 0, now, rules);
    var j :| 0 <= j < |s.children| && IsSame(child, s.children[j]);
    OutAlike(child, s.children[j], now, rules);
    if !IsOut(child, now, rules) {
      assert s.children[j] in b.children;
      var k :| 0 <= k < |b.children| && b.children[k] == s.children[j];
      assert IsSame(child, c.children[k]) && d.children[k] == c.children[k];
    }
    if IsAmong(d.children, child) {
      var k :| 0 <= k < |d.children| && IsSame(child, d.children[k]);
      OutAlike(child, d.children[k], now, rules);
      if k < |c.children| {
        assert b.children[k] in b.children;
        OutAlike(b.children[k], c.children[k], now, rules);
      } else {
        NewbornStays(d.children[k], now, rules);
      }
    }
  }

  lemma OutAlike(child: Child, other: Child, now: int, rules: Rules)
    requires IsSame(child, other)
    ensures IsOut(child, now, rules) <==> IsOut(other, now, rules)
  {
  }

  lemma EggsStand(s: State, now: int, rules: Rules)
    requires Sound(s)
    ensures var t := LaidEggs(Washed(s, now), now, rules);
            Standing(t) && t.children == s.children && NoReset(s.told, t.told)
  {
    hide Sound; hide Standing; hide Total; hide Keeping.EggsDue; hide Washed; hide LaidEggs; hide Settling.Walked;
    Keeping.FedWalks(s, now, rules, "");
    Settling.SoundAfter(s, Keeping.Fed(s, now, rules), 0, 0, now, "");
    Settling.SoundStands(Keeping.Fed(s, now, rules));
    Keeping.FedTells(s, now, rules);
  }

  lemma SoundShown(s: State)
    requires Sound(s)
    ensures AllShown(s)
  {
    hide RidesSound; hide OnePlace; hide Mapped; hide Housed; hide Solvent; hide Holding; hide IsChildFace;
    forall child | child in s.children
      ensures IsChildFace(FaceOf(s.house, child))
    {
      var j :| 0 <= j < |s.children| && s.children[j] == child;
    }
  }

  lemma ToldSince(s: State, t: State, u: State, owner: string)
    requires NoReset(s.told, t.told) && t.told <= u.told
    ensures ResetTold(u.told, |s.told|, owner) <==> ResetTold(u.told, |t.told|, owner)
  {
    forall k | |s.told| <= k < |t.told|
      ensures !u.told[k].Wiped?
    {
      assert u.told[k] == t.told[k];
    }
  }

  /** The keeper's round leaves a child where it is exactly when it has not lived all its ages and its owner does not start
      over: no explosion, no boarding, no birth and no present ever takes its slot. */
  lemma RoundChildren(s: State, now: int, rules: Rules, child: Child)
    requires Sound(s) && IsAmong(s.children, child)
    ensures var t := Round(s, now, rules);
            IsAmong(t.children, child) <==> !IsOut(child, now, rules) && !ResetTold(t.told, |s.told|, child.owner)
  {
    hide Sound; hide BeforeTheWalk; hide Walk; hide IsOut; hide UnderWay; hide AllShown; hide Settling.Walked;
    var t := BeforeTheWalk(s, now, rules);
    BeforeTheWalkChildren(s, now, rules, child);
    Keeping.BeforeTheWalkKeeps(s, now, rules, "");
    SoundShown(t);
    var u := Walk(t, 0, now, rules);
    WalkSifts(t, 0, now, rules);
    ToldSince(s, t, u, child.owner);
    if IsAmong(t.children, child) && !ResetTold(u.told, |t.told|, child.owner) {
      var j :| 0 <= j < |t.children| && IsSame(child, t.children[j]);
      assert t.children[j] in u.children;
    }
    if IsAmong(u.children, child) {
      var j :| 0 <= j < |u.children| && IsSame(child, u.children[j]);
      assert u.children[j] in t.children;
    }
  }

  // ---------------------------------------------------------------- any transaction

  /** Where a child lives once some emoji were, or were not, moved. */
  function Placed(s: State, player: string, from: int, to: int, limit: nat, now: int, child: Child): Child {
    var t := GoneHome(s, player, now);
    if from != to && t.Done? && MoveAnswer(t.value, player, from, to, limit) == Moved
    then ChildSlot(child, player, from - 1, to - 1) else child
  }

  /** Where a child lives after a transaction: its slot changes only when its emoji is moved. */
  function Follows(s: State, command: Command, child: Child): Child {
    match command
    case MoveEmoji(player, from, to, limit, now) => Placed(s, player, from, to, limit, now, child)
    case _ => child
  }

  /** It is the child somebody burns. */
  predicate IsBurned(s: State, player: string, emoji: string, destroy: bool, child: Child) {
    var burned := Burning.FirstChildLike(s, player, emoji, 0);
    && Burning.BurnAnswer(s, player, emoji, destroy) == Burning.Burned && Finding(s, player, emoji) == Nowhere
    && burned.Some? && IsSame(child, s.children[burned.value])
  }

  /** Since then, the whole game was told to start over. */
  ghost predicate OverTold(told: seq<Event>, from: nat) {
    exists k :: from <= k < |told| && told[k].Over?
  }

  /** What takes a child away. */
  ghost predicate IsLost(s: State, command: Command, child: Child) {
    var told := Next(s, command).told;
    match command
    case KeepRound(now, rules) => IsOut(child, now, rules) || ResetTold(told, |s.told|, child.owner)
    case BurnEmoji(player, emoji, now, rules, destroy) =>
      IsBurned(s, player, emoji, destroy, child) || OverTold(told, |s.told|) || ResetTold(told, |s.told|, child.owner)
    case _ => false
  }

  lemma SiftedAmong(s: State, t: State, child: Child)
    requires Sifted(s, t)
    ensures IsAmong(t.children, child) <==> IsAmong(s.children, child) && !ResetTold(t.told, |s.told|, child.owner)
  {
    if IsAmong(t.children, child) {
      var j :| 0 <= j < |t.children| && IsSame(child, t.children[j]);
      assert t.children[j] in s.children;
    }
    if IsAmong(s.children, child) && !ResetTold(t.told, |s.told|, child.owner) {
      var j :| 0 <= j < |s.children| && IsSame(child, s.children[j]);
      assert s.children[j] in t.children;
    }
  }

  lemma DroppedAmong(house: Place, children: seq<Child>, k: nat, child: Child)
    requires Raised(house, children) && k < |children| && IsAmong(children, child)
    ensures IsAmong(Dropped(children, k), child) <==> !IsSame(child, children[k])
  {
    hide IsChildFace;
    var j :| 0 <= j < |children| && IsSame(child, children[j]);
    if j < k {
      assert Dropped(children, k)[j] == children[j];
    } else if j > k {
      assert Dropped(children, k)[j - 1] == children[j];
    }
  }

  lemma RaisedThere(s: State)
    requires Sound(s)
    ensures Raised(s.house, s.children)
  {
  }

  lemma BurntChildLost(s: State, k: nat, child: Child)
    requires Sound(s) && k < |s.children| && IsAmong(s.children, child)
    ensures var t := Burning.BurntChild(s, k);
            && (IsAmong(t.children, child) <==> !IsSame(child, s.children[k]))
            && t.told == s.told + [Went(At(s.house, s.children[k].owner, s.children[k].slot))]
  {
    hide Sound; hide Raised; hide Dropped; hide Put; hide At; hide IsAmong;
    RaisedThere(s);
    DroppedAmong(s.house, s.children, k, child);
  }

  lemma TakenFaces(s: State, player: string, emoji: string)
    ensures SameFaces(s, TakenFrom(s, player, emoji))
  {
    hide Finding; hide SameFaces; hide InHouse; hide OnHim; hide IsChild; hide Looks;
    SameHouseFaces(s, s);
    var found := Finding(s, player, emoji);
    if found.Kept? {
      OtherSlot(s, player, found.slot, "");
    } else if found.Carried? {
      SameHouseFaces(s, OnHim(s, player, found.slot, ""));
    }
  }

  lemma GoneSifts(s: State, player: string, emoji: string)
    ensures Sifted(s, Burning.Gone(s, player, emoji))
    ensures |Burning.Gone(s, player, emoji).told| > |s.told| && NoOver(s.told, Burning.Gone(s, player, emoji).told)
  {
    hide TakenFrom; hide Finding; hide Content; hide Sifted; hide SameFaces;
    TakenFaces(s, player, emoji);
    FacesOf(s, TakenFrom(s, player, emoji), Burning.Gone(s, player, emoji));
    SiftedStays(s, Burning.Gone(s, player, emoji));
  }

  ghost predicate NoOver(told: seq<Event>, told': seq<Event>) {
    told <= told' && forall k | |told| <= k < |told'| :: !told'[k].Over?
  }

  lemma DropsNoOver(s: State, player: string, emoji: string, now: int, rules: Rules)
    ensures NoOver(s.told, Burning.ThrownAtPlace(s, player, emoji, now, rules).told)
  {
    hide Landed; hide NoOver; hide Burning.LandsOnHolder;
    SameTold(s.told);
    if s.current.Some? {
      LandsNoOver(s, emoji, player, s.current.value.username, now, rules);
    }
  }

  lemma SameTold(told: seq<Event>)
    ensures NoOver(told, told)
  {
  }

  lemma LandsNoOver(s: State, thrown: string, thrower: string, victim: string, now: int, rules: Rules)
    ensures NoOver(s.told, Landed(s, thrown, thrower, victim, AtPlace, 0, now, rules).told)
  {
    hide NoOver; hide PowerOf; hide Bombed; hide StartedOver; hide Smeared; hide Expecting; hide Rides.Frozen;
    SameTold(s.told);
    BombsNoOver(s, thrower, victim, rules);
    ResetNoOver(s, victim, now);
  }

  lemma ResetNoOver(s: State, player: string, now: int)
    ensures NoOver(s.told, StartedOver(s, player, 0, now).told)
  {
    hide StartedOver;
    StartedOverTells(s, player, 0, now);
    var t := StartedOver(s, player, 0, now);
    assert !t.told[|s.told|].Over? && !t.told[|s.told| + 1].Over?;
  }

  lemma BombsNoOver(s: State, thrower: string, victim: string, rules: Rules)
    ensures NoOver(s.told, Bombed(s, thrower, victim, AtPlace, rules).told)
  {
    hide NoOver; hide BlownUp; hide Lucky; hide Rolled;
    BlowsNoOver(Rolled(s), thrower, true);
    BlowsNoOver(Tried(s, rules.bombDudPercent), victim, true);
  }

  lemma BlowsNoOver(s: State, target: string, onHim: bool)
    ensures NoOver(s.told, BlownUp(s, target, onHim).told)
  {
    hide Exposed; hide InHouse; hide OnHim; hide SlotsIn; hide Roll;
  }

  lemma ThrownAtPlaceSifts(s: State, player: string, emoji: string, now: int, rules: Rules)
    requires AllShown(s)
    ensures Sifted(s, Burning.ThrownAtPlace(s, player, emoji, now, rules))
  {
    hide Sifted; hide Landed; hide Burning.LandsOnHolder; hide AllShown;
    SameHouseSifts(s, s);
    if s.current.Some? {
      LandedSifts(s, emoji, player, s.current.value.username, AtPlace, 0, now, rules);
    }
  }

  /** Neither a reset of the game nor of a house was told. */
  lemma Quiet(told: seq<Event>, told': seq<Event>, owner: string)
    ensures NoOver(told, told') ==> !OverTold(told', |told|)
    ensures NoReset(told, told') ==> !ResetTold(told', |told|, owner)
  {
  }

  lemma NoOverOn(told: seq<Event>, told': seq<Event>, told'': seq<Event>)
    requires NoOver(told, told') && NoOver(told', told'')
    ensures NoOver(told, told'')
  {
    forall k | |told| <= k < |told'|
      ensures !told''[k].Over?
    {
      assert told''[k] == told'[k];
    }
  }

  /** What is thrown on whoever holds the place, with all that was told of it. */
  lemma ThrownChildren(s: State, player: string, emoji: string, now: int, rules: Rules, child: Child)
    requires Sound(s) && IsAmong(s.children, child)
    ensures var t := Burning.ThrownAtPlace(Burning.Gone(s, player, emoji), player, emoji, now, rules);
            && (IsAmong(t.children, child) <==> !ResetTold(t.told, |s.told|, child.owner))
            && !OverTold(t.told, |s.told|)
  {
    hide Burning.Gone; hide Burning.ThrownAtPlace; hide Sifted; hide NoOver; hide OverTold; hide ResetTold; hide IsAmong; hide Sound;
    hide AllShown;
    var t := Burning.Gone(s, player, emoji);
    var u := Burning.ThrownAtPlace(t, player, emoji, now, rules);
    SoundShown(s);
    GoneSifts(s, player, emoji);
    SiftedShown(s, t);
    ThrownAtPlaceSifts(t, player, emoji, now, rules);
    SiftedOn(s, t, u);
    SiftedAmong(s, u, child);
    DropsNoOver(t, player, emoji, now, rules);
    NoOverOn(s.told, t.told, u.told);
    Quiet(s.told, u.told, child.owner);
  }

  lemma GoneChildren(s: State, player: string, emoji: string, child: Child)
    requires IsAmong(s.children, child)
    ensures var t := Burning.Gone(s, player, emoji);
            IsAmong(t.children, child) && !ResetTold(t.told, |s.told|, child.owner) && !OverTold(t.told, |s.told|)
  {
    hide TakenFrom; hide Finding; hide Content; hide IsAmong;
  }

  lemma AgainTold(s: State, player: string, emoji: string)
    ensures var t := Burning.StartedAgain(Burning.Gone(s, player, emoji)); t.children == [] && OverTold(t.told, |s.told|)
  {
    hide TakenFrom; hide Finding; hide Content; hide Burning.KnownPlayers;
    var t := Burning.Gone(s, player, emoji);
    assert Burning.StartedAgain(t).told[|t.told|].Over?;
  }

  lemma BurnOwnChildren(s: State, player: string, emoji: string, now: int, rules: Rules, destroy: bool, child: Child)
    requires Sound(s) && IsAmong(s.children, child) && Finding(s, player, emoji) == Nowhere
    ensures var command := BurnEmoji(player, emoji, now, rules, destroy);
            IsAmong(Next(s, command).children, child) <==> !IsLost(s, command, child)
  {
    hide Sound; hide IsAmong; hide Finding; hide Burning.FirstChildLike; hide Burning.BurntChild; hide Burning.BurnAnswer;
    hide ResetTold; hide OverTold; hide IsSame; hide NoReset; hide NoOver;
    SameTold(s.told);
    NothingTold(s.told);
    Quiet(s.told, s.told, child.owner);
    var burned := Burning.FirstChildLike(s, player, emoji, 0);
    if burned.Some? {
      BurntChildLost(s, burned.value, child);
      BurntTold(s, burned.value);
      Quiet(s.told, Burning.BurntChild(s, burned.value).told, child.owner);
    }
  }

  lemma BurnChildren(s: State, player: string, emoji: string, now: int, rules: Rules, destroy: bool, child: Child)
    requires Sound(s) && IsAmong(s.children, child)
    ensures var command := BurnEmoji(player, emoji, now, rules, destroy);
            IsAmong(Next(s, command).children, child) <==> !IsLost(s, command, child)
  {
    hide Sound; hide IsAmong; hide Burning.Gone; hide Finding; hide LostBolts; hide Burning.FirstChildLike;
    hide Burning.ThrownAtPlace; hide Burning.StartedAgain; hide IsPower; hide Burning.BurnAnswer; hide ResetTold; hide OverTold;
    hide IsSame; hide NoReset; hide NoOver;
    if Finding(s, player, emoji) == Nowhere {
      BurnOwnChildren(s, player, emoji, now, rules, destroy, child);
    } else {
      SameTold(s.told);
      NothingTold(s.told);
      Quiet(s.told, s.told, child.owner);
      GoneChildren(s, player, emoji, child);
      AgainTold(s, player, emoji);
      NoneAmong(child);
      ThrownChildren(s, player, emoji, now, rules, child);
    }
  }

  lemma NoneAmong(child: Child)
    ensures !IsAmong([], child)
  {
  }

  lemma BurntTold(s: State, k: nat)
    requires k < |s.children|
    ensures NoReset(s.told, Burning.BurntChild(s, k).told) && NoOver(s.told, Burning.BurntChild(s, k).told)
  {
    hide Dropped; hide Put; hide At;
  }

  // ---------------------------------------------------------------- the ones that never touch a child

  lemma OustedSpares(s: State, userId: int, player: string, now: int, rules: ClaimRules)
    requires s.current.Some?
    ensures var t := Ousted(s, userId, player, now, rules); t.Done? ==> t.value.children == s.children
  {
    hide SettledHold; hide MovedIn;
  }

  lemma MetSpares(s: State, userId: int, player: string, now: int, rules: ClaimRules)
    requires s.current.Some?
    ensures var t := Met(s, userId, player, now, rules); t.Done? ==> t.value.children == s.children
  {
    hide IsStopped; hide AfterBalloon; hide Penalized; hide Ousted;
    OustedSpares(AfterBalloon(s, player, s.current.value.username, now, rules), userId, player, now, rules);
  }

  lemma ClaimSpares(s: State, userId: int, player: string, now: int, rules: ClaimRules)
    ensures var t := Claim(s, userId, player, now, rules); t.Done? ==> t.value.children == s.children
  {
    hide Ready; hide SentAway; hide Met; hide MovedIn;
    var t := Ready(s, userId, player);
    if HolderThere(t) {
      MetSpares(t, userId, player, now, rules);
    }
  }

  lemma RaidStartSpares(s: State, userId: int, player: string, known: Option<string>, homewards: bool, load: Load, now: int,
                        rules: Rules)
    ensures var t := RaidStart(s, userId, player, known, homewards, load, now, rules);
            t.Done? ==> t.value.children == s.children
  {
    hide Remembered; hide RaidAnswer; hide Homewards; hide SetOff; hide PickedUp; hide IsLate;
    var u := s.(names := Remembered(s.names, player, userId));
    var answer := RaidAnswer(s, player, known, homewards, load, now, rules);
    var t := PickedUp(u, player, load.gift);
    assert t.children == s.children;
    if homewards {
      HomewardsSpares(u, player, now);
    } else if answer == Started {
      SetOffSpares(t, player, known.value, load, now, rules);
    }
  }

  lemma HomewardsSpares(s: State, player: string, now: int)
    ensures var t := Homewards(s, player, now); t.Done? ==> t.value.children == s.children
  {
    hide Homewards;
  }

  lemma SetOffSpares(s: State, player: string, target: string, load: Load, now: int, rules: Rules)
    ensures var t := SetOff(s, player, target, load, now, rules); t.Done? ==> t.value.children == s.children
  {
    hide SetOff;
  }

  lemma BuySpares(s: State, player: string, emoji: string, position: int, cost: int, limit: nat, now: int, inflation: int)
    ensures var t := Buy(s, player, emoji, position, cost, limit, now, inflation); t.Done? ==> t.value.children == s.children
  {
    hide GoneHome; hide BuyAnswer; hide SpotFor; hide Price; hide Paying;
  }

  lemma TakeSpares(s: State, player: string, emoji: string, swap: string, now: int)
    ensures var t := Take(s, player, emoji, swap, now); t.Done? ==> t.value.children == s.children
  {
    hide GoneHome; hide WhereIs; hide PutAcross; hide HouseLike; hide RoomOnHim; hide NamesChild; hide FirstLike;
  }

  lemma StoreSpares(s: State, player: string, emoji: string, limit: nat, now: int)
    ensures var t := Store(s, player, emoji, limit, now); t.Done? ==> t.value.children == s.children
  {
    hide GoneHome; hide WhereIs; hide PutAcross; hide FreeSlot; hide FirstLike;
  }

  lemma LinkSpares(s: State, mine: string, userId: int, other: Option<string>)
    ensures var t := Linking.Link(s, mine, userId, other); t.Done? ==> t.value.children == s.children
  {
    hide Named; hide LinkAnswer; hide Asked; hide MergedNames; hide HasAssets; hide IsTheirs;
    hide Linking.Link;
    if mine in s.names.accounts {
      LinkDoes(s, mine, userId, other);
    } else {
      NotSeen(s, mine, userId, other);
    }
  }

  lemma {:induction false} HandedOutSpares(s: State, players: seq<string>, limit: nat)
    ensures HandedOut(s, players, limit).children == s.children
  {
    hide Greeted;
    if players != [] {
      HandedOutSpares(s, players[..|players| - 1], limit);
    }
  }

  lemma StaysPut(s: State, command: Command)
    requires !command.KeepRound? && !command.BurnEmoji? && !command.MoveEmoji?
    ensures Next(s, command).children == s.children
  {
    hide Claim; hide RaidStart; hide Buy; hide Take; hide Store; hide Burning.BurnPalle; hide Seen; hide Linking.Link; hide InviteDue;
    hide HandedOut; hide Quoting.AddQuote; hide Quoting.DeleteQuote;
    match command
    case ClaimPlace(userId, player, now, claims) => ClaimSpares(s, userId, player, now, claims);
    case StartRaid(userId, player, known, homewards, load, now, rules) =>
      RaidStartSpares(s, userId, player, known, homewards, load, now, rules);
    case BuyEmoji(player, emoji, position, cost, limit, now, inflation) =>
      BuySpares(s, player, emoji, position, cost, limit, now, inflation);
    case TakeGear(player, emoji, swap, now) => TakeSpares(s, player, emoji, swap, now);
    case StoreGear(player, emoji, limit, now) => StoreSpares(s, player, emoji, limit, now);
    case LinkAccounts(mine, userId, other) => LinkSpares(s, mine, userId, other);
    case DestroyPalle(player, amount) =>
    case BeSeen(userId, username, account, candidate, limit, now, today) =>
    case RecordInvite(newcomer, inviter, now) =>
    case SettleInvite(newcomer, samePerson) =>
    case HandOutBalloons(players, limit) => HandedOutSpares(s, players, limit);
    case AddQuote(player, quote, cost) =>
    case DeleteQuote(selector) =>
  }

  lemma MovedAmong(children: seq<Child>, player: string, from: nat, to: nat, child: Child)
    requires IsAmong(children, child)
    ensures IsAmong(ChildrenMoved(children, player, from, to), ChildSlot(child, player, from, to))
  {
    var j :| 0 <= j < |children| && IsSame(child, children[j]);
    assert IsSame(ChildSlot(child, player, from, to), ChildrenMoved(children, player, from, to)[j]);
  }

  lemma MovedChildren(s: State, player: string, from: int, to: int, limit: nat, now: int, child: Child)
    requires IsAmong(s.children, child)
    ensures var t := Move(s, player, from, to, limit, now);
            t.Done? ==> IsAmong(t.value.children, Placed(s, player, from, to, limit, now, child))
    ensures Move(s, player, from, to, limit, now).Abandoned? ==> Placed(s, player, from, to, limit, now, child) == child
  {
    hide GoneHome; hide MoveAnswer; hide IsAmong; hide ChildrenMoved; hide ChildSlot; hide Rearranged; hide Move;
    var t := GoneHome(s, player, now);
    MoveMeans(s, player, from, to, limit, now);
    if from != to && t.Done? && MoveAnswer(t.value, player, from, to, limit) == Moved {
      MovedAmong(s.children, player, from - 1, to - 1, child);
      RearrangedChildren(t.value, player, from - 1, to - 1);
    }
  }

  lemma MoveChildren(s: State, player: string, from: int, to: int, limit: nat, now: int, child: Child)
    requires IsAmong(s.children, child)
    ensures var command := MoveEmoji(player, from, to, limit, now);
            IsAmong(Next(s, command).children, Follows(s, command, child))
  {
    hide Move; hide IsAmong; hide Placed;
    MovedChildren(s, player, from, to, limit, now, child);
  }

  lemma RearrangedChildren(s: State, player: string, from: nat, to: nat)
    requires from < |HouseSlots(s, player)|
    ensures Rearranged(s, player, from, to).children == ChildrenMoved(s.children, player, from, to)
  {
    hide Hung; hide Exchanged; hide ChildrenMoved;
  }

  /** What a move that does not take place leaves alone. */
  lemma MoveMeans(s: State, player: string, from: int, to: int, limit: nat, now: int)
    ensures var t, u := GoneHome(s, player, now), Move(s, player, from, to, limit, now);
            if from != to && t.Done? && MoveAnswer(t.value, player, from, to, limit) == Moved
            then u == Done(Rearranged(t.value, player, from - 1, to - 1))
            else u.Done? ==> u.value.children == s.children && u.value.house == s.house
  {
    hide GoneHome; hide Rearranged; hide WhereIs;
  }

  /** A child is lost to its age, to a reset or to a fire, exactly; otherwise it is where it was, or where it was moved. */
  lemma NextChildren(s: State, command: Command, child: Child)
    requires Sound(s) && IsAmong(s.children, child)
    ensures IsAmong(Next(s, command).children, Follows(s, command, child)) <==> !IsLost(s, command, child)
  {
    hide Sound; hide IsAmong; hide Made;
    match command
    case KeepRound(now, rules) => KeptChildren(s, now, rules, child);
    case BurnEmoji(player, emoji, now, rules, destroy) => BurnChildren(s, player, emoji, now, rules, destroy, child);
    case MoveEmoji(player, from, to, limit, now) => MoveChildren(s, player, from, to, limit, now, child);
    case _ => StaysPut(s, command);
  }

  lemma KeptChildren(s: State, now: int, rules: Rules, child: Child)
    requires Sound(s) && IsAmong(s.children, child)
    ensures var command := KeepRound(now, rules);
            IsAmong(Next(s, command).children, child) <==> !IsLost(s, command, child)
  {
    hide Sound; hide IsAmong; hide Family.Round; hide IsOut; hide ResetTold;
    RoundChildren(s, now, rules, child);
  }

  // ---------------------------------------------------------------- every run

  /** A child through a run, until it is lost. */
  ghost function Followed(s: State, commands: seq<Command>, child: Child): Option<Child> {
    if commands == [] then Some(child) else
    var before, last := Run(s, commands[..|commands| - 1]), commands[|commands| - 1];
    var sofar :- Followed(s, commands[..|commands| - 1], child);
    if IsLost(before, last, sofar) then None else Some(Follows(before, last, sofar))
  }

  lemma ChildThere(s: State, child: Child)
    requires Sound(s) && IsAmong(s.children, child)
    ensures IsChildFace(At(s.house, child.owner, child.slot))
  {
    hide IsChildFace; hide At;
    RaisedThere(s);
  }

  /** Over every run a child is in its house, and its slot shows a child, until it has lived all its ages, or its house starts
      over, or it is burned. */
  lemma {:induction false} RunChildren(s: State, commands: seq<Command>, child: Child)
    requires Sound(s) && IsAmong(s.children, child) && forall k | 0 <= k < |commands| :: IsSensible(commands[k])
    ensures var t, now := Run(s, commands), Followed(s, commands, child);
            now.Some? ==>
              && IsAmong(t.children, now.value) && now.value.owner == child.owner
              && IsChildFace(At(t.house, now.value.owner, now.value.slot))
  {
    hide Sound; hide IsAmong; hide Next; hide IsLost; hide Follows; hide IsSensible; hide At; hide IsChildFace; hide Plays;
    if commands == [] {
      ChildThere(s, child);
    } else {
      var front, last := commands[..|commands| - 1], commands[|commands| - 1];
      RunChildren(s, front, child);
      RunKeeps(s, front, "");
      RunKeeps(s, commands, "");
      PlayedSound(s, Run(s, front), "");
      PlayedSound(s, Run(s, commands), "");
      var sofar := Followed(s, front, child);
      if sofar.Some? && !IsLost(Run(s, front), last, sofar.value) {
        NextChildren(Run(s, front), last, sofar.value);
        FollowsHome(Run(s, front), last, sofar.value);
        ChildThere(Run(s, commands), Follows(Run(s, front), last, sofar.value));
      }
    }
  }

  lemma FollowsHome(s: State, command: Command, child: Child)
    ensures Follows(s, command, child).owner == child.owner
  {
    hide GoneHome; hide MoveAnswer;
  }
}
