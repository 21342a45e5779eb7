/** What the keeper's round keeps, step by step: the laws of the game and the two ledgers. */
module Settling {
  import opened Basics
  import opened Powers
  import opened Ledger
  import opened Places
  import opened World
  import opened Laws
  import opened Rides
  import Position

  /** What a reset leaves of a ride: nothing, and it is over now. */
  function EmptiedRide(raid: Raid, now: int): Raid {
    raid.(arrived := true, back := now, loot := 0, gift := 0, giftEmoji := "")
  }

  /** While one ride is being settled, another may be emptied by a reset and changes in no other way; the one itself
      stays the ride it was, and once it got there it got there. */
  ghost predicate SameRides(raids: seq<Raid>, raids': seq<Raid>, ride: int, now: int) {
    && |raids'| == |raids|
    && (forall j | 0 <= j < |raids| && j != ride :: raids'[j] == raids[j] || raids'[j] == EmptiedRide(raids[j], now))
    && (0 <= ride < |raids| ==>
          && raids'[ride].raider == raids[ride].raider && raids'[ride].target == raids[ride].target
          && raids'[ride].arrive == raids[ride].arrive && (raids[ride].arrived ==> raids'[ride].arrived))
  }

  /** Palle or emoji that a reset wipes, and emoji that come and go. */
  predicate IsGoods(event: Event) {
    event.Wiped? || event.Came? || event.Went?
  }

  /** Nothing else is told: nobody is paid or spends, and nobody is home. */
  ghost predicate GoodsTold(told: seq<Event>, told': seq<Event>) {
    told <= told' && forall k | |told| <= k < |told'| :: IsGoods(told'[k])
  }

  /** Since then he was told to start over. */
  ghost predicate WipedSince(told: seq<Event>, from: nat, player: string) {
    exists k :: from <= k < |told| && told[k].Wiped? && told[k].player == player
  }

  /** Of the rides that are not at hand, exactly those are emptied whose raider is told to start over. */
  ghost predicate WipesEmpty(raids: seq<Raid>, raids': seq<Raid>, told: seq<Event>, told': seq<Event>, ride: int, now: int) {
    && |raids'| == |raids|
    && forall j | 0 <= j < |raids| && j != ride ::
         raids'[j] == if WipedSince(told', |told|, raids[j].raider) then EmptiedRide(raids[j], now) else raids[j]
  }

  /** One thing that happens in the round: the laws hold again, the books are the same, and if what the holder has on
      him is spared, so are his bolts. */
  ghost predicate Step(s: State, t: State, spared: bool, walked: int, now: int, face: string) {
    && Standing(t)
    && Accounted(s, t, walked, now, face)
    && SameRides(s.raids, t.raids, walked, now)
    && GoodsTold(s.told, t.told)
    && WipesEmpty(s.raids, t.raids, s.told, t.told, walked, now)
    && (t.current == s.current || t.current.None?)
    && (spared && Holding(s.current, s.gear) ==> Holding(t.current, t.gear))
  }

  lemma StepOn(s: State, t: State, u: State, spared: bool, walked: int, now: int, face: string)
    requires Step(s, t, spared, walked, now, face) && Step(t, u, spared, walked, now, face)
    ensures Step(s, u, spared, walked, now, face)
  {
    hide Standing; hide Holding;
  }

  lemma StepWeaker(s: State, t: State, spared: bool, spared': bool, walked: int, now: int, face: string)
    requires Step(s, t, spared, walked, now, face) && (spared' ==> spared)
    ensures Step(s, t, spared', walked, now, face)
  {
  }

  /** Whatever the ledgers and the laws do not speak of may change. */
  lemma QuietStep(s: State, t: State, walked: int, now: int, face: string)
    requires Standing(s)
    requires t == s.(balloons := t.balloons, cooldowns := t.cooldowns, smeared := t.smeared, frozen := t.frozen,
                     pregnancies := t.pregnancies, knocks := t.knocks, luck := t.luck)
    ensures Step(s, t, true, walked, now, face)
  {
    hide Solvent; hide RidesSound; hide OnePlace; hide Mapped; hide Housed; hide Raised; hide Holding;
  }

  lemma ShareBounds(copies: int, percent: int)
    requires copies >= 0
    ensures 0 <= Share(copies, percent) <= 100
  {
    assert copies * Max(percent, 0) >= 0;
  }

  // ---------------------------------------------------------------- what lands

  lemma GearBlown(s: State, target: string, hit: nat, walked: int, now: int, face: string)
    requires Standing(s) && hit < |GearSlots(s, target)|
    ensures var t := Tell(OnHim(s, target, hit, ""), Went(GearSlots(s, target)[hit]));
            Step(s, t, !IsHolder(s.current, target), walked, now, face)
  {
    hide Solvent; hide RidesSound; hide OnePlace; hide Mapped; hide Raised; hide Holding;
    hide Put; hide PalleMade; hide EmojiMade; hide Total; hide OnTheRoad;
    ToldOne(s.told, Went(GearSlots(s, target)[hit]), face);
    assert |SlotsIn(s.gear, target)| <= CARRIED_LIMIT;
    GearPut(s.house, s.gear, s.current, target, hit, "");
    CopiesPut(s.gear, target, hit, "", face);
  }

  lemma HouseBlown(s: State, target: string, hit: nat, walked: int, now: int, face: string)
    requires Standing(s) && hit < |HouseSlots(s, target)| && !IsChild(s.children, target, hit)
    ensures var t := Tell(InHouse(s, target, hit, ""), Went(HouseSlots(s, target)[hit]));
            Step(s, t, true, walked, now, face)
  {
    hide Solvent; hide RidesSound; hide OnePlace; hide Mapped; hide Raised; hide Housed; hide IsChild;
    hide Put; hide PalleMade; hide EmojiMade; hide Total; hide OnTheRoad;
    ToldOne(s.told, Went(HouseSlots(s, target)[hit]), face);
    HousePut(s.house, s.gear, s.children, target, hit, "");
    CopiesPut(s.house, target, hit, "", face);
  }

  lemma BlownUpSteps(s: State, target: string, onHim: bool, walked: int, now: int, face: string)
    requires Standing(s)
    ensures Step(s, BlownUp(s, target, onHim), !onHim || !IsHolder(s.current, target), walked, now, face)
  {
    hide PowerOf; hide Step; hide IsChild; hide OnHim; hide InHouse;
    var slots := if onHim then GearSlots(s, target) else HouseSlots(s, target);
    var there := Exposed(slots, |slots|);
    if there == [] {
      QuietStep(s, s, walked, now, face);
      StepWeaker(s, s, true, !onHim || !IsHolder(s.current, target), walked, now, face);
    } else {
      var hit := there[Roll(s, |there|)];
      assert IsExposed(slots[hit]);
      if onHim {
        var t := Tell(OnHim(s, target, hit, ""), Went(slots[hit]));
        GearBlown(s, target, hit, walked, now, face);
        RolledStep(s, t, !IsHolder(s.current, target), walked, now, face);
      } else {
        var t := Tell(InHouse(s, target, hit, ""), Went(slots[hit]));
        NoChildThere(s.house, s.children, target, hit);
        HouseBlown(s, target, hit, walked, now, face);
        RolledStep(s, t, true, walked, now, face);
      }
    }
  }

  lemma RolledStep(s: State, t: State, spared: bool, walked: int, now: int, face: string)
    requires Step(s, t, spared, walked, now, face)
    ensures Step(s, Rolled(t), spared, walked, now, face)
    ensures spared ==> Step(s, Rolled(t), true, walked, now, face)
  {
    assert Standing(t);
    QuietStep(t, Rolled(t), walked, now, face);
    StepWeaker(t, Rolled(t), true, spared, walked, now, face);
    StepOn(s, t, Rolled(t), spared, walked, now, face);
  }

  lemma {:induction false} ElsewhereRaised(house: Place, children: seq<Child>, player: string)
    requires Raised(house, children)
    ensures Raised(house, Elsewhere(children, player))
  {
    hide IsChildFace;
    if children != [] {
      ElsewhereRaised(house, children[..|children| - 1], player);
    }
  }

  lemma EmptiedOne(raids: seq<Raid>, player: string, now: int)
    requires forall j, k | 0 <= j < k < |raids| :: raids[j].raider != raids[k].raider
    ensures Emptied(raids, player, now) ==
              match RideOf(raids, player)
              case None => raids
              case Some(j) => raids[j := raids[j].(arrived := true, back := now, loot := 0, gift := 0, giftEmoji := "")]
  {
  }

  lemma EmptiedRoad(raids: seq<Raid>, player: string, walked: nat, now: int, face: string)
    requires OnePlace(raids, None)
    ensures OnTheRoad(Emptied(raids, player, now), walked, now, LOAD) ==
              OnTheRoad(raids, walked, now, LOAD) - LostPalle(Losing(raids, player, walked, now))
    ensures OnTheRoad(Emptied(raids, player, now), walked, now, GiftCopies(face)) ==
              OnTheRoad(raids, walked, now, GiftCopies(face)) - Copy(LostGift(Losing(raids, player, walked, now)), face)
  {
    hide Emptied;
    hide RideOf;
    EmptiedOne(raids, player, now);
    var ride := RideOf(raids, player);
    if ride.Some? {
      var raid := raids[ride.value].(arrived := true, back := now, loot := 0, gift := 0, giftEmoji := "");
      RoadSet(raids, ride.value, raid, walked, now, LOAD);
      RoadSet(raids, ride.value, raid, walked, now, GiftCopies(face));
    }
  }

  /** A ride that ends with nothing is as sound as it was. */
  lemma EmptiedSound(raids: seq<Raid>, current: Option<Holder>, ids: map<string, int>, player: string, now: int)
    requires RidesSound(raids) && OnePlace(raids, current) && Mapped(ids, raids)
    ensures var emptied := Emptied(raids, player, now);
            RidesSound(emptied) && OnePlace(emptied, current) && OnePlace(emptied, None) && Mapped(ids, emptied)
  {
  }

  lemma GearReset(house: Place, gear: Place, player: string)
    requires Housed(house, gear)
    ensures Housed(Hung(house, player, []), gear[player := [BALLOON]])
  {
    hide Hung;
    HungAt(house, player, []);
    var reset := gear[player := [BALLOON]];
    forall q: string
      ensures |SlotsIn(reset, q)| <= CARRIED_LIMIT
    {
      assert |SlotsIn(gear, q)| <= CARRIED_LIMIT;
    }
    assert Tidy(reset);
  }

  lemma ElsewhereHung(house: Place, children: seq<Child>, player: string)
    requires Raised(house, children)
    ensures Raised(Hung(house, player, []), Elsewhere(children, player))
  {
    hide IsChildFace;
    hide Hung;
    HungAt(house, player, []);
    ElsewhereRaised(house, children, player);
    var others := Elsewhere(children, player);
    forall j | 0 <= j < |others|
      ensures others[j].owner != player
    {
      assert others[j] in others;
    }
  }

  lemma CopiesLone(emoji: string, face: string)
    ensures Copies([emoji], face) == Copy(emoji, face)
  {
    assert [emoji][..0] == [];
  }

  lemma WipedTold(told: seq<Event>, player: string, palle: int, house: seq<string>, gear: seq<string>, gift: string, face: string)
    ensures var after := told + [Wiped(player, palle, house + gear + [gift])] + [Came(BALLOON)];
            && PalleMade(after) == PalleMade(told) - palle
            && EmojiMade(after, face)
                 == EmojiMade(told, face) - Copies(house, face) - Copies(gear, face) - Copy(gift, face) + Copy(BALLOON, face)
  {
    hide Palle; hide Stock; hide PalleMade; hide EmojiMade; hide Copies;
    var wiped := Wiped(player, palle, house + gear + [gift]);
    CopiesJoin(house, gear, face);
    CopiesJoin(house + gear, [gift], face);
    CopiesLone(gift, face);
    ToldOne(told, wiped, face);
    ToldOne(told + [wiped], Came(BALLOON), face);
  }

  lemma CopiesNone(face: string)
    ensures Copies([], face) == 0
  {
  }

  /** What starting over changes, field by field. */
  lemma StartedOverFields(s: State, player: string, walked: nat, now: int)
    ensures var t, lost := StartedOver(s, player, walked, now), Losing(s.raids, player, walked, now);
            && t.scores == NoPalle(s.scores, player)
            && t.current == (if HoldsPlace(s, player) then None else s.current)
            && t.raids == Emptied(s.raids, player, now) && t.ids == s.ids
            && t.house == Hung(s.house, player, []) && t.gear == s.gear[player := [BALLOON]]
            && t.children == Elsewhere(s.children, player)
            && t.told == s.told + [Wiped(player, Counter(s.scores, player) + LostPalle(lost),
                                         HouseSlots(s, player) + GearSlots(s, player) + [LostGift(lost)])] + [Came(BALLOON)]
  {
  }

  lemma ResetPalle(scores: map<string, int>, player: string)
    ensures Total(NoPalle(scores, player), ITSELF) == Total(scores, ITSELF) - Counter(scores, player)
    ensures Solvent(scores) ==> Solvent(NoPalle(scores, player))
  {
    TotalUpdated(scores, player, 0, ITSELF);
  }

  lemma ResetCopies(house: Place, gear: Place, player: string, face: string)
    ensures Total(Hung(house, player, []), CopiesOf(face)) == Total(house, CopiesOf(face)) - Copies(SlotsIn(house, player), face)
    ensures Total(gear[player := [BALLOON]], CopiesOf(face))
         == Total(gear, CopiesOf(face)) - Copies(SlotsIn(gear, player), face) + Copy(BALLOON, face)
  {
    CopiesHung(house, player, [], face);
    CopiesNone(face);
    TotalUpdated(gear, player, [BALLOON], CopiesOf(face));
    CopiesLone(BALLOON, face);
  }

  lemma StartedOverAccounted(s: State, player: string, walked: nat, now: int, face: string)
    requires OnePlace(s.raids, None)
    ensures Accounted(s, StartedOver(s, player, walked, now), walked, now, face)
  {
    hide StartedOver; hide OnePlace; hide Losing; hide LostPalle; hide LostGift; hide NoPalle; hide Emptied; hide Hung;
    hide Total; hide OnTheRoad; hide Copies; hide Copy; hide PalleMade; hide EmojiMade; hide Elsewhere; hide HoldsPlace;
    StartedOverFields(s, player, walked, now);
    ResetPalle(s.scores, player);
    ResetCopies(s.house, s.gear, player, face);
    EmptiedRoad(s.raids, player, walked, now, face);
    var lost := Losing(s.raids, player, walked, now);
    WipedTold(s.told, player, Counter(s.scores, player) + LostPalle(lost), HouseSlots(s, player), GearSlots(s, player),
              LostGift(lost), face);
  }

  lemma OneRider(raids: seq<Raid>, current: Option<Holder>)
    requires OnePlace(raids, current)
    ensures OnePlace(raids, None)
  {
  }

  lemma StartedOverWipes(s: State, player: string, walked: nat, now: int)
    ensures var t := StartedOver(s, player, walked, now); WipesEmpty(s.raids, t.raids, s.told, t.told, walked, now)
  {
    hide StartedOver; hide Losing; hide LostPalle; hide LostGift; hide NoPalle; hide Hung; hide Elsewhere; hide HoldsPlace;
    var t := StartedOver(s, player, walked, now);
    StartedOverFields(s, player, walked, now);
    assert t.told[|s.told|].Wiped?;
  }

  lemma StartedOverSteps(s: State, player: string, walked: nat, now: int, face: string)
    requires Standing(s)
    ensures Step(s, StartedOver(s, player, walked, now), true, walked, now, face)
  {
    hide StartedOver; hide Solvent; hide RidesSound; hide OnePlace; hide Mapped; hide Housed; hide Raised; hide Hung;
    hide Elsewhere; hide CountPower; hide Books; hide EmojiBooks; hide NoPalle; hide Losing; hide Accounted; hide WipesEmpty;
    var t := StartedOver(s, player, walked, now);
    StartedOverFields(s, player, walked, now);
    StartedOverWipes(s, player, walked, now);
    EmptiedSound(s.raids, s.current, s.ids, player, now);
    GearReset(s.house, s.gear, player);
    ElsewhereHung(s.house, s.children, player);
    if Holding(s.current, s.gear) && t.current.Some? {
      HoldingSame(s.current, s.gear, t.gear);
    }
    ResetPalle(s.scores, player);
    assert OnePlace(s.raids, None) by { OneRider(s.raids, s.current); }
    StartedOverAccounted(s, player, walked, now, face);
  }

  /** Nothing the holder has on him is where the emoji may land. */
  predicate Spares(current: Option<Holder>, thrower: string, victim: string, site: Whereabouts) {
    !IsHolder(current, thrower) && (site == AtPlace ==> !IsHolder(current, victim))
  }

  lemma BombedSteps(s: State, thrower: string, victim: string, site: Whereabouts, walked: int, now: int, rules: Rules,
                    face: string)
    requires Standing(s)
    ensures Step(s, Bombed(s, thrower, victim, site, rules), Spares(s.current, thrower, victim, site), walked, now, face)
  {
    hide BlownUp; hide Step; hide Standing;
    var rolled := Tried(s, rules.bombDudPercent);
    var target := if Lucky(s, rules.bombDudPercent) then thrower else victim;
    var onHim := Lucky(s, rules.bombDudPercent) || site == AtPlace;
    var spared := Spares(s.current, thrower, victim, site);
    QuietStep(s, rolled, walked, now, face);
    StandsAfter(s, rolled, true, walked, now, face);
    BlownUpSteps(rolled, target, onHim, walked, now, face);
    StepWeaker(s, rolled, true, spared, walked, now, face);
    StepWeaker(rolled, BlownUp(rolled, target, onHim), !onHim || !IsHolder(s.current, target), spared, walked, now, face);
    StepOn(s, rolled, BlownUp(rolled, target, onHim), spared, walked, now, face);
  }

  lemma StandsAfter(s: State, t: State, spared: bool, walked: int, now: int, face: string)
    requires Step(s, t, spared, walked, now, face)
    ensures Standing(t)
  {
  }

  lemma LandedSteps(s: State, thrown: string, thrower: string, victim: string, site: Whereabouts, walked: nat, now: int,
                    rules: Rules, face: string)
    requires Standing(s)
    ensures Step(s, Landed(s, thrown, thrower, victim, site, walked, now, rules), Spares(s.current, thrower, victim, site),
                 walked, now, face)
  {
    hide PowerOf; hide Bombed; hide StartedOver; hide Smeared; hide Expecting; hide Frozen; hide Step; hide Standing;
    hide Spares;
    if PowerOf(thrown) == Some(Bomb) {
      BombedSteps(s, thrower, victim, site, walked, now, rules, face);
    } else {
      if PowerOf(thrown) == Some(Nuke) {
        StartedOverSteps(s, victim, walked, now, face);
      } else {
        QuietStep(s, Landed(s, thrown, thrower, victim, site, walked, now, rules), walked, now, face);
      }
      StepWeaker(s, Landed(s, thrown, thrower, victim, site, walked, now, rules), true,
                 Spares(s.current, thrower, victim, site), walked, now, face);
    }
  }

  // ---------------------------------------------------------------- what changes hands

  lemma PaidOver(scores: map<string, int>, giver: string, taker: string, paid: int)
    requires Solvent(scores) && 0 <= paid <= Counter(scores, giver)
    ensures Solvent(PaidTo(scores, giver, taker, paid))
    ensures Total(PaidTo(scores, giver, taker, paid), ITSELF) == Total(scores, ITSELF)
  {
    hide Total;
    var given := scores[giver := Counter(scores, giver) - paid];
    TotalUpdated(scores, giver, Counter(scores, giver) - paid, ITSELF);
    TotalUpdated(given, taker, Counter(given, taker) + paid, ITSELF);
  }

  lemma PaidIn(scores: map<string, int>, player: string, palle: int)
    requires Solvent(scores) && Counter(scores, player) + palle >= 0
    ensures var paid := scores[player := Counter(scores, player) + palle];
            Solvent(paid) && Total(paid, ITSELF) == Total(scores, ITSELF) + palle
  {
    hide Total;
    TotalUpdated(scores, player, Counter(scores, player) + palle, ITSELF);
  }

  lemma TollBounds(palle: int, share: int)
    requires palle >= 0 && 0 <= share <= 100
    ensures 0 <= Toll(palle, share) <= palle
  {
    assert 0 <= palle * share <= palle * 100;
  }

  /** Palle may change hands among the players. */
  lemma ScoresStep(s: State, t: State, walked: int, now: int, face: string)
    requires Standing(s) && t == s.(scores := t.scores, knocks := t.knocks)
    requires Solvent(t.scores) && Total(t.scores, ITSELF) == Total(s.scores, ITSELF)
    ensures Step(s, t, true, walked, now, face)
  {
    hide Total; hide OnTheRoad; hide Stock; hide PalleMade;
    hide RidesSound; hide OnePlace; hide Mapped; hide Housed; hide Raised; hide Holding; hide Solvent;
  }

  lemma SaltScored(s: State, raid: Raid, rules: Rules)
    requires Solvent(s.scores)
    ensures Solvent(SaltScores(s, raid, rules))
    ensures Total(SaltScores(s, raid, rules), ITSELF) == Total(s.scores, ITSELF)
  {
    hide Total; hide Toll; hide PaidTo; hide HouseCopies; hide Share; hide Solvent;
    var share := SaltShare(s, raid, rules);
    ShareBounds(HouseCopies(s, raid.target, Salt), rules.saltPercent);
    var his := Counter(s.scores, raid.raider);
    Owes(s.scores, raid.raider);
    TollBounds(his, share);
    PaidOver(s.scores, raid.raider, raid.target, Toll(his, share));
  }

  lemma SaltedScores(s: State, raid: Raid, now: int, rules: Rules)
    ensures Salted(s, raid, now, rules).scores == if PaysSalt(s, raid, now, rules) then SaltScores(s, raid, rules) else s.scores
  {
    hide SaltScores; hide PaysSalt; hide Recent; hide Forgotten;
  }

  lemma SaltedSteps(s: State, raid: Raid, walked: int, now: int, rules: Rules, face: string)
    requires Standing(s)
    ensures Step(s, Salted(s, raid, now, rules), true, walked, now, face)
  {
    hide *;
    assert Solvent(s.scores) by { StandingSolvent(s); }
    SaltScored(s, raid, rules);
    SaltedScores(s, raid, now, rules);
    ScoresStep(s, Salted(s, raid, now, rules), walked, now, face);
  }

  lemma StandingSolvent(s: State)
    requires Standing(s)
    ensures Solvent(s.scores)
  {
  }

  lemma Owes(scores: map<string, int>, player: string)
    requires Solvent(scores)
    ensures Counter(scores, player) >= 0
  {
  }

  lemma BittenSteps(s: State, raid: Raid, walked: int, now: int, rules: Rules, face: string)
    requires Standing(s) && !IsHolder(s.current, raid.raider)
    ensures Step(s, Bitten(s, raid, rules), true, walked, now, face)
  {
    hide BlownUp; hide Step; hide Standing; hide HouseCopies; hide Share;
    var jaws := Share(HouseCopies(s, raid.target, Dino), rules.dinoPercent);
    var rolled := Tried(s, jaws);
    QuietStep(s, rolled, walked, now, face);
    if Lucky(s, jaws) {
      StandsAfter(s, rolled, true, walked, now, face);
      BlownUpSteps(rolled, raid.raider, true, walked, now, face);
      StepOn(s, rolled, BlownUp(rolled, raid.raider, true), true, walked, now, face);
    }
  }

  /** An emoji that goes in an empty slot is one copy more of it. */
  lemma HouseTakes(house: Place, gear: Place, children: seq<Child>, player: string, slot: nat, emoji: string, face: string)
    requires Housed(house, gear) && Raised(house, children) && At(house, player, slot) == ""
    ensures Housed(Put(house, player, slot, emoji), gear) && Raised(Put(house, player, slot, emoji), children)
    ensures Total(Put(house, player, slot, emoji), CopiesOf(face)) == Total(house, CopiesOf(face)) + Copy(emoji, face)
  {
    hide Put; hide Total; hide Housed; hide Raised;
    NoChildThere(house, children, player, slot);
    HousePut(house, gear, children, player, slot, emoji);
    CopiesPut(house, player, slot, emoji, face);
  }

  lemma GearTakes(house: Place, gear: Place, current: Option<Holder>, player: string, slot: nat, emoji: string, face: string)
    requires Housed(house, gear) && slot < CARRIED_LIMIT && At(gear, player, slot) == "" && !IsHolder(current, player)
    ensures Housed(house, Put(gear, player, slot, emoji))
    ensures Holding(current, gear) ==> Holding(current, Put(gear, player, slot, emoji))
    ensures Total(Put(gear, player, slot, emoji), CopiesOf(face)) == Total(gear, CopiesOf(face)) + Copy(emoji, face)
  {
    hide Put; hide Total; hide Housed; hide Holding;
    GearPut(house, gear, current, player, slot, emoji);
    CopiesPut(gear, player, slot, emoji, face);
  }

  /** The house and what is on the players hold one copy more, and all the rest is as it was. */
  ghost predicate Gains(s: State, t: State, emoji: string, face: string) {
    && t == s.(house := t.house, gear := t.gear)
    && Housed(t.house, t.gear) && Raised(t.house, t.children)
    && (Holding(s.current, s.gear) ==> Holding(t.current, t.gear))
    && Total(t.house, CopiesOf(face)) + Total(t.gear, CopiesOf(face))
         == Total(s.house, CopiesOf(face)) + Total(s.gear, CopiesOf(face)) + Copy(emoji, face)
  }

  lemma PutOnGains(s: State, player: string, emoji: string, face: string)
    requires Standing(s) && !IsHolder(s.current, player)
    ensures PutOn(s, player, emoji).Some? ==> Gains(s, PutOn(s, player, emoji).value, emoji, face)
  {
    hide Put; hide Total; hide Housed; hide Holding; hide Raised; hide Copy; hide RidesSound; hide OnePlace; hide Mapped;
    var slot := FreeSlot(GearSlots(s, player), CARRIED_LIMIT);
    if slot.Some? {
      GearTakes(s.house, s.gear, s.current, player, slot.value, emoji, face);
    }
  }

  lemma InHouseGains(s: State, player: string, slot: nat, emoji: string, face: string)
    requires Standing(s) && At(s.house, player, slot) == ""
    ensures Gains(s, InHouse(s, player, slot, emoji), emoji, face)
  {
    hide Put; hide Total; hide Housed; hide Holding; hide Raised; hide Copy; hide RidesSound; hide OnePlace; hide Mapped;
    HouseTakes(s.house, s.gear, s.children, player, slot, emoji, face);
  }

  lemma AwayFromPlace(s: State, player: string)
    requires !HoldsPlace(s, player)
    ensures !IsHolder(s.current, player)
  {
  }

  lemma ReceivedGains(s: State, player: string, emoji: string, limit: nat, face: string)
    requires Standing(s)
    ensures Received(s, player, emoji, limit).Some? ==> Gains(s, Received(s, player, emoji, limit).value, emoji, face)
  {
    hide Gains; hide Standing; hide PutOn; hide WorksOnHim;
    if WorksOnHim(emoji) && WhereIs(s, player) == AtHome {
      AwayFromPlace(s, player);
      PutOnGains(s, player, emoji, face);
    }
    var slot := FreeSlot(HouseSlots(s, player), limit);
    if slot.Some? {
      InHouseGains(s, player, slot.value, emoji, face);
    }
  }

  /** An emoji nobody took always finds a slot. */
  lemma TakenBackGains(s: State, player: string, emoji: string, face: string)
    requires Standing(s) && !IsHolder(s.current, player)
    ensures Gains(s, TakenBack(s, player, emoji), emoji, face)
  {
    hide Gains; hide Standing; hide PutOn;
    PutOnGains(s, player, emoji, face);
    InHouseGains(s, player, FirstEmpty(HouseSlots(s, player)), emoji, face);
  }

  predicate CanCarryOff(s: State, raider: string, target: string, slot: nat) {
    CanBoard(s, target, slot) && FreeSlot(GearSlots(s, raider), CARRIED_LIMIT).Some?
  }

  /** Boarding moves an emoji from the house onto the raider: none is made, none is lost. */
  lemma CarriedOff(s: State, raider: string, target: string, slot: nat, walked: int, now: int, face: string)
    requires Standing(s) && !IsHolder(s.current, raider) && CanCarryOff(s, raider, target, slot)
    ensures var u := PutOn(InHouse(s, target, slot, ""), raider, At(s.house, target, slot));
            u.Some? && Step(s, u.value, true, walked, now, face)
  {
    hide Put; hide Total; hide Housed; hide Holding; hide Raised; hide RidesSound; hide OnePlace; hide Mapped; hide OnTheRoad;
    hide PalleMade; hide EmojiMade; hide Solvent; hide IsUntouchable;
    var free := FreeSlot(GearSlots(s, raider), CARRIED_LIMIT).value;
    var emoji := At(s.house, target, slot);
    HousePut(s.house, s.gear, s.children, target, slot, "");
    CopiesPut(s.house, target, slot, "", face);
    GearTakes(Put(s.house, target, slot, ""), s.gear, s.current, raider, free, emoji, face);
  }

  lemma BoardedSteps(s: State, raid: Raid, walked: int, now: int, rules: Rules, face: string)
    requires Standing(s) && !IsHolder(s.current, raid.raider)
    ensures Step(s, Boarded(s, raid, rules), true, walked, now, face)
  {
    hide Step; hide Standing; hide Share; hide CarriedCopies; hide CanBoard; hide PutOn; hide InHouse;
    var chance := Share(CarriedCopies(s, raid.raider, Pirate), rules.piratePercent);
    var t := Tried(s, chance);
    QuietStep(s, t, walked, now, face);
    StandsAfter(s, t, true, walked, now, face);
    var there := Boardable(t, raid.target, |HouseSlots(t, raid.target)|);
    if Lucky(s, chance) && FreeSlot(GearSlots(t, raid.raider), CARRIED_LIMIT).Some? && there != [] {
      var taken := there[Roll(t, |there|)];
      var v := Rolled(t);
      QuietStep(t, v, walked, now, face);
      StandsAfter(t, v, true, walked, now, face);
      assert CanBoard(t, raid.target, taken);
      assert CanBoard(v, raid.target, taken) by { SameBoard(t, v, raid.target, taken); }
      CarriedOff(v, raid.raider, raid.target, taken, walked, now, face);
      StepOn(s, t, v, true, walked, now, face);
      StepOn(s, v, Boarded(s, raid, rules), true, walked, now, face);
    }
  }

  lemma SameBoard(s: State, t: State, target: string, slot: nat)
    requires t.house == s.house && t.children == s.children
    ensures CanBoard(s, target, slot) <==> CanBoard(t, target, slot)
  {
    hide PowerOf;
  }

  // ---------------------------------------------------------------- what a ride does

  /** A ride may take palle from the players or give them back, as long as they add up. */
  lemma RideStep(s: State, t: State, ride: nat, now: int, face: string)
    requires Standing(s) && ride < |s.raids| && |t.raids| == |s.raids|
    requires t == s.(scores := t.scores, raids := s.raids[ride := t.raids[ride]])
    requires var raid, raid' := s.raids[ride], t.raids[ride];
             && raid'.raider == raid.raider && raid'.target == raid.target && raid'.giftEmoji == raid.giftEmoji
             && raid'.arrive == raid.arrive
             && (raid.arrived ==> raid'.arrived) && RideSound(raid')
             && Total(t.scores, ITSELF) + LOAD(raid') == Total(s.scores, ITSELF) + LOAD(raid)
    requires Solvent(t.scores)
    ensures Step(s, t, true, ride, now, face)
  {
    hide Total; hide PalleMade; hide EmojiMade; hide Housed; hide Raised; hide Holding; hide Solvent; hide OnTheRoad;
    RoadSet(s.raids, ride, t.raids[ride], ride, now, LOAD);
    RoadSet(s.raids, ride, t.raids[ride], ride, now, GiftCopies(face));
    assert GiftCopies(face)(t.raids[ride]) == GiftCopies(face)(s.raids[ride]);
  }

  lemma RidesHere(s: State, ride: nat)
    requires Standing(s) && ride < |s.raids|
    ensures !IsHolder(s.current, s.raids[ride].raider)
    ensures RideSound(s.raids[ride])
    ensures Solvent(s.scores)
    ensures Counter(s.scores, s.raids[ride].target) >= 0
    ensures Counter(s.scores, s.raids[ride].raider) >= 0
  {
  }

  lemma TakenBounds(s: State, raid: Raid, rules: Rules)
    requires Solvent(s.scores)
    ensures 0 <= Taken(s, raid, rules) <= Counter(s.scores, raid.target)
  {
    hide Position.Distance; hide Position.CoordinatesOf; hide Solvent;
    Owes(s.scores, raid.target);
    var distance := Position.Distance(Position.CoordinatesOf(Counter(s.ids, raid.raider)),
                                      Position.CoordinatesOf(Counter(s.ids, raid.target)));
    if rules.lootDivisor > 0 {
      assert distance / rules.lootDivisor >= 0;
    }
  }

  lemma LootBounds(s: State, raid: Raid, rules: Rules)
    requires Solvent(s.scores)
    ensures 0 <= Loot(s, raid, rules) <= Counter(s.scores, raid.target)
  {
    hide HouseCopies; hide Share; hide Taken; hide Toll; hide Solvent;
    TakenBounds(s, raid, rules);
    ShareBounds(HouseCopies(s, raid.target, Pleading), rules.pleadingPercent);
    TollBounds(Taken(s, raid, rules), Share(HouseCopies(s, raid.target, Pleading), rules.pleadingPercent));
  }

  lemma Debited(scores: map<string, int>, player: string, palle: int)
    requires Solvent(scores) && 0 <= palle <= Counter(scores, player)
    ensures Solvent(Debit(scores, player, palle))
    ensures Total(Debit(scores, player, palle), ITSELF) == Total(scores, ITSELF) - palle
  {
    hide Total;
    TotalUpdated(scores, player, Counter(scores, player) - palle, ITSELF);
  }

  lemma Credited(scores: map<string, int>, player: string, palle: int)
    requires Solvent(scores) && palle >= 0
    ensures Solvent(Credit(scores, player, palle))
    ensures Total(Credit(scores, player, palle), ITSELF) == Total(scores, ITSELF) + palle
  {
    hide Total;
    Owes(scores, player);
    TotalUpdated(scores, player, Counter(scores, player) + palle, ITSELF);
  }

  lemma LootSteps(s: State, ride: nat, loot: int, now: int, face: string)
    requires Standing(s) && ride < |s.raids| && s.raids[ride].arrived && s.raids[ride].loot == 0
    requires 0 <= loot <= Counter(s.scores, s.raids[ride].target)
    ensures Step(s, Carrying(s, ride, loot), true, ride, now, face)
  {
    hide Step; hide Standing; hide Total; hide IsHolder; hide Solvent; hide Debit; hide Counter;
    RidesHere(s, ride);
    Debited(s.scores, s.raids[ride].target, loot);
    var t := Carrying(s, ride, loot);
    assert t.raids[ride] == s.raids[ride].(loot := loot);
    RideStep(s, t, ride, now, face);
  }

  lemma RobbedSteps(s: State, ride: nat, now: int, rules: Rules, face: string)
    requires Standing(s) && ride < |s.raids| && s.raids[ride].arrived && s.raids[ride].loot == 0
    ensures Step(s, Robbed(s, ride, rules), true, ride, now, face)
  {
    hide Boarded; hide Step; hide Standing; hide Loot; hide IsHolder; hide Solvent; hide Counter;
    var raid := s.raids[ride];
    RidesHere(s, ride);
    LootBounds(s, raid, rules);
    var loot := Loot(s, raid, rules);
    LootSteps(s, ride, loot, now, face);
    var u := Carrying(s, ride, loot);
    StandsAfter(s, u, true, ride, now, face);
    BoardedSteps(u, raid, ride, now, rules, face);
    StepOn(s, u, Robbed(s, ride, rules), true, ride, now, face);
  }

  lemma EmptyHanded(s: State, ride: nat, now: int, face: string)
    requires Standing(s) && ride < |s.raids| && s.raids[ride].loot == 0
    ensures Step(s, SetRide(s, ride, s.raids[ride].(loot := 0)), true, ride, now, face)
  {
    hide Step; hide Standing; hide Total;
    RidesHere(s, ride);
    RideStep(s, SetRide(s, ride, s.raids[ride].(loot := 0)), ride, now, face);
  }

  lemma PastBalloonSteps(s: State, ride: nat, now: int, rules: Rules, face: string)
    requires Standing(s) && ride < |s.raids| && s.raids[ride].arrived && s.raids[ride].loot == 0
    ensures Step(s, PastBalloon(s, ride, rules), true, ride, now, face)
  {
    hide Step; hide Standing; hide Robbed; hide SetRide; hide Share; hide HouseCopies; hide Rolled; hide Lucky;
    var t := Tried(s, Share(HouseCopies(s, s.raids[ride].target, Dog), rules.dogPercent));
    QuietStep(s, t, ride, now, face);
    StandsAfter(s, t, true, ride, now, face);
    EmptyHanded(t, ride, now, face);
    StepOn(s, t, SetRide(t, ride, t.raids[ride].(loot := 0)), true, ride, now, face);
    RobbedSteps(t, ride, now, rules, face);
    StepOn(s, t, Robbed(t, ride, rules), true, ride, now, face);
  }

  lemma RaidedSteps(s: State, ride: nat, now: int, rules: Rules, face: string)
    requires Standing(s) && ride < |s.raids| && s.raids[ride].arrived && s.raids[ride].loot == 0
    ensures Step(s, Raided(s, ride, now, rules), true, ride, now, face)
  {
    hide Step; hide Standing; hide Robbed; hide SetRide; hide Sneaks; hide SneakChance; hide Attempt; hide Attempted;
    hide PastBalloon; hide Tried;
    var raid := s.raids[ride];
    var t := Tried(s, SneakChance(s, raid, rules, now));
    QuietStep(s, t, ride, now, face);
    StandsAfter(s, t, true, ride, now, face);
    if Sneaks(s, raid, rules, now) {
      RobbedSteps(t, ride, now, rules, face);
      StepOn(s, t, Robbed(t, ride, rules), true, ride, now, face);
    } else {
      var u := Attempted(t, raid.target, AtHome, now);
      QuietStep(s, u, ride, now, face);
      StandsAfter(s, u, true, ride, now, face);
      EmptyHanded(u, ride, now, face);
      StepOn(s, u, SetRide(u, ride, raid.(loot := 0)), true, ride, now, face);
      PastBalloonSteps(u, ride, now, rules, face);
      StepOn(s, u, PastBalloon(u, ride, rules), true, ride, now, face);
    }
  }

  lemma HandedRide(s: State, ride: nat)
    requires ride < |s.raids| && s.raids[ride].gift >= 0
    ensures Handed(s, ride).raids[ride] == s.raids[ride].(gift := 0)
  {
  }

  lemma HandedSteps(s: State, ride: nat, now: int, face: string)
    requires Standing(s) && ride < |s.raids|
    ensures Step(s, Handed(s, ride), true, ride, now, face)
    ensures Handed(s, ride).raids[ride] == s.raids[ride].(gift := 0)
  {
    hide Step; hide Standing; hide Total; hide IsHolder; hide Solvent;
    var raid := s.raids[ride];
    RidesHere(s, ride);
    HandedRide(s, ride);
    QuietStep(s, s, ride, now, face);
    if raid.gift > 0 {
      PaidIn(s.scores, raid.target, raid.gift);
      assert LOAD(raid.(gift := 0)) == LOAD(raid) - raid.gift;
      RideStep(s, Handed(s, ride), ride, now, face);
    }
  }

  /** What was thrown is told to be gone. */
  lemma ThrownAwaySteps(s: State, ride: nat, now: int, face: string)
    requires Standing(s) && ride < |s.raids|
    ensures Step(s, ThrownAway(s, ride), true, ride, now, face)
  {
    hide Total; hide PalleMade; hide EmojiMade; hide Housed; hide Raised; hide Holding; hide Solvent; hide OnTheRoad;
    var raid := s.raids[ride];
    RoadSet(s.raids, ride, raid.(giftEmoji := ""), ride, now, LOAD);
    RoadSet(s.raids, ride, raid.(giftEmoji := ""), ride, now, GiftCopies(face));
    ToldOne(s.told, Went(raid.giftEmoji), face);
  }

  lemma StruckSteps(s: State, ride: nat, now: int, rules: Rules, face: string)
    requires Standing(s) && ride < |s.raids|
    ensures Step(s, Struck(s, ride, now, rules), true, ride, now, face)
  {
    hide Step; hide Standing; hide Landed; hide ThrownAway; hide SentBack; hide AsItIs; hide Share; hide HouseCopies;
    hide IsHolder;
    var raid := s.raids[ride];
    RidesHere(s, ride);
    var t := Tried(s, Share(HouseCopies(s, raid.target, Mailbox), rules.mailboxPercent));
    QuietStep(s, t, ride, now, face);
    StandsAfter(s, t, true, ride, now, face);
    var victim := if SentBack(s, raid, rules) then raid.raider else raid.target;
    var as' := if SentBack(s, raid, rules) then AsItIs(rules) else rules;
    LandedSteps(t, raid.giftEmoji, raid.raider, victim, AtHome, ride, now, as', face);
    var u := Landed(t, raid.giftEmoji, raid.raider, victim, AtHome, ride, now, as');
    assert Spares(t.current, raid.raider, victim, AtHome);
    StepOn(s, t, u, true, ride, now, face);
    StandsAfter(s, u, true, ride, now, face);
    ThrownAwaySteps(u, ride, now, face);
    StepOn(s, u, ThrownAway(u, ride), true, ride, now, face);
  }

  /** What the ride carried is in a slot now. */
  lemma GivenSteps(s: State, u: State, ride: nat, now: int, face: string)
    requires Standing(s) && ride < |s.raids| && Gains(s, u, s.raids[ride].giftEmoji, face)
    ensures Step(s, SetRide(u, ride, s.raids[ride].(giftEmoji := "")), true, ride, now, face)
  {
    hide Total; hide PalleMade; hide EmojiMade; hide Housed; hide Raised; hide Holding; hide Solvent; hide OnTheRoad;
    var raid := s.raids[ride];
    RoadSet(s.raids, ride, raid.(giftEmoji := ""), ride, now, LOAD);
    RoadSet(s.raids, ride, raid.(giftEmoji := ""), ride, now, GiftCopies(face));
  }

  lemma DeliveredSteps(s: State, ride: nat, now: int, rules: Rules, face: string)
    requires Standing(s) && ride < |s.raids|
    ensures Step(s, Delivered(s, ride, now, rules), true, ride, now, face)
  {
    hide Step; hide Standing; hide Handed; hide Struck; hide Received; hide IsThrown; hide IsPower; hide WhereIs; hide Gains;
    hide SetRide;
    var t := Handed(s, ride);
    HandedSteps(s, ride, now, face);
    StandsAfter(s, t, true, ride, now, face);
    var raid := t.raids[ride];
    var thrown := IsThrown(raid.giftEmoji) && !raid.intact;
    if raid.giftEmoji != "" && thrown {
      StruckSteps(t, ride, now, rules, face);
      StepOn(s, t, Struck(t, ride, now, rules), true, ride, now, face);
    } else if raid.giftEmoji != "" {
      var u := Received(t, raid.target, raid.giftEmoji, rules.furnitureLimit);
      ReceivedGains(t, raid.target, raid.giftEmoji, rules.furnitureLimit, face);
      if u.Some? {
        GivenSteps(t, u.value, ride, now, face);
        StepOn(s, t, SetRide(u.value, ride, raid.(giftEmoji := "")), true, ride, now, face);
      }
    }
  }

  lemma ArrivedSteps(s: State, ride: nat, now: int, rules: Rules, face: string)
    requires Standing(s) && ride < |s.raids|
    ensures Step(s, Arrived(s, ride, now, rules), true, ride, now, face)
  {
    hide Step; hide Standing; hide Delivered; hide Raided; hide Salted; hide Bitten; hide IsHolder; hide Total;
    var raid := s.raids[ride];
    RidesHere(s, ride);
    QuietStep(s, s, ride, now, face);
    if !raid.arrived && now >= raid.arrive {
      var t := SetRide(s, ride, raid.(arrived := true));
      RideStep(s, t, ride, now, face);
      StandsAfter(s, t, true, ride, now, face);
      if raid.gift > 0 || raid.giftEmoji != "" {
        DeliveredSteps(t, ride, now, rules, face);
        StepOn(s, t, Delivered(t, ride, now, rules), true, ride, now, face);
      } else {
        var salted := Salted(t, raid, now, rules);
        SaltedSteps(t, raid, ride, now, rules, face);
        StepOn(s, t, salted, true, ride, now, face);
        StandsAfter(s, salted, true, ride, now, face);
        var bitten := Bitten(salted, raid, rules);
        BittenSteps(salted, raid, ride, now, rules, face);
        StepOn(s, salted, bitten, true, ride, now, face);
        StandsAfter(s, bitten, true, ride, now, face);
        RaidedSteps(bitten, ride, now, rules, face);
        StepOn(s, bitten, Raided(bitten, ride, now, rules), true, ride, now, face);
      }
    }
  }

  // ---------------------------------------------------------------- homecoming, and the walk

  /** Who is home is paid what he brought, and his ride counts no more. */
  lemma BroughtHome(s: State, ride: nat, now: int)
    requires Standing(s) && ride < |s.raids| && Due(s.raids[ride], now)
    ensures var t := CameHome(s, ride, now);
            Solvent(t.scores) && Books(t, ride + 1, now) == Books(s, ride, now)
  {
    hide Total; hide PalleMade; hide OnTheRoad; hide Unpacked; hide Standing; hide IsHolder; hide Solvent; hide Credit;
    var raid := s.raids[ride];
    RidesHere(s, ride);
    Credited(s.scores, raid.raider, raid.loot + raid.gift);
    RoadWalked(s.raids, ride, ride, now, LOAD);
    ToldOne(s.told, Returned(ride, raid.loot + raid.gift, raid.giftEmoji), "");
  }

  lemma UnpackedGains(s: State, raid: Raid, face: string)
    requires Standing(s) && !IsHolder(s.current, raid.raider)
    ensures Gains(s, Unpacked(s, raid), raid.giftEmoji, face)
  {
    hide TakenBack; hide IsHolder; hide Housed; hide Raised; hide Holding; hide Total;
    if raid.giftEmoji != "" {
      TakenBackGains(s, raid.raider, raid.giftEmoji, face);
    }
  }

  /** And what he carried is in a slot of his again. */
  lemma CarriedHome(s: State, ride: nat, now: int, face: string)
    requires Standing(s) && ride < |s.raids| && Due(s.raids[ride], now)
    ensures var t := CameHome(s, ride, now);
            && Housed(t.house, t.gear) && Raised(t.house, t.children)
            && (Holding(s.current, s.gear) ==> Holding(t.current, t.gear))
            && EmojiBooks(t, ride + 1, now, face) == EmojiBooks(s, ride, now, face)
  {
    hide Total; hide EmojiMade; hide OnTheRoad; hide Unpacked; hide IsHolder; hide Credit;
    hide Housed; hide Raised; hide Holding; hide Standing;
    var raid := s.raids[ride];
    RidesHere(s, ride);
    UnpackedGains(s, raid, face);
    RoadWalked(s.raids, ride, ride, now, GiftCopies(face));
    ToldOne(s.told, Returned(ride, raid.loot + raid.gift, raid.giftEmoji), face);
  }

  /** The next ride of the walk: everything holds again, with one ride more behind. */
  ghost predicate Walked(s: State, t: State, before: int, after: int, now: int, face: string) {
    && Sound(t) && |t.raids| == |s.raids|
    && Books(t, after, now) == Books(s, before, now)
    && EmojiBooks(t, after, now, face) == EmojiBooks(s, before, now, face)
  }

  lemma CameHomeWalks(s: State, ride: nat, now: int, face: string)
    requires Sound(s) && ride < |s.raids|
    ensures Walked(s, CameHome(s, ride, now), ride, ride + 1, now, face)
  {
    hide CameHome; hide Housed; hide Raised; hide Holding; hide Solvent; hide OnePlace; hide RidesSound; hide Mapped;
    hide Books; hide EmojiBooks;
    if Due(s.raids[ride], now) {
      BroughtHome(s, ride, now);
      CarriedHome(s, ride, now, face);
    } else {
      StillAway(s, ride, now, face);
    }
  }

  lemma StillAway(s: State, ride: nat, now: int, face: string)
    requires ride < |s.raids| && !Due(s.raids[ride], now)
    ensures CameHome(s, ride, now) == s
    ensures Books(s, ride + 1, now) == Books(s, ride, now)
    ensures EmojiBooks(s, ride + 1, now, face) == EmojiBooks(s, ride, now, face)
  {
    RoadWalked(s.raids, ride, ride, now, LOAD);
    RoadWalked(s.raids, ride, ride, now, GiftCopies(face));
  }

  lemma WalkedOn(s: State, t: State, u: State, before: int, between: int, after: int, now: int, face: string)
    requires Walked(s, t, before, between, now, face) && Walked(t, u, between, after, now, face)
    ensures Walked(s, u, before, after, now, face)
  {
    hide Sound; hide Books; hide EmojiBooks;
  }

  lemma StepWalks(s: State, t: State, walked: int, now: int, face: string)
    requires Sound(s) && Step(s, t, true, walked, now, face)
    ensures Walked(s, t, walked, walked, now, face)
  {
    hide Standing; hide Holding;
  }

  lemma {:induction false} WalkKeeps(s: State, ride: nat, now: int, rules: Rules, face: string)
    requires Sound(s) && ride <= |s.raids|
    ensures Walked(s, Walk(s, ride, now, rules), ride, |s.raids|, now, face)
    decreases |s.raids| - ride
  {
    hide Walked; hide Step; hide Standing; hide Holding; hide Arrived; hide CameHome;
    if ride == |s.raids| {
      QuietStep(s, s, ride, now, face);
      StepWalks(s, s, ride, now, face);
    } else {
      var t := Arrived(s, ride, now, rules);
      ArrivedSteps(s, ride, now, rules, face);
      StepWalks(s, t, ride, now, face);
      SoundAfter(s, t, ride, ride, now, face);
      var u := CameHome(t, ride, now);
      CameHomeWalks(t, ride, now, face);
      WalkedOn(s, t, u, ride, ride, ride + 1, now, face);
      SoundAfter(s, u, ride, ride + 1, now, face);
      WalkKeeps(u, ride + 1, now, rules, face);
      WalkedOn(s, u, Walk(u, ride + 1, now, rules), ride, ride + 1, |s.raids|, now, face);
    }
  }

  lemma SoundAfter(s: State, t: State, before: int, after: int, now: int, face: string)
    requires Walked(s, t, before, after, now, face)
    ensures Sound(t) && |t.raids| == |s.raids|
  {
  }

  // ---------------------------------------------------------------- once, and once only

  predicate IsEmpty(raid: Raid) {
    raid.loot == 0 && raid.gift == 0 && raid.giftEmoji == ""
  }

  /** The homecoming of that ride is told. */
  ghost predicate ToldHome(told: seq<Event>, ride: nat) {
    exists k :: 0 <= k < |told| && told[k].Returned? && told[k].ride == ride
  }

  /** The homecomings told are of rides from one on, each told once, in the order of the list. */
  ghost predicate InOrder(told: seq<Event>, from: nat, to: nat) {
    && (forall k | 0 <= k < |told| && told[k].Returned? :: from <= told[k].ride < to)
    && (forall j, k | 0 <= j < k < |told| && told[j].Returned? && told[k].Returned? :: told[j].ride < told[k].ride)
  }

  /** What the walk from a ride on leaves of the list: whoever is due was told to be home, or was told to start over. */
  ghost predicate SettledFrom(raids: seq<Raid>, raids': seq<Raid>, told: seq<Event>, from: nat, now: int) {
    && |raids'| == |raids|
    && InOrder(told, from, |raids|)
    && (forall j | 0 <= j < |raids| :: ToldHome(told, j) ==> Due(raids'[j], now))
    && (forall j | 0 <= j < from <= |raids| ::
          raids'[j] == if WipedSince(told, 0, raids[j].raider) then EmptiedRide(raids[j], now) else raids[j])
    && (forall j | from <= j < |raids| ::
          && raids'[j].raider == raids[j].raider && raids'[j].arrive == raids[j].arrive
          && (raids'[j].arrived || now < raids'[j].arrive))
    && (forall j | from <= j < |raids| && Due(raids'[j], now) ::
          ToldHome(told, j) || (IsEmpty(raids'[j]) && WipedSince(told, 0, raids[j].raider)))
  }

  /** One ride of the walk, seen from the list. */
  lemma RideSettles(s: State, ride: nat, now: int, rules: Rules)
    requires Sound(s) && ride < |s.raids|
    ensures var t := CameHome(Arrived(s, ride, now, rules), ride, now);
            && Sound(t)
            && SameRides(s.raids, t.raids, ride, now)
            && (t.raids[ride].arrived || now < t.raids[ride].arrive)
            && s.told <= t.told
            && var told := t.told[|s.told|..];
               && InOrder(told, ride, ride + 1)
               && (ToldHome(told, ride) <==> Due(t.raids[ride], now))
               && WipesEmpty(s.raids, t.raids, [], told, ride, now)
  {
    hide Arrived; hide CameHome; hide Sound; hide Walked; hide Standing; hide Holding; hide Accounted; hide WipesEmpty;
    assert Standing(s) by { SoundStands(s); }
    var t := Arrived(s, ride, now, rules);
    ArrivedSteps(s, ride, now, rules, "");
    StepWalks(s, t, ride, now, "");
    SoundAfter(s, t, ride, ride, now, "");
    CameHomeWalks(t, ride, now, "");
    SoundAfter(t, CameHome(t, ride, now), ride, ride + 1, now, "");
    ArrivedOrNotYet(s, ride, now, rules);
    CameHomeTold(t, ride, now);
    assert WipesEmpty(s.raids, t.raids, s.told, t.told, ride, now);
    WipesSince(s.raids, t.raids, s.told, t.told, CameHome(t, ride, now).told, ride, now);
    var quiet, told := t.told[|s.told|..], CameHome(t, ride, now).told[|s.told|..];
    if Due(t.raids[ride], now) {
      assert told == quiet + [Returned(ride, t.raids[ride].loot + t.raids[ride].gift, t.raids[ride].giftEmoji)];
      assert told[|quiet|].Returned?;
    } else {
      assert told == quiet;
    }
  }

  /** A homecoming wipes nothing. */
  lemma WipesSince(raids: seq<Raid>, raids': seq<Raid>, told: seq<Event>, told': seq<Event>, told'': seq<Event>, ride: int, now: int)
    requires WipesEmpty(raids, raids', told, told', ride, now) && told <= told'
    requires told'' == told' || (exists event: Event :: event.Returned? && told'' == told' + [event])
    ensures WipesEmpty(raids, raids', [], told''[|told|..], ride, now)
  {
    var more := told''[|told|..];
    forall player
      ensures WipedSince(told', |told|, player) <==> WipedSince(more, 0, player)
    {
      if WipedSince(told', |told|, player) {
        var k :| |told| <= k < |told'| && told'[k].Wiped? && told'[k].player == player;
        assert more[k - |told|] == told'[k];
      }
      if WipedSince(more, 0, player) {
        var k :| 0 <= k < |more| && more[k].Wiped? && more[k].player == player;
        assert told''[k + |told|] == more[k];
      }
    }
  }

  lemma SoundStands(s: State)
    requires Sound(s)
    ensures Standing(s)
  {
  }

  lemma CameHomeTold(s: State, ride: nat, now: int)
    requires ride < |s.raids|
    ensures CameHome(s, ride, now).told == s.told +
              if Due(s.raids[ride], now)
              then [Returned(ride, s.raids[ride].loot + s.raids[ride].gift, s.raids[ride].giftEmoji)] else []
  {
    hide Unpacked; hide Credit;
  }

  lemma ArrivedOrNotYet(s: State, ride: nat, now: int, rules: Rules)
    requires Standing(s) && ride < |s.raids|
    ensures var t := Arrived(s, ride, now, rules); t.raids[ride].arrived || now < t.raids[ride].arrive
  {
    hide Standing; hide Step; hide Delivered; hide Raided; hide Salted; hide Bitten; hide IsHolder; hide Total;
    var raid := s.raids[ride];
    if !raid.arrived && now >= raid.arrive {
      var t := SetRide(s, ride, raid.(arrived := true));
      RidesHere(s, ride);
      RideStep(s, t, ride, now, "");
      StandsAfter(s, t, true, ride, now, "");
      if raid.gift > 0 || raid.giftEmoji != "" {
        DeliveredSteps(t, ride, now, rules, "");
        StillThere(t, Delivered(t, ride, now, rules), ride, now);
      } else {
        var bitten := Bitten(Salted(t, raid, now, rules), raid, rules);
        SaltedSteps(t, raid, ride, now, rules, "");
        StandsAfter(t, Salted(t, raid, now, rules), true, ride, now, "");
        BittenSteps(Salted(t, raid, now, rules), raid, ride, now, rules, "");
        StandsAfter(Salted(t, raid, now, rules), bitten, true, ride, now, "");
        RaidedSteps(bitten, ride, now, rules, "");
        StillThere(bitten, Raided(bitten, ride, now, rules), ride, now);
      }
    }
  }

  lemma StillThere(s: State, t: State, ride: nat, now: int)
    requires ride < |s.raids| && s.raids[ride].arrived && Step(s, t, true, ride, now, "")
    ensures |t.raids| == |s.raids| && t.raids[ride].arrived
  {
  }

  lemma WipedEither(told: seq<Event>, told': seq<Event>, player: string)
    ensures WipedSince(told + told', 0, player) <==> WipedSince(told, 0, player) || WipedSince(told', 0, player)
  {
    var all := told + told';
    if WipedSince(told, 0, player) {
      var k :| 0 <= k < |told| && told[k].Wiped? && told[k].player == player;
      assert all[k] == told[k];
    }
    if WipedSince(told', 0, player) {
      var k :| 0 <= k < |told'| && told'[k].Wiped? && told'[k].player == player;
      assert all[|told| + k] == told'[k];
    }
  }

  lemma ToldEither(told: seq<Event>, told': seq<Event>, ride: nat)
    ensures ToldHome(told + told', ride) <==> ToldHome(told, ride) || ToldHome(told', ride)
  {
    var all := told + told';
    if ToldHome(told, ride) {
      var k :| 0 <= k < |told| && told[k].Returned? && told[k].ride == ride;
      assert all[k] == told[k];
    }
    if ToldHome(told', ride) {
      var k :| 0 <= k < |told'| && told'[k].Returned? && told'[k].ride == ride;
      assert all[|told| + k] == told'[k];
    }
  }

  lemma ToldInOrder(told: seq<Event>, from: nat, to: nat, ride: nat)
    requires InOrder(told, from, to) && ToldHome(told, ride)
    ensures from <= ride < to
  {
  }

  lemma SettledBefore(raids: seq<Raid>, raids': seq<Raid>, raids'': seq<Raid>, told: seq<Event>, told': seq<Event>,
                      ride: nat, now: int)
    requires SameRides(raids, raids', ride, now) && ride < |raids|
    requires raids'[ride].arrived || now < raids'[ride].arrive
    requires InOrder(told, ride, ride + 1) && (ToldHome(told, ride) <==> Due(raids'[ride], now))
    requires WipesEmpty(raids, raids', [], told, ride, now)
    requires SettledFrom(raids', raids'', told', ride + 1, now)
    ensures SettledFrom(raids, raids'', told + told', ride, now)
  {
    hide ToldHome; hide WipedSince;
    forall j: nat | j < |raids|
      ensures ToldHome(told + told', j) <==> ToldHome(told, j) || ToldHome(told', j)
      ensures WipedSince(told + told', 0, raids[j].raider) <==>
                WipedSince(told, 0, raids[j].raider) || WipedSince(told', 0, raids[j].raider)
      ensures ToldHome(told, j) ==> j == ride
    {
      ToldEither(told, told', j);
      if ToldHome(told, j) {
        ToldInOrder(told, ride, ride + 1, j);
      }
      WipedEither(told, told', raids[j].raider);
    }
  }

  lemma {:induction false} WalkSettles(s: State, ride: nat, now: int, rules: Rules)
    requires Sound(s) && ride <= |s.raids|
    ensures var t := Walk(s, ride, now, rules);
            && s.told <= t.told
            && SettledFrom(s.raids, t.raids, t.told[|s.told|..], ride, now)
    decreases |s.raids| - ride
  {
    hide Arrived; hide CameHome; hide Sound; hide SettledFrom; hide SameRides; hide InOrder; hide ToldHome; hide Due;
    if ride == |s.raids| {
      assert s.told[|s.told|..] == [];
      NothingSettled(s.raids, ride, now);
    } else {
      var u := CameHome(Arrived(s, ride, now, rules), ride, now);
      RideSettles(s, ride, now, rules);
      WalkSettles(u, ride + 1, now, rules);
      var t := Walk(s, ride, now, rules);
      var told, told' := u.told[|s.told|..], t.told[|u.told|..];
      assert t.told[|s.told|..] == told + told';
      SettledBefore(s.raids, u.raids, t.raids, told, told', ride, now);
    }
  }

  lemma NothingSettled(raids: seq<Raid>, ride: nat, now: int)
    requires ride == |raids|
    ensures SettledFrom(raids, raids, [], ride, now)
  {
  }
}
