/** src/game.cpp, raid_due: what becomes of a raider at the house he came to rob, told from what is there and what is drawn. */
module Robberies {
  import opened Basics
  import opened Powers
  import opened Ledger
  import opened Places
  import opened World
  import opened Rides
  import opened Facts
  import opened Blasts
  import Position

  /** A balloon holds him up, the dogs catch him, or he gets in. */
  datatype Fate = HeldUp | Caught | GotIn

  /** His ninja try when there is a balloon or a dog to get past: so many in a hundred. */
  ghost function NinjaTry(s: State, raid: Raid, now: int, rules: Rules): int {
    if GuardsHome(s, raid.target, now) || KeptOf(s, raid.target, Dog) > 0
    then Percent(ShownOf(s.current, s.gear, raid.raider, Ninja), rules.ninjaPercent) else 0
  }

  /** The alarms of the house take their share off. */
  ghost predicate GetsPast(s: State, raid: Raid, now: int, rules: Rules) {
    && NinjaTry(s, raid, now, rules) > 0
    && Draw(s, 0, 100) < NinjaTry(s, raid, now, rules) - KeptOf(s, raid.target, Alarm) * (if rules.alarmPercent > 0 then rules.alarmPercent else 0)
  }

  /** How many draws were made before the balloon is attempted, and before the dogs are met. */
  ghost function DrawnBefore(s: State, raid: Raid, now: int, rules: Rules): nat {
    if NinjaTry(s, raid, now, rules) > 0 then 1 else 0
  }

  ghost function DrawnByDogs(s: State, raid: Raid, now: int, rules: Rules): nat {
    DrawnBefore(s, raid, now, rules) + if GuardsHome(s, raid.target, now) && !GetsPast(s, raid, now, rules) then 1 else 0
  }

  /** The balloon holds the first attempt three times in four, the next one half of the time, then once in four, and then it pops. */
  ghost function FateOf(s: State, raid: Raid, now: int, rules: Rules): Fate {
    if GetsPast(s, raid, now, rules) then GotIn
    else if GuardsHome(s, raid.target, now) && Draw(s, DrawnBefore(s, raid, now, rules), 4) > Counter(s.balloons, raid.target) then HeldUp
    else
      var dogs := Percent(KeptOf(s, raid.target, Dog), rules.dogPercent);
      if dogs > 0 && Draw(s, DrawnByDogs(s, raid, now, rules), 100) < dogs then Caught else GotIn
  }

  /** What is left of the balloon he attempted: one attempt more, or as good as new. */
  ghost function BalloonsAfter(s: State, raid: Raid, now: int, rules: Rules): map<string, int> {
    if GetsPast(s, raid, now, rules) || !GuardsHome(s, raid.target, now) then s.balloons
    else if FateOf(s, raid, now, rules) == HeldUp then s.balloons[raid.target := Counter(s.balloons, raid.target) + 1]
    else s.balloons - {raid.target}
  }

  /** What can be taken over that road: a palla for each unit of it, twice as many in the golden hour, and no more than there are. */
  function TakenOver(s: State, raid: Raid, rules: Rules, road: nat): int {
    var walked := (if rules.lootDivisor > 0 then road / rules.lootDivisor else road) * (if rules.golden then 2 else 1);
    if Counter(s.scores, raid.target) < walked then Counter(s.scores, raid.target) else walked
  }

  /** Each plea of the house spares its share. */
  ghost predicate IsLoot(s: State, raid: Raid, rules: Rules, loot: int) {
    exists road: nat | IsRoad(s.ids, raid.raider, raid.target, road) ::
      var taken := TakenOver(s, raid, rules, road);
      loot == taken - (if taken > 0 then taken else 0) * Percent(KeptOf(s, raid.target, Pleading), rules.pleadingPercent) / 100
  }

  lemma LootIs(s: State, raid: Raid, rules: Rules)
    ensures IsLoot(s, raid, rules, Loot(s, raid, rules))
  {
    hide Position.Distance; hide Position.CoordinatesOf; hide HouseCopies; hide Share; hide Percent; hide KeptOf; hide IsRoad;
    var road := Position.Distance(Position.CoordinatesOf(Counter(s.ids, raid.raider)), Position.CoordinatesOf(Counter(s.ids, raid.target)));
    TheRoad(s.ids, raid.raider, raid.target, road);
    KeptCounted(s, raid.target, Pleading);
    PercentIs(HouseCopies(s, raid.target, Pleading), rules.pleadingPercent);
    assert IsRoad(s.ids, raid.raider, raid.target, road);
  }

  lemma DogsCounted(s: State, raid: Raid, rules: Rules)
    ensures Share(HouseCopies(s, raid.target, Dog), rules.dogPercent) == Percent(KeptOf(s, raid.target, Dog), rules.dogPercent)
  {
    hide HouseCopies; hide KeptOf;
    KeptCounted(s, raid.target, Dog);
    PercentIs(HouseCopies(s, raid.target, Dog), rules.dogPercent);
  }

  lemma NinjaCounted(s: State, raid: Raid, now: int, rules: Rules)
    ensures SneakChance(s, raid, rules, now) == NinjaTry(s, raid, now, rules)
    ensures Sneaks(s, raid, rules, now) == GetsPast(s, raid, now, rules)
  {
    hide HouseCopies; hide KeptOf; hide CarriedCopies; hide ShownOf; hide BalloonThere; hide GuardsHome; hide Share; hide Percent;
    KeptCounted(s, raid.target, Dog);
    KeptCounted(s, raid.target, Alarm);
    CarriedCounted(s, raid.raider, Ninja);
    GuardedHome(s, raid.target, now);
    PercentIs(CarriedCopies(s, raid.raider, Ninja), rules.ninjaPercent);
    NoneDrawn(s);
    Drawn(s, s, 0, 100);
  }

  /** What somebody has is told from the fields the draws and the balloons do not touch. */
  ghost predicate SameHere(s: State, t: State) {
    t == s.(luck := t.luck, balloons := t.balloons)
  }

  lemma LootSame(s: State, t: State, raid: Raid, rules: Rules)
    requires SameHere(s, t)
    ensures Loot(t, raid, rules) == Loot(s, raid, rules)
  {
    hide Position.Distance; hide Position.CoordinatesOf; hide Share; hide CountPower;
  }

  /** The palle of the target and of the ride after he got in. */
  lemma RobbedIs(s: State, ride: nat, rules: Rules)
    requires ride < |s.raids|
    ensures var raid, t := s.raids[ride], Robbed(s, ride, rules);
            && t.raids == s.raids[ride := raid.(loot := Loot(s, raid, rules))]
            && t.balloons == s.balloons
            && forall q :: Counter(t.scores, q) ==
                 Counter(s.scores, q) - (if q == raid.target && Loot(s, raid, rules) > 0 then Loot(s, raid, rules) else 0)
  {
    hide Loot; hide Boarded;
  }

  // ---------------------------------------------------------------- what he carries off

  /** What can be carried off: any emoji that is neither a child nor a balloon. */
  ghost function Portable(s: State, target: string): set<nat> {
    set k: nat | k < |SlotsIn(s.house, target)| && SlotsIn(s.house, target)[k] != "" && !IsChild(s.children, target, k)
                 && PowerOf(SlotsIn(s.house, target)[k]) != Some(Balloon)
  }

  ghost function DrawnInside(s: State, raid: Raid, now: int, rules: Rules): nat {
    if GetsPast(s, raid, now, rules) then DrawnBefore(s, raid, now, rules)
    else DrawnByDogs(s, raid, now, rules) + if Percent(KeptOf(s, raid.target, Dog), rules.dogPercent) > 0 then 1 else 0
  }

  ghost predicate Boards(s: State, raid: Raid, drawn: nat, rules: Rules) {
    var chance := Percent(ShownOf(s.current, s.gear, raid.raider, Pirate), rules.piratePercent);
    && chance > 0 && Draw(s, drawn, 100) < chance
    && (exists k: nat :: IsFirstFree(SlotsIn(s.gear, raid.raider), k) && k < CARRIED_LIMIT)
    && Portable(s, raid.target) != {}
  }

  /** The pirates on him bring one emoji of the house, the one drawn, into his first free slot. */
  ghost predicate CarriesOff(s: State, t: State, raid: Raid, drawn: nat, rules: Rules) {
    if !Boards(s, raid, drawn, rules) then t.house == s.house && t.gear == s.gear else
    exists hit: nat, free: nat |
      hit in Portable(s, raid.target) && IsFirstFree(SlotsIn(s.gear, raid.raider), free) ::
      && Before(Portable(s, raid.target), hit) == Draw(s, drawn + 1, |Portable(s, raid.target)|)
      && t.house == Put(s.house, raid.target, hit, "")
      && t.gear == Put(s.gear, raid.raider, free, SlotsIn(s.house, raid.target)[hit])
  }

  lemma {:induction false} BoardableAscends(s: State, target: string, upTo: nat)
    ensures IsAscending(Boardable(s, target, upTo))
  {
    hide CanBoard;
    if upTo > 0 {
      BoardableAscends(s, target, upTo - 1);
    }
  }

  lemma BoardableRanked(s: State, target: string)
    ensures var there := Boardable(s, target, |SlotsIn(s.house, target)|);
            && |there| == |Portable(s, target)| && (there == [] <==> Portable(s, target) == {})
            && forall i | 0 <= i < |there| :: there[i] in Portable(s, target) && Before(Portable(s, target), there[i]) == i
  {
    hide PowerOf; hide IsChild;
    BoardableAscends(s, target, |SlotsIn(s.house, target)|);
    Ranked(Boardable(s, target, |SlotsIn(s.house, target)|), Portable(s, target));
  }

  /** Palle and rides, draws and balloons apart. */
  ghost predicate SameGoods(s: State, t: State) {
    t == s.(luck := t.luck, balloons := t.balloons, scores := t.scores, raids := t.raids)
  }

  lemma PortableSame(s: State, t: State, target: string)
    requires SameGoods(s, t)
    ensures Boardable(t, target, |SlotsIn(t.house, target)|) == Boardable(s, target, |SlotsIn(s.house, target)|)
  {
    BoardableSame(s, t, target, |SlotsIn(s.house, target)|);
  }

  lemma {:induction false} BoardableSame(s: State, t: State, target: string, upTo: nat)
    requires SameGoods(s, t)
    ensures Boardable(t, target, upTo) == Boardable(s, target, upTo)
  {
    hide PowerOf;
    if upTo > 0 {
      BoardableSame(s, t, target, upTo - 1);
    }
  }

  lemma PiratesCounted(s: State, t: State, raid: Raid, rules: Rules)
    requires SameGoods(s, t)
    ensures Share(CarriedCopies(t, raid.raider, Pirate), rules.piratePercent)
         == Percent(ShownOf(s.current, s.gear, raid.raider, Pirate), rules.piratePercent)
  {
    hide CountPower; hide ShownOf;
    CarriedCounted(t, raid.raider, Pirate);
    PercentIs(CarriedCopies(t, raid.raider, Pirate), rules.piratePercent);
  }

  lemma NotBoarded(s: State, t: State, raid: Raid, drawn: nat, rules: Rules)
    requires !Boards(s, raid, drawn, rules) && t.house == s.house && t.gear == s.gear
    ensures CarriesOff(s, t, raid, drawn, rules)
  {
    hide Boards;
  }

  lemma WasBoarded(s: State, t: State, raid: Raid, drawn: nat, rules: Rules, hit: nat, free: nat)
    requires Boards(s, raid, drawn, rules) && hit in Portable(s, raid.target) && IsFirstFree(SlotsIn(s.gear, raid.raider), free)
    requires Before(Portable(s, raid.target), hit) == Draw(s, drawn + 1, |Portable(s, raid.target)|)
    requires t.house == Put(s.house, raid.target, hit, "") && t.gear == Put(s.gear, raid.raider, free, SlotsIn(s.house, raid.target)[hit])
    ensures CarriesOff(s, t, raid, drawn, rules)
  {
    hide Boards; hide Put; hide Before; hide IsFirstFree;
  }

  /** What the pirates do, by the lists of the slots. */
  lemma BoardedNot(s: State, raid: Raid, rules: Rules)
    requires var chance := Share(CarriedCopies(s, raid.raider, Pirate), rules.piratePercent);
             || !Lucky(s, chance) || FreeSlot(SlotsIn(s.gear, raid.raider), CARRIED_LIMIT).None?
             || Boardable(Rolled(s), raid.target, |SlotsIn(s.house, raid.target)|) == []
    ensures var t := Boarded(s, raid, rules); t.house == s.house && t.gear == s.gear
  {
    hide Share; hide CarriedCopies; hide Boardable; hide FreeSlot; hide Put; hide Roll; hide PutOn; hide Lucky;
  }

  lemma BoardedSo(s: State, raid: Raid, rules: Rules)
    requires Lucky(s, Share(CarriedCopies(s, raid.raider, Pirate), rules.piratePercent))
    requires FreeSlot(SlotsIn(s.gear, raid.raider), CARRIED_LIMIT).Some?
    requires Boardable(Rolled(s), raid.target, |SlotsIn(s.house, raid.target)|) != []
    ensures var t, there := Boarded(s, raid, rules), Boardable(Rolled(s), raid.target, |SlotsIn(s.house, raid.target)|);
            var taken := there[Roll(Rolled(s), |there|)];
            && t.house == Put(s.house, raid.target, taken, "")
            && t.gear == Put(s.gear, raid.raider, FreeSlot(SlotsIn(s.gear, raid.raider), CARRIED_LIMIT).value,
                             At(s.house, raid.target, taken))
  {
    hide Share; hide CarriedCopies; hide Boardable; hide FreeSlot; hide Put; hide Roll; hide At; hide Lucky;
  }

  lemma BoardedIs(s: State, u: State, raid: Raid, drawn: nat, rules: Rules)
    requires SameGoods(s, u) && u.luck == LuckAfter(s, drawn)
    ensures CarriesOff(s, Boarded(u, raid, rules), raid, drawn, rules)
  {
    hide Share; hide CarriedCopies; hide CanBoard; hide Put; hide Portable; hide Before; hide IsFirstFree; hide FreeSlot; hide ShownOf;
    hide Percent; hide Boardable; hide Draw; hide LuckAfter; hide Roll; hide Rolled; hide CarriesOff; hide Boarded;
    PiratesCounted(s, u, raid, rules);
    Drawn(s, u, drawn, 100);
    FreeFirst(SlotsIn(s.gear, raid.raider), CARRIED_LIMIT);
    var there := Boardable(s, raid.target, |SlotsIn(s.house, raid.target)|);
    BoardableRanked(s, raid.target);
    var t, free := Rolled(u), FreeSlot(SlotsIn(s.gear, raid.raider), CARRIED_LIMIT);
    PortableSame(s, t, raid.target);
    if Lucky(u, Share(CarriedCopies(u, raid.raider, Pirate), rules.piratePercent)) && free.Some? && there != [] {
      Drawn(s, t, drawn + 1, |there|);
      BoardedSo(u, raid, rules);
      assert there[Roll(t, |there|)] in Portable(s, raid.target);
      PortableThere(s, raid.target, there[Roll(t, |there|)]);
      WasBoarded(s, Boarded(u, raid, rules), raid, drawn, rules, there[Roll(t, |there|)], free.value);
    } else {
      BoardedNot(u, raid, rules);
      NotBoarded(s, Boarded(u, raid, rules), raid, drawn, rules);
    }
  }

  lemma PortableThere(s: State, target: string, k: nat)
    requires k in Portable(s, target)
    ensures k < |SlotsIn(s.house, target)| && At(s.house, target, k) == SlotsIn(s.house, target)[k]
  {
  }
  // ---------------------------------------------------------------- past whom he gets

  /** What he takes and what he finds is told by his fate: the loot, the palle of the house, and the balloon. */
  ghost predicate Fated(s: State, t: State, ride: nat, raid: Raid, now: int, rules: Rules) {
    && t.balloons == BalloonsAfter(s, raid, now, rules)
    && |t.raids| == |s.raids| > ride && t.raids == s.raids[ride := raid.(loot := t.raids[ride].loot)]
    && if FateOf(s, raid, now, rules) == GotIn then
         && IsLoot(s, raid, rules, t.raids[ride].loot)
         && CarriesOff(s, t, raid, DrawnInside(s, raid, now, rules), rules)
         && forall q :: Counter(t.scores, q) ==
              Counter(s.scores, q) - (if q == raid.target && t.raids[ride].loot > 0 then t.raids[ride].loot else 0)
       else
         t.raids[ride].loot == 0 && t.scores == s.scores && t.house == s.house && t.gear == s.gear
  }

  lemma GotInFated(s: State, u: State, ride: nat, now: int, rules: Rules)
    requires ride < |s.raids| && SameHere(s, u) && FateOf(s, s.raids[ride], now, rules) == GotIn
    requires u.balloons == BalloonsAfter(s, s.raids[ride], now, rules)
    requires u.luck == LuckAfter(s, DrawnInside(s, s.raids[ride], now, rules))
    ensures Fated(s, Robbed(u, ride, rules), ride, s.raids[ride], now, rules)
  {
    hide FateOf; hide BalloonsAfter; hide IsLoot; hide Loot; hide CarriesOff; hide Boarded; hide DrawnInside; hide LuckAfter;
    RobbedIs(u, ride, rules);
    BoardedIs(s, Carrying(u, ride, Loot(u, s.raids[ride], rules)), s.raids[ride], DrawnInside(s, s.raids[ride], now, rules), rules);
    LootSame(s, u, s.raids[ride], rules);
    LootIs(s, s.raids[ride], rules);
  }

  lemma StoppedFated(s: State, u: State, ride: nat, now: int, rules: Rules)
    requires ride < |s.raids| && SameHere(s, u) && FateOf(s, s.raids[ride], now, rules) != GotIn
    requires u.balloons == BalloonsAfter(s, s.raids[ride], now, rules)
    ensures Fated(s, SetRide(u, ride, s.raids[ride].(loot := 0)), ride, s.raids[ride], now, rules)
  {
    hide FateOf; hide BalloonsAfter; hide IsLoot; hide CarriesOff;
  }

  /** An attempt at a balloon: how it goes, and what is left of it. */
  lemma AttemptIs(s: State, player: string, site: Whereabouts, now: int)
    ensures Attempt(s, player, site, now) == Held <==> BalloonThere(s, player, site, now) && Roll(s, 4) > Counter(s.balloons, player)
    ensures var t := Attempted(s, player, site, now);
            && t.luck == (if BalloonThere(s, player, site, now) then Rolled(s).luck else s.luck)
            && t.balloons == (if !BalloonThere(s, player, site, now) then s.balloons
                              else if Attempt(s, player, site, now) == Held then s.balloons[player := Counter(s.balloons, player) + 1]
                              else s.balloons - {player})
  {
    hide BalloonThere; hide Roll; hide Rolled;
  }

  /** The attempt, told from the draw. */
  lemma AttemptDrawn(s: State, t: State, raid: Raid, now: int, rules: Rules)
    requires t == s.(luck := t.luck) && t.luck == LuckAfter(s, DrawnBefore(s, raid, now, rules)) && !GetsPast(s, raid, now, rules)
    ensures Attempt(t, raid.target, AtHome, now) == Held <==>
              GuardsHome(s, raid.target, now) && Draw(s, DrawnBefore(s, raid, now, rules), 4) > Counter(s.balloons, raid.target)
    ensures var u := Attempted(t, raid.target, AtHome, now);
            && SameHere(s, u) && u.luck == LuckAfter(s, DrawnByDogs(s, raid, now, rules))
            && u.balloons == if !GuardsHome(s, raid.target, now) then s.balloons
                             else if Attempt(t, raid.target, AtHome, now) == Held
                             then s.balloons[raid.target := Counter(s.balloons, raid.target) + 1]
                             else s.balloons - {raid.target}
  {
    hide BalloonThere; hide GuardsHome; hide GetsPast; hide NinjaTry; hide LuckAfter; hide Draw; hide Roll; hide Rolled;
    hide Attempt; hide Attempted; hide DrawnBefore;
    SameGuard(s, t, raid.target, now);
    GuardedHome(s, raid.target, now);
    AttemptIs(t, raid.target, AtHome, now);
    Drawn(s, t, DrawnBefore(s, raid, now, rules), 4);
  }

  lemma SameGuard(s: State, t: State, player: string, now: int)
    requires t == s.(luck := t.luck)
    ensures BalloonThere(t, player, AtHome, now) == BalloonThere(s, player, AtHome, now)
  {
    hide CountPower;
  }

  /** Past the balloon, he meets the dogs. */
  lemma DogsFated(s: State, u: State, ride: nat, now: int, rules: Rules)
    requires ride < |s.raids| && SameHere(s, u) && !GetsPast(s, s.raids[ride], now, rules)
    requires FateOf(s, s.raids[ride], now, rules) != HeldUp && u.luck == LuckAfter(s, DrawnByDogs(s, s.raids[ride], now, rules))
    requires u.balloons == BalloonsAfter(s, s.raids[ride], now, rules)
    ensures Fated(s, PastBalloon(u, ride, rules), ride, s.raids[ride], now, rules)
  {
    hide Fated; hide Robbed; hide BalloonsAfter; hide GetsPast; hide GuardsHome; hide KeptOf; hide HouseCopies; hide Share; hide Percent;
    hide DrawnByDogs; hide DrawnBefore; hide Draw; hide LuckAfter; hide SetRide; hide Roll;
    var raid := s.raids[ride];
    DogsCounted(s, raid, rules);
    assert HouseCopies(u, raid.target, Dog) == HouseCopies(s, raid.target, Dog) by { SameDogs(s, u, raid.target); }
    var dogs := Share(HouseCopies(s, raid.target, Dog), rules.dogPercent);
    Drawn(s, u, DrawnByDogs(s, raid, now, rules), 100);
    var t := Tried(u, dogs);
    assert SameHere(s, t);
    if FateOf(s, raid, now, rules) == GotIn {
      GotInFated(s, t, ride, now, rules);
    } else {
      StoppedFated(s, t, ride, now, rules);
    }
  }

  lemma SameDogs(s: State, t: State, player: string)
    requires t.house == s.house
    ensures HouseCopies(t, player, Dog) == HouseCopies(s, player, Dog)
  {
  }

  lemma RaidedFated(s: State, ride: nat, now: int, rules: Rules)
    requires ride < |s.raids|
    ensures Fated(s, Raided(s, ride, now, rules), ride, s.raids[ride], now, rules)
  {
    hide Fated; hide Robbed; hide PastBalloon; hide SetRide; hide NinjaTry; hide SneakChance; hide GetsPast; hide Sneaks; hide GuardsHome;
    hide KeptOf; hide Attempt; hide Attempted; hide Draw; hide Percent; hide LuckAfter; hide Rolled;
    var raid := s.raids[ride];
    NinjaCounted(s, raid, now, rules);
    NoneDrawn(s);
    Drawn(s, s, 0, 100);
    var t := Tried(s, SneakChance(s, raid, rules, now));
    if Sneaks(s, raid, rules, now) {
      GotInFated(s, t, ride, now, rules);
    } else {
      AttemptDrawn(s, t, raid, now, rules);
      var u := Attempted(t, raid.target, AtHome, now);
      if Attempt(t, raid.target, AtHome, now) == Held {
        StoppedFated(s, u, ride, now, rules);
      } else {
        DogsFated(s, u, ride, now, rules);
      }
    }
  }

  // ---------------------------------------------------------------- at the door

  ghost predicate IsRecent(knock: Knock, now: int) {
    now - knock.at <= 300
  }

  /** He was at that door not long ago. */
  ghost predicate IsBack(s: State, raid: Raid, now: int) {
    exists knock :: knock in s.knocks && knock.raider == raid.raider && knock.target == raid.target && IsRecent(knock, now)
  }

  /** Who comes back too soon to a house with salt hands over a share of his palle, and is counted afresh; anybody else is noted. */
  ghost predicate PaysAtDoor(s: State, t: State, raid: Raid, now: int, rules: Rules) {
    var share := Percent(KeptOf(s, raid.target, Salt), rules.saltPercent);
    var his := if Counter(s.scores, raid.raider) > 0 then Counter(s.scores, raid.raider) else 0;
    && t == s.(scores := t.scores, knocks := t.knocks)
    && if share > 0 && IsBack(s, raid, now) then
         && (forall q :: Counter(t.scores, q) ==
               if q == raid.raider then (if raid.raider == raid.target then his else his - his * share / 100)
               else if q == raid.target then Counter(s.scores, q) + his * share / 100
               else Counter(s.scores, q))
         && forall knock :: knock in t.knocks <==>
              knock in s.knocks && IsRecent(knock, now) && (knock.raider != raid.raider || knock.target != raid.target)
       else
         && t.scores == s.scores
         && forall knock :: knock in t.knocks <==>
              (knock in s.knocks && IsRecent(knock, now)) || knock == Knock(raid.raider, raid.target, now)
  }

  lemma {:induction false} RecentIs(knocks: seq<Knock>, now: int)
    ensures forall knock :: knock in Recent(knocks, now) <==> knock in knocks && IsRecent(knock, now)
  {
    if knocks != [] {
      RecentIs(knocks[..|knocks| - 1], now);
    }
  }

  lemma {:induction false} ForgottenIs(knocks: seq<Knock>, raider: string, target: string)
    ensures forall knock :: knock in Forgotten(knocks, raider, target) <==>
              knock in knocks && (knock.raider != raider || knock.target != target)
  {
    if knocks != [] {
      ForgottenIs(knocks[..|knocks| - 1], raider, target);
    }
  }

  lemma BackIs(s: State, raid: Raid, now: int)
    ensures Knocked(Recent(s.knocks, now), raid.raider, raid.target) <==> IsBack(s, raid, now)
  {
    hide IsRecent; hide Recent;
    RecentIs(s.knocks, now);
    var recent := Recent(s.knocks, now);
    if IsBack(s, raid, now) {
      var knock :| knock in s.knocks && knock.raider == raid.raider && knock.target == raid.target && IsRecent(knock, now);
      assert knock in recent;
    }
    if Knocked(recent, raid.raider, raid.target) {
      var j :| 0 <= j < |recent| && recent[j].raider == raid.raider && recent[j].target == raid.target;
      assert recent[j] in recent;
    }
  }

  lemma SaltScored(s: State, raid: Raid, rules: Rules)
    ensures var his := if Counter(s.scores, raid.raider) > 0 then Counter(s.scores, raid.raider) else 0;
            forall q :: Counter(SaltScores(s, raid, rules), q) ==
              if q == raid.raider then (if raid.raider == raid.target then his else his - his * SaltShare(s, raid, rules) / 100)
              else if q == raid.target then Counter(s.scores, q) + his * SaltShare(s, raid, rules) / 100
              else Counter(s.scores, q)
  {
    hide SaltShare;
  }

  lemma SaltedIs(s: State, raid: Raid, now: int, rules: Rules)
    ensures var t := Salted(s, raid, now, rules);
            if SaltShare(s, raid, rules) > 0 && Knocked(Recent(s.knocks, now), raid.raider, raid.target)
            then t.scores == SaltScores(s, raid, rules)
                 && t.knocks == Forgotten(Recent(s.knocks, now), raid.raider, raid.target)
            else t.scores == s.scores && t.knocks == Recent(s.knocks, now) + [Knock(raid.raider, raid.target, now)]
  {
    hide SaltShare; hide SaltScores; hide Recent; hide Forgotten; hide Knocked;
  }

  lemma SaltedPaysIs(s: State, raid: Raid, now: int, rules: Rules)
    ensures PaysAtDoor(s, Salted(s, raid, now, rules), raid, now, rules)
  {
    hide HouseCopies; hide KeptOf; hide Share; hide Percent; hide Recent; hide Forgotten; hide Knocked; hide IsBack; hide IsRecent;
    hide Salted; hide SaltScores; hide Counter;
    KeptCounted(s, raid.target, Salt);
    PercentIs(HouseCopies(s, raid.target, Salt), rules.saltPercent);
    BackIs(s, raid, now);
    RecentIs(s.knocks, now);
    ForgottenIs(Recent(s.knocks, now), raid.raider, raid.target);
    SaltScored(s, raid, rules);
    SaltedIs(s, raid, now, rules);
  }

  /** The dino of the house may eat one of the emoji he has on him. */
  ghost predicate IsBitten(s: State, t: State, raid: Raid, rules: Rules) {
    var jaws := Percent(KeptOf(s, raid.target, Dino), rules.dinoPercent);
    if jaws > 0 && Draw(s, 0, 100) < jaws then IsBlast(s.(luck := LuckAfter(s, 1)), t, raid.raider, true)
    else t == s.(luck := LuckAfter(s, if jaws > 0 then 1 else 0))
  }

  lemma BittenIs(s: State, raid: Raid, rules: Rules)
    ensures IsBitten(s, Bitten(s, raid, rules), raid, rules)
  {
    hide HouseCopies; hide KeptOf; hide Share; hide Percent; hide BlownUp; hide IsBlast;
    KeptCounted(s, raid.target, Dino);
    PercentIs(HouseCopies(s, raid.target, Dino), rules.dinoPercent);
    NoneDrawn(s);
    Drawn(s, s, 0, 100);
    BlastIs(Rolled(s), raid.raider, true);
  }

  // ---------------------------------------------------------------- the whole visit

  /** Everything a visit comes to: he pays at the door, the dino bites, and then his fate is as what is there and what is drawn say. */
  ghost predicate Visits(s: State, t: State, ride: nat, now: int, rules: Rules)
    requires ride < |s.raids|
  {
    var raid := s.raids[ride].(arrived := true);
    exists paid: State, bitten: State ::
      && PaysAtDoor(s.(raids := s.raids[ride := raid]), paid, raid, now, rules)
      && IsBitten(paid, bitten, raid, rules)
      && Fated(bitten, t, ride, raid, now, rules)
  }

  /** raid_due, for a raider who gets there now and brings nothing. */
  lemma RobberArrives(s: State, ride: nat, now: int, rules: Rules)
    requires ride < |s.raids| && !s.raids[ride].arrived && now >= s.raids[ride].arrive
    requires s.raids[ride].gift == 0 && s.raids[ride].giftEmoji == ""
    ensures Visits(s, Arrived(s, ride, now, rules), ride, now, rules)
  {
    hide Salted; hide Bitten; hide Raided; hide Delivered; hide PaysAtDoor; hide IsBitten; hide Fated;
    var raid := s.raids[ride].(arrived := true);
    var t := SetRide(s, ride, raid);
    var paid := Salted(t, s.raids[ride], now, rules);
    var bitten := Bitten(paid, s.raids[ride], rules);
    assert paid == Salted(t, raid, now, rules) by { SaltedSame(t, s.raids[ride], raid, now, rules); }
    assert bitten == Bitten(paid, raid, rules) by { BittenSame(paid, s.raids[ride], raid, rules); }
    SaltedPaysIs(t, raid, now, rules);
    BittenIs(paid, raid, rules);
    assert bitten.raids[ride] == raid;
    RaidedFated(bitten, ride, now, rules);
  }

  lemma SaltedSame(s: State, raid: Raid, raid': Raid, now: int, rules: Rules)
    requires raid'.raider == raid.raider && raid'.target == raid.target
    ensures Salted(s, raid', now, rules) == Salted(s, raid, now, rules)
  {
    hide Recent; hide Forgotten; hide HouseCopies;
  }

  lemma BittenSame(s: State, raid: Raid, raid': Raid, rules: Rules)
    requires raid'.raider == raid.raider && raid'.target == raid.target
    ensures Bitten(s, raid', rules) == Bitten(s, raid, rules)
  {
    hide BlownUp; hide HouseCopies;
  }
}
