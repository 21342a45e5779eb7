/** src/game.cpp, raid_due: the keeper's round, which settles the rides that got there or came home. */
module Rides {
  import opened Basics
  import opened Powers
  import opened Ledger
  import opened Places
  import opened World
  import Position

  const SALT_SECONDS := 300

  /** RaidRules. The hour of the day comes in as golden, whether it is the golden one. */
  datatype Rules = Rules(lootDivisor: int, travelDivisor: int, furnitureLimit: nat, smearedSeconds: int,
                         rocketPercent: int, pleadingPercent: int, bombDudPercent: int, dogPercent: int,
                         mailboxPercent: int, ninjaPercent: int, alarmPercent: int, piratePercent: int,
                         pregnancySeconds: int, childStageSeconds: int, henPerMinute: int, matingPercent: int,
                         dinoPercent: int, saltPercent: int, frozenSeconds: int, firePercent: int, golden: bool)

  // ---------------------------------------------------------------- what changes hands

  function WithScore(s: State, player: string, palle: int): (t: State)
    ensures t == s.(scores := t.scores)
  {
    s.(scores := s.scores[player := palle])
  }

  function InHouse(s: State, player: string, slot: nat, emoji: string): (t: State)
    ensures t == s.(house := t.house)
  {
    s.(house := Put(s.house, player, slot, emoji))
  }

  function OnHim(s: State, player: string, slot: nat, emoji: string): (t: State)
    ensures t == s.(gear := t.gear)
  {
    s.(gear := Put(s.gear, player, slot, emoji))
  }

  function SetRide(s: State, ride: nat, raid: Raid): (t: State)
    requires ride < |s.raids|
    ensures t == s.(raids := t.raids) && |t.raids| == |s.raids|
  {
    s.(raids := s.raids[ride := raid])
  }

  /** put_on. */
  function PutOn(s: State, player: string, emoji: string): (t: Option<State>)
    ensures t.Some? ==> t.value == s.(gear := t.value.gear)
  {
    match FreeSlot(GearSlots(s, player), CARRIED_LIMIT)
    case None => None
    case Some(slot) => Some(OnHim(s, player, slot, emoji))
  }

  /** put_in_house. */
  function PutInHouse(s: State, player: string, emoji: string, limit: nat): (t: Option<State>)
    ensures t.Some? ==> t.value == s.(house := t.value.house)
  {
    match FreeSlot(HouseSlots(s, player), limit)
    case None => None
    case Some(slot) => Some(InHouse(s, player, slot, emoji))
  }

  /** receive: where an emoji works, if he is home to take it and has room, else in the house, else nowhere. */
  function Received(s: State, player: string, emoji: string, limit: nat): (t: Option<State>)
    ensures t.Some? ==> t.value == s.(house := t.value.house, gear := t.value.gear)
  {
    hide *;
    var on := if WorksOnHim(emoji) && WhereIs(s, player) == AtHome then PutOn(s, player, emoji) else None;
    if on.Some? then on else PutInHouse(s, player, emoji, limit)
  }

  /** put_on, or in the house whatever its size: an emoji nobody took always finds a slot. */
  function TakenBack(s: State, player: string, emoji: string): (t: State)
    ensures t == s.(house := t.house, gear := t.gear)
  {
    hide *;
    match PutOn(s, player, emoji)
    case Some(t) => t
    case None => InHouse(s, player, FirstEmpty(HouseSlots(s, player)), emoji)
  }

  // ---------------------------------------------------------------- what lands

  /** blow_up: one emoji with a power is gone, drawn among those that are there. */
  function BlownUp(s: State, target: string, onHim: bool): (t: State)
    ensures t == s.(house := t.house, gear := t.gear, luck := t.luck, told := t.told)
  {
    hide *;
    var slots := if onHim then GearSlots(s, target) else HouseSlots(s, target);
    var there := Exposed(slots, |slots|);
    if there == [] then s else
    var hit := there[Roll(s, |there|)];
    var t := if onHim then OnHim(s, target, hit, "") else InHouse(s, target, hit, "");
    Rolled(Tell(t, Went(slots[hit])))
  }

  /** The ride of a player who starts over: he is home now, with nothing. */
  function Emptied(raids: seq<Raid>, player: string, now: int): (emptied: seq<Raid>)
    ensures |emptied| == |raids|
    ensures forall j | 0 <= j < |raids| :: emptied[j] ==
              if raids[j].raider == player
              then raids[j].(arrived := true, back := now, loot := 0, gift := 0, giftEmoji := "") else raids[j]
  {
    seq(|raids|, j requires 0 <= j < |raids| =>
      if raids[j].raider == player
      then raids[j].(arrived := true, back := now, loot := 0, gift := 0, giftEmoji := "") else raids[j])
  }

  /** The children somewhere else. */
  function Elsewhere(children: seq<Child>, player: string): (others: seq<Child>)
    ensures forall child :: child in others <==> child in children && child.owner != player
  {
    if children == [] then [] else
    var last, before := children[|children| - 1], Elsewhere(children[..|children| - 1], player);
    if last.owner == player then before else before + [last]
  }

  function NotExpecting(pregnancies: seq<Pregnancy>, player: string): seq<Pregnancy> {
    if pregnancies == [] then [] else
    var last, before := pregnancies[|pregnancies| - 1], NotExpecting(pregnancies[..|pregnancies| - 1], player);
    if last.mother == player then before else before + [last]
  }

  /** The ride a player who starts over has under way, if he was not paid for it already. */
  function Losing(raids: seq<Raid>, player: string, walked: nat, now: int): Option<Raid> {
    match RideOf(raids, player)
    case None => None
    case Some(j) => if j < walked && Due(raids[j], now) then None else Some(raids[j])
  }

  function LostPalle(lost: Option<Raid>): int {
    if lost.Some? then lost.value.loot + lost.value.gift else 0
  }

  function LostGift(lost: Option<Raid>): string {
    if lost.Some? then lost.value.giftEmoji else ""
  }

  function NoPalle(scores: map<string, int>, player: string): map<string, int> {
    if player in scores then scores[player := 0] else scores
  }

  /** start_over on one player. walked: how many rides of the list have been settled, when it is being walked. */
  function StartedOver(s: State, player: string, walked: nat, now: int): (t: State)
    ensures |t.raids| == |s.raids| && t.names == s.names
  {
    var lost := Losing(s.raids, player, walked, now);
    var t := s.(
      scores := NoPalle(s.scores, player),
      current := if HoldsPlace(s, player) then None else s.current,
      raids := Emptied(s.raids, player, now),
      house := Hung(s.house, player, []),
      gear := s.gear[player := [BALLOON]],
      pregnancies := NotExpecting(s.pregnancies, player),
      children := Elsewhere(s.children, player),
      balloons := s.balloons - {player},
      cooldowns := s.cooldowns - {player},
      smeared := s.smeared - {player});
    Tell(Tell(t, Wiped(player, Counter(s.scores, player) + LostPalle(lost),
                      HouseSlots(s, player) + GearSlots(s, player) + [LostGift(lost)])),
         Came(BALLOON))
  }

  /** smear: he is "lo smerdato" from now, however long he already was. */
  function Smeared(s: State, victim: string, now: int, rules: Rules): (t: State)
    ensures t == s.(smeared := t.smeared)
  {
    if rules.smearedSeconds > 0 then s.(smeared := s.smeared[victim := now + rules.smearedSeconds]) else s
  }

  /** A dud goes off in the thrower's own hand, any other bomb where it lands. */
  function Bombed(s: State, thrower: string, victim: string, site: Whereabouts, rules: Rules): (t: State)
    ensures t == s.(house := t.house, gear := t.gear, luck := t.luck, told := t.told)
  {
    hide *;
    if Lucky(s, rules.bombDudPercent) then BlownUp(Rolled(s), thrower, true)
    else BlownUp(Tried(s, rules.bombDudPercent), victim, site == AtPlace)
  }

  function Expecting(s: State, thrower: string, victim: string, now: int, rules: Rules): (t: State)
    ensures t == s.(pregnancies := t.pregnancies)
  {
    s.(pregnancies := s.pregnancies + [Pregnancy(victim, thrower, now + Max(rules.pregnancySeconds, 0))])
  }

  /** How long an ice freezes him: every fire he has with him melts its share of it. */
  function FreezeTime(s: State, victim: string, rules: Rules): int {
    Max(rules.frozenSeconds, 0) * (100 - Share(CarriedCopies(s, victim, Fire), rules.firePercent)) / 100
  }

  function Frozen(s: State, victim: string, now: int, rules: Rules): (t: State)
    ensures t == s.(frozen := t.frozen)
  {
    hide *;
    var froze := FreezeTime(s, victim, rules);
    if froze > 0 then s.(frozen := s.frozen[victim := now + froze]) else s
  }

  /** land: what a thrown emoji does where somebody is. */
  function Landed(s: State, thrown: string, thrower: string, victim: string, site: Whereabouts, walked: nat, now: int,
                  rules: Rules): (t: State)
    ensures |t.raids| == |s.raids| && t.names == s.names
    ensures PowerOf(thrown) == Some(Bomb) || PowerOf(thrown) == Some(Nuke) ||
            t == s.(smeared := t.smeared, pregnancies := t.pregnancies, frozen := t.frozen)
  {
    hide *;
    match PowerOf(thrown)
    case Some(Poo) => Smeared(s, victim, now, rules)
    case Some(Bomb) => Bombed(s, thrower, victim, site, rules)
    case Some(Nuke) => StartedOver(s, victim, walked, now)
    case Some(Seed) => Expecting(s, thrower, victim, now, rules)
    case Some(Ice) => Frozen(s, victim, now, rules)
    case _ => s
  }

  // ---------------------------------------------------------------- the balloon and the ninja

  /** balloon_attempt: none there, held, or popped and as good as new. */
  datatype BalloonRoll = NoBalloon | Held | Popped

  function Attempt(s: State, player: string, site: Whereabouts, now: int): BalloonRoll {
    if !BalloonThere(s, player, site, now) then NoBalloon
    else if Roll(s, 4) < Counter(s.balloons, player) + 1 then Popped
    else Held
  }

  function Attempted(s: State, player: string, site: Whereabouts, now: int): (t: State)
    ensures t == s.(balloons := t.balloons, luck := t.luck)
  {
    hide *;
    match Attempt(s, player, site, now)
    case NoBalloon => s
    case Popped => Rolled(s).(balloons := s.balloons - {player})
    case Held => Rolled(s).(balloons := s.balloons[player := Counter(s.balloons, player) + 1])
  }

  function SneakChance(s: State, raid: Raid, rules: Rules, now: int): int {
    if BalloonThere(s, raid.target, AtHome, now) || HouseCopies(s, raid.target, Dog) > 0
    then Share(CarriedCopies(s, raid.raider, Ninja), rules.ninjaPercent) else 0
  }

  /** sneaks: whether his ninja take him past what guards the house, the alarm there taking its share off. */
  predicate Sneaks(s: State, raid: Raid, rules: Rules, now: int) {
    var chance := SneakChance(s, raid, rules, now);
    && chance > 0
    && Roll(s, 100) < Max(0, chance - HouseCopies(s, raid.target, Alarm) * Max(rules.alarmPercent, 0))
  }

  // ---------------------------------------------------------------- a raider at the house

  function Recent(knocks: seq<Knock>, now: int): seq<Knock> {
    if knocks == [] then [] else
    var last, before := knocks[|knocks| - 1], Recent(knocks[..|knocks| - 1], now);
    if now - last.at > SALT_SECONDS then before else before + [last]
  }

  function Forgotten(knocks: seq<Knock>, raider: string, target: string): seq<Knock> {
    if knocks == [] then [] else
    var last, before := knocks[|knocks| - 1], Forgotten(knocks[..|knocks| - 1], raider, target);
    if last.raider == raider && last.target == target then before else before + [last]
  }

  predicate Knocked(knocks: seq<Knock>, raider: string, target: string) {
    exists j :: 0 <= j < |knocks| && knocks[j].raider == raider && knocks[j].target == target
  }

  /** A share of what somebody has. */
  function Toll(palle: int, share: int): int {
    Max(palle, 0) * share / 100
  }

  /** Palle handed over, even to oneself. */
  function PaidTo(scores: map<string, int>, giver: string, taker: string, paid: int): map<string, int> {
    var given := scores[giver := Max(Counter(scores, giver), 0) - paid];
    given[taker := Counter(given, taker) + paid]
  }

  function SaltShare(s: State, raid: Raid, rules: Rules): int {
    Share(HouseCopies(s, raid.target, Salt), rules.saltPercent)
  }

  /** Whether he comes back too soon to a house with salt. */
  predicate PaysSalt(s: State, raid: Raid, now: int, rules: Rules) {
    SaltShare(s, raid, rules) > 0 && Knocked(Recent(s.knocks, now), raid.raider, raid.target)
  }

  function SaltScores(s: State, raid: Raid, rules: Rules): map<string, int> {
    PaidTo(s.scores, raid.raider, raid.target, Toll(Counter(s.scores, raid.raider), SaltShare(s, raid, rules)))
  }

  /** salt: who comes back too soon hands over a share of his own palle, and the house counts him afresh. */
  function Salted(s: State, raid: Raid, now: int, rules: Rules): (t: State)
    ensures t == s.(scores := t.scores, knocks := t.knocks)
  {
    hide *;
    var knocks := Recent(s.knocks, now);
    if PaysSalt(s, raid, now, rules)
    then s.(scores := SaltScores(s, raid, rules), knocks := Forgotten(knocks, raid.raider, raid.target))
    else s.(knocks := knocks + [Knock(raid.raider, raid.target, now)])
  }

  /** The dino of the house may eat one of the emoji he has on him. */
  function Bitten(s: State, raid: Raid, rules: Rules): (t: State)
    ensures t == s.(house := t.house, gear := t.gear, luck := t.luck, told := t.told)
  {
    hide *;
    var jaws := Share(HouseCopies(s, raid.target, Dino), rules.dinoPercent);
    if Lucky(s, jaws) then BlownUp(Rolled(s), raid.raider, true) else Tried(s, jaws)
  }

  predicate CanBoard(s: State, target: string, slot: nat) {
    At(s.house, target, slot) != "" && !IsChild(s.children, target, slot) && !IsUntouchable(At(s.house, target, slot))
  }

  function Boardable(s: State, target: string, upTo: nat): (there: seq<nat>)
    ensures forall k | 0 <= k < |there| :: there[k] < upTo && CanBoard(s, target, there[k])
    ensures forall slot: nat | slot < upTo && CanBoard(s, target, slot) :: slot in there
  {
    hide CanBoard;
    if upTo == 0 then [] else
    var before := Boardable(s, target, upTo - 1);
    if CanBoard(s, target, upTo - 1) then before + [upTo - 1] else before
  }

  /** board: the pirates on him may carry off one emoji of the house. */
  function Boarded(s: State, raid: Raid, rules: Rules): (t: State)
    ensures t == s.(house := t.house, gear := t.gear, luck := t.luck)
  {
    hide *;
    var chance := Share(CarriedCopies(s, raid.raider, Pirate), rules.piratePercent);
    if !Lucky(s, chance) then Tried(s, chance) else
    var t := Rolled(s);
    if FreeSlot(GearSlots(t, raid.raider), CARRIED_LIMIT).None? then t else
    var there := Boardable(t, raid.target, |HouseSlots(t, raid.target)|);
    if there == [] then t else
    var taken := there[Roll(t, |there|)];
    var u := InHouse(Rolled(t), raid.target, taken, "");
    match PutOn(u, raid.raider, At(t.house, raid.target, taken))
    case Some(v) => v
    case None => u
  }

  /** The road says what can be taken, and nobody loses more than he has. */
  function Taken(s: State, raid: Raid, rules: Rules): int {
    var distance := Position.Distance(Position.CoordinatesOf(Counter(s.ids, raid.raider)),
                                      Position.CoordinatesOf(Counter(s.ids, raid.target)));
    var walked := if rules.lootDivisor > 0 then distance / rules.lootDivisor else distance;
    Min(Counter(s.scores, raid.target), walked * (if rules.golden then 2 else 1))
  }

  /** Each pleading face in the house spares a share of it. */
  function Loot(s: State, raid: Raid, rules: Rules): int {
    var taken := Taken(s, raid, rules);
    taken - Toll(taken, Share(HouseCopies(s, raid.target, Pleading), rules.pleadingPercent))
  }

  function Credit(scores: map<string, int>, player: string, palle: int): map<string, int> {
    if palle > 0 then scores[player := Counter(scores, player) + palle] else scores
  }

  function Debit(scores: map<string, int>, player: string, palle: int): map<string, int> {
    if palle > 0 then scores[player := Counter(scores, player) - palle] else scores
  }

  /** The loot goes from the target's palle onto the ride. */
  function Carrying(s: State, ride: nat, loot: int): (t: State)
    requires ride < |s.raids|
    ensures t == s.(scores := t.scores, raids := t.raids) && |t.raids| == |s.raids|
  {
    var raid := s.raids[ride];
    s.(scores := Debit(s.scores, raid.target, loot), raids := s.raids[ride := raid.(loot := loot)])
  }

  /** A raid that got through. */
  function Robbed(s: State, ride: nat, rules: Rules): (after: State)
    requires ride < |s.raids|
    ensures |after.raids| == |s.raids| && after.names == s.names
  {
    var raid := s.raids[ride];
    Boarded(Carrying(s, ride, Loot(s, raid, rules)), raid, rules)
  }

  /** Past the balloon he may still meet the dogs. */
  function PastBalloon(s: State, ride: nat, rules: Rules): (after: State)
    requires ride < |s.raids|
    ensures |after.raids| == |s.raids| && after.names == s.names
  {
    hide *;
    var dogs := Share(HouseCopies(s, s.raids[ride].target, Dog), rules.dogPercent);
    var t := Tried(s, dogs);
    if Lucky(s, dogs) then SetRide(t, ride, t.raids[ride].(loot := 0)) else Robbed(t, ride, rules)
  }

  /** Who came to rob meets the balloon, then the dogs; a ninja may take him past both. */
  function Raided(s: State, ride: nat, now: int, rules: Rules): (after: State)
    requires ride < |s.raids|
    ensures |after.raids| == |s.raids| && after.names == s.names
  {
    hide *;
    var raid := s.raids[ride];
    var t := Tried(s, SneakChance(s, raid, rules, now));
    if Sneaks(s, raid, rules, now) then Robbed(t, ride, rules) else
    var u := Attempted(t, raid.target, AtHome, now);
    if Attempt(t, raid.target, AtHome, now) == Held then SetRide(u, ride, raid.(loot := 0)) else PastBalloon(u, ride, rules)
  }

  /** Whom a thrown emoji reaches: who lives there, or the raider in his own house when a mailbox sends it back. */
  function SentBack(s: State, raid: Raid, rules: Rules): bool {
    Lucky(s, Share(HouseCopies(s, raid.target, Mailbox), rules.mailboxPercent))
  }

  function AsItIs(rules: Rules): Rules {
    rules.(bombDudPercent := 0)
  }

  function Struck(s: State, ride: nat, now: int, rules: Rules): (after: State)
    requires ride < |s.raids|
    ensures |after.raids| == |s.raids| && after.names == s.names
  {
    hide *;
    var raid := s.raids[ride];
    var t := Tried(s, Share(HouseCopies(s, raid.target, Mailbox), rules.mailboxPercent));
    var victim := if SentBack(s, raid, rules) then raid.raider else raid.target;
    var as' := if SentBack(s, raid, rules) then AsItIs(rules) else rules;
    ThrownAway(Landed(t, raid.giftEmoji, raid.raider, victim, AtHome, ride, now, as'), ride)
  }

  /** What was thrown is gone. */
  function ThrownAway(s: State, ride: nat): (after: State)
    requires ride < |s.raids|
    ensures |after.raids| == |s.raids| && after.names == s.names
  {
    var raid := s.raids[ride];
    Tell(SetRide(s, ride, raid.(giftEmoji := "")), Went(raid.giftEmoji))
  }

  /** Palle are handed over on arrival. */
  function Handed(s: State, ride: nat): (after: State)
    requires ride < |s.raids|
    ensures |after.raids| == |s.raids| && after.names == s.names
  {
    hide *;
    var raid := s.raids[ride];
    if raid.gift <= 0 then s else
    SetRide(WithScore(s, raid.target, Counter(s.scores, raid.target) + raid.gift), ride, raid.(gift := 0))
  }

  /** Who came to give hands over palle or an emoji; one with nowhere to go stays with him. */
  function Delivered(s: State, ride: nat, now: int, rules: Rules): (after: State)
    requires ride < |s.raids|
    ensures |after.raids| == |s.raids| && after.names == s.names
  {
    hide *;
    var t := Handed(s, ride);
    var raid := t.raids[ride];
    var thrown := IsThrown(raid.giftEmoji) && !raid.intact;
    if raid.giftEmoji == "" then t
    else if thrown && IsPower(raid.giftEmoji, Seed) && WhereIs(t, raid.target) != AtHome then t
    else if thrown then Struck(t, ride, now, rules)
    else
      match Received(t, raid.target, raid.giftEmoji, rules.furnitureLimit)
      case Some(u) => SetRide(u, ride, raid.(giftEmoji := ""))
      case None => t
  }

  /** What a ride does when it gets there. */
  function Arrived(s: State, ride: nat, now: int, rules: Rules): (after: State)
    requires ride < |s.raids|
    ensures |after.raids| == |s.raids| && after.names == s.names
  {
    hide *;
    var raid := s.raids[ride];
    if raid.arrived || now < raid.arrive then s else
    var t := SetRide(s, ride, raid.(arrived := true));
    if raid.gift > 0 || raid.giftEmoji != "" then Delivered(t, ride, now, rules) else
    var u := if raid.gift == 0 then Bitten(Salted(t, raid, now, rules), raid, rules) else t;
    Raided(u, ride, now, rules)
  }

  /** What nobody took is his again. */
  function Unpacked(s: State, raid: Raid): (t: State)
    ensures t == s.(house := t.house, gear := t.gear)
  {
    hide *;
    if raid.giftEmoji != "" then TakenBack(s, raid.raider, raid.giftEmoji) else s
  }

  /** What a ride does when it is home: the loot, and whatever nobody received, are his. */
  function CameHome(s: State, ride: nat, now: int): (after: State)
    requires ride < |s.raids|
    ensures after == s.(scores := after.scores, house := after.house, gear := after.gear, told := after.told)
  {
    hide *;
    var raid := s.raids[ride];
    if !Due(raid, now) then s else
    Unpacked(s, raid).(scores := Credit(s.scores, raid.raider, raid.loot + raid.gift),
                       told := s.told + [Returned(ride, raid.loot + raid.gift, raid.giftEmoji)])
  }

  /** The walk over the rides: what one does may change the ones before it and after it, but not how many they are. */
  function Walk(s: State, ride: nat, now: int, rules: Rules): (after: State)
    requires ride <= |s.raids|
    ensures after.names == s.names
    decreases |s.raids| - ride
  {
    if ride == |s.raids| then s else
    Walk(CameHome(Arrived(s, ride, now, rules), ride, now), ride + 1, now, rules)
  }
}
