/** src/game.cpp, raid_start: setting off, and turning back. */
module Journeys {
  import opened Basics
  import opened Powers
  import opened Text
  import opened Ledger
  import opened Places
  import opened World
  import opened Laws
  import opened Rides
  import opened Holds
  import opened Naming
  import opened Claims
  import opened Belongings
  import Settling
  import Position

  datatype RaidStatus =
    | Started | AlreadyTravelling | HoldingPlace | UnknownTarget | LeftThePlace | ComingHome | HomeAlready
    | InsufficientScore | InvalidAmount | NoSuchEmoji | NoRoom | HandsFull | FrozenRaider | ProtectedTarget

  /** What he takes along: palle, an emoji, and whether the emoji is a present even if it is one to throw. */
  datatype Load = Load(gift: int, emoji: string, intact: bool)

  // ---------------------------------------------------------------- may he leave

  /** A blow, not a present. */
  predicate IsBlow(load: Load) {
    load.gift == 0 && (load.emoji == "" || (!load.intact && IsThrown(load.emoji)))
  }

  /** can_receive. */
  predicate CanReceive(s: State, player: string, emoji: string, limit: nat) {
    || FreeSlot(HouseSlots(s, player), limit).Some?
    || (WorksOnHim(emoji) && WhereIs(s, player) == AtHome && FreeSlot(GearSlots(s, player), CARRIED_LIMIT).Some?)
  }

  /** Why the emoji stays where it is, if it does. */
  function EmojiStays(s: State, player: string, target: string, load: Load, rules: Rules): Option<RaidStatus> {
    var found := Finding(s, player, load.emoji);
    if load.emoji == "" then None
    else if found == Nowhere then Some(NoSuchEmoji)
    else if found.Kept? && FreeSlot(GearSlots(s, player), CARRIED_LIMIT).None? then Some(HandsFull)
    else if (load.intact || !IsThrown(load.emoji)) && !CanReceive(s, target, load.emoji, rules.furnitureLimit) then Some(NoRoom)
    else None
  }

  /** Why the palle stay where they are, if they do. */
  function PalleStay(s: State, player: string, load: Load): Option<RaidStatus> {
    if load.gift < 0 then Some(InvalidAmount)
    else if load.gift > 0 && load.gift > Counter(s.scores, player) then Some(InsufficientScore)
    else None
  }

  /** Why he stays, if he does: whoever is on the road, frozen or in the place does not leave, and nobody hits a newcomer. */
  function KeptBack(s: State, player: string, target: string, load: Load, now: int): Option<RaidStatus> {
    if RideOf(s.raids, player).Some? then Some(AlreadyTravelling)
    else if IsBlow(load) && IsNewcomer(s, target, now) then Some(ProtectedTarget)
    else if FrozenFor(s, player, now) > 0 then Some(FrozenRaider)
    else if HoldsPlace(s, player) then Some(HoldingPlace)
    else PalleStay(s, player, load)
  }

  // ---------------------------------------------------------------- the way home

  /** He turns his back on the raid: what is left is the road already walked. */
  function Turned(raid: Raid, now: int): Raid {
    var leg := raid.back - raid.arrive;
    var left := if now < raid.arrive then Max(now - (raid.arrive - leg), 0) else Max(raid.back - now, 0);
    raid.(arrived := true, back := now + left)
  }

  /** Naming yourself is the way home. */
  function Homewards(s: State, player: string, now: int): (t: Result<State>)
    ensures t.Done? ==> t.value == s.(current := t.value.current, scores := t.value.scores, raids := t.value.raids, told := t.value.told)
  {
    hide *;
    match RideOf(s.raids, player)
    case Some(ride) => Done(SetRide(s, ride, Turned(s.raids[ride], now)))
    case None => GoneHome(s, player, now)
  }

  // ---------------------------------------------------------------- setting off

  /** The first of the draws, if there is one, that is nobody's point of the map yet. */
  function FreeDraw(ids: map<string, int>, luck: seq<nat>): (draw: Option<nat>)
    ensures draw.Some? ==> draw.value < |luck| && luck[draw.value] % Position.IDS !in ids.Values
  {
    if luck == [] then None
    else if luck[0] % Position.IDS !in ids.Values then Some(0)
    else
      var rest :- FreeDraw(ids, luck[1..]);
      Some(rest + 1)
  }

  /** player_id: drawn the first time, until it is nobody's, and never changed. */
  function OnMap(s: State, player: string): (t: Result<State>)
    ensures t.Done? ==> t.value == s.(ids := t.value.ids, luck := t.value.luck) && player in t.value.ids
  {
    if player in s.ids then Done(s) else
    match FreeDraw(s.ids, s.luck)
    case None => Abandoned
    case Some(k) => Done(s.(ids := s.ids[player := s.luck[k] % Position.IDS], luck := s.luck[k + 1..]))
  }

  /** The rockets he has on him speed up both legs. */
  function Faster(seconds: int, rockets: int, percent: int): int {
    if rockets > 0 && percent > 0 then Max(Position.SHORTEST, seconds * 100 / (100 + rockets * percent)) else seconds
  }

  function TravelTime(s: State, player: string, target: string, rules: Rules): int {
    var distance := Position.Distance(Position.CoordinatesOf(Counter(s.ids, player)),
                                      Position.CoordinatesOf(Counter(s.ids, target)));
    Faster(Position.TravelSeconds(distance, rules.travelDivisor), CarriedCopies(s, player, Rocket), rules.rocketPercent)
  }

  /** Palle taken along leave home with him. */
  function PickedUp(s: State, player: string, gift: int): (t: State)
    ensures t == s.(scores := t.scores)
  {
    if gift == 0 then s else s.(scores := s.scores[player := Counter(s.scores, player) - gift])
  }

  function Unhung(s: State, player: string, emoji: string): (t: State)
    ensures t == s.(house := t.house, gear := t.gear)
  {
    if emoji == "" then s else TakenFrom(s, player, emoji)
  }

  function OnTheWay(s: State, player: string, target: string, load: Load, now: int, rules: Rules): Raid {
    var seconds := TravelTime(s, player, target, rules);
    Raid(player, target, now + seconds, now + 2 * seconds, false, 0, load.gift, load.emoji, load.intact)
  }

  /** He leaves, with all he takes along. */
  function SetOff(s: State, player: string, target: string, load: Load, now: int, rules: Rules): (t: Result<State>)
    ensures t.Done? ==> t.value == s.(ids := t.value.ids, luck := t.value.luck, house := t.value.house, gear := t.value.gear,
                                      raids := t.value.raids)
  {
    hide *;
    var there :- OnMap(Unhung(s, player, load.emoji), player);
    var t :- OnMap(there, target);
    Done(t.(raids := t.raids + [OnTheWay(t, player, target, load, now, rules)]))
  }

  function RaidAnswer(s: State, player: string, known: Option<string>, homewards: bool, load: Load, now: int, rules: Rules)
    : (answer: RaidStatus)
    ensures !homewards && answer != UnknownTarget ==> known.Some?
  {
    if homewards then
      if RideOf(s.raids, player).Some? then ComingHome else if HoldsPlace(s, player) then LeftThePlace else HomeAlready
    else if known.None? then UnknownTarget
    else
      match KeptBack(s, player, known.value, load, now)
      case Some(why) => why
      case None =>
        match EmojiStays(s, player, known.value, load, rules)
        case Some(why) => why
        case None => Started
  }

  /** What is only found out once the palle are picked up. */
  predicate IsLate(answer: RaidStatus) {
    answer == NoSuchEmoji || answer == HandsFull || answer == NoRoom
  }

  /** raid_start, for a target somebody was found behind; homewards is whether he named himself. Note the order: palle are
      picked up before the emoji is looked for. */
  function RaidStart(s: State, userId: int, player: string, known: Option<string>, homewards: bool, load: Load, now: int,
                     rules: Rules): (t: Result<State>)
    ensures t.Done? ==> t.value.names.accounts == s.names.accounts
  {
    hide *;
    var u := s.(names := Remembered(s.names, player, userId));
    var answer := RaidAnswer(s, player, known, homewards, load, now, rules);
    if homewards then Homewards(u, player, now)
    else if answer == Started then SetOff(PickedUp(u, player, load.gift), player, known.value, load, now, rules)
    else if IsLate(answer) then Done(PickedUp(u, player, load.gift))
    else Done(u)
  }

  // ---------------------------------------------------------------- turning back

  /** Each turn takes off the way home twice the time he would still have ridden on, and never more than is left of it. */
  lemma TurnedHome(raid: Raid, now: int)
    ensures Turned(raid, now).back == Max(now, raid.back - 2 * Max(raid.arrive - now, 0))
    ensures now <= Turned(raid, now).back <= Max(raid.back, now)
  {
  }

  /** Turning back the first time, before he got there, costs exactly the time he has ridden since he set off. */
  lemma FirstTurn(raid: Raid, left: int, now: int)
    requires !raid.arrived && raid.arrive - left == raid.back - raid.arrive && left <= now < raid.arrive
    ensures Turned(raid, now).back - now == now - left
  {
  }

  /** A second turn leaves the way home alone exactly when he is past the point where he would have arrived, or home. */
  lemma SecondTurn(raid: Raid, now: int)
    requires now <= raid.back
    ensures Turned(raid, now).back == raid.back <==> raid.arrive <= now || raid.back == now
  {
  }

  /** Ten seconds out of a hundred, a turn takes him home at twenty; a second one at fifteen takes him home at once. */
  lemma SecondTurnHastens()
    ensures exists raid: Raid, first: int, second: int ::
              && !raid.arrived && first < second < Turned(raid, first).back
              && Turned(Turned(raid, first), second).back < Turned(raid, first).back
  {
    var raid := Raid("", "", 100, 200, false, 0, 0, "", false);
    assert Turned(raid, 10).back == 20 && Turned(Turned(raid, 10), 15).back == 15;
  }

  /** All the turns of a ride, one after the other. */
  function TurnedAt(raid: Raid, times: seq<int>): Raid {
    if times == [] then raid else Turned(TurnedAt(raid, times[..|times| - 1]), times[|times| - 1])
  }

  /** However often he turns while he is on the road, he is never home later than he would have been, nor in the past. */
  lemma {:induction false} TurnsNeverLater(raid: Raid, times: seq<int>)
    requires forall k | 0 <= k < |times| :: times[k] <= TurnedAt(raid, times[..k]).back
    ensures TurnedAt(raid, times).back <= raid.back
    ensures times != [] ==> times[|times| - 1] <= TurnedAt(raid, times).back
  {
    if times != [] {
      var before := times[..|times| - 1];
      forall k | 0 <= k < |before|
        ensures before[k] <= TurnedAt(raid, before[..k]).back
      {
        assert before[..k] == times[..k];
      }
      TurnsNeverLater(raid, before);
      TurnedHome(TurnedAt(raid, before), times[|times| - 1]);
    }
  }

  /** Rides as they set off: both legs are as long, and no shorter than the shortest. */
  lemma BothLegs(s: State, player: string, target: string, load: Load, now: int, rules: Rules)
    ensures var raid := OnTheWay(s, player, target, load, now, rules);
            raid.arrive - now == raid.back - raid.arrive >= Position.SHORTEST && !raid.arrived
  {
    hide CarriedCopies;
    hide Position.Distance;
  }

  // ---------------------------------------------------------------- what it keeps

  lemma TurnedPlays(s: State, ride: nat, now: int, face: string)
    requires Sound(s) && ride < |s.raids|
    ensures Plays(s, SetRide(s, ride, Turned(s.raids[ride], now)), face)
  {
    hide Solvent; hide Housed; hide Raised; hide Holding; hide Total; hide OnTheRoad; hide PalleMade; hide EmojiMade;
    var raid := Turned(s.raids[ride], now);
    RoadSet(s.raids, ride, raid, 0, 0, LOAD);
    RoadSet(s.raids, ride, raid, 0, 0, GiftCopies(face));
    assert GiftCopies(face)(raid) == GiftCopies(face)(s.raids[ride]);
  }

  lemma LeftPlays(s: State, now: int, face: string)
    requires Sound(s)
    ensures var t := LeftPlace(s, now); t.Done? ==> Plays(s, t.value, face) && t.value.current.None?
  {
    hide Sound; hide Plays; hide SettledHold;
    QuietPlay(s, s, face);
    if s.current.Some? {
      var u := SettledHold(s, s.current.value, now);
      SettledLater(s, s.current.value, now);
      if u.Done? {
        SettledPlays(s, now, face);
        PlayedSound(s, u.value, face);
        EmptyPlace(u.value, face);
        PlaysOn(s, u.value, u.value.(current := None), face);
      }
    }
  }

  lemma GoneHomePlays(s: State, player: string, now: int, face: string)
    requires Sound(s)
    ensures var t := GoneHome(s, player, now); t.Done? ==> Plays(s, t.value, face) && !HoldsPlace(t.value, player)
  {
    hide Sound; hide Plays; hide LeftPlace; hide SameName; hide RideOf;
    QuietPlay(s, s, face);
    LeftPlays(s, now, face);
  }

  /** It does not matter whether the place is emptied before or after its holder is paid. */
  lemma SettledLater(s: State, hold: Holder, now: int)
    ensures var t, u := SettledHold(s.(current := None), hold, now), SettledHold(s, hold, now);
            && (t.Done? <==> u.Done?)
            && (t.Done? ==> t.value == u.value.(current := None))
  {
    hide Earned;
  }

  lemma HomewardsPlays(s: State, player: string, now: int, face: string)
    requires Sound(s)
    ensures var t := Homewards(s, player, now); t.Done? ==> Plays(s, t.value, face)
  {
    hide Sound; hide Plays; hide GoneHome; hide Turned; hide SetRide;
    var ride := RideOf(s.raids, player);
    if ride.Some? {
      TurnedPlays(s, ride.value, now, face);
    } else {
      GoneHomePlays(s, player, now, face);
    }
  }

  /** The laws hold again, with so many palle and so many copies more that nobody was told of. */
  ghost predicate Shifted(s: State, t: State, palle: int, copies: int, face: string) {
    && Sound(t)
    && Books(t, 0, 0) == Books(s, 0, 0) + palle
    && EmojiBooks(t, 0, 0, face) == EmojiBooks(s, 0, 0, face) + copies
  }

  lemma ShiftedOn(s: State, t: State, u: State, palle: int, palle': int, copies: int, copies': int, face: string)
    requires Shifted(s, t, palle, copies, face) && Shifted(t, u, palle', copies', face)
    ensures Shifted(s, u, palle + palle', copies + copies', face)
  {
    hide Sound; hide Books; hide EmojiBooks;
  }

  lemma ShiftedSound(s: State, t: State, palle: int, copies: int, face: string)
    requires Shifted(s, t, palle, copies, face)
    ensures Sound(t)
  {
  }

  lemma PlaysUnshifted(s: State, t: State, palle: int, face: string)
    ensures Shifted(s, t, 0, 0, face) <==> Plays(s, t, face)
    ensures Shifted(s, t, palle, 0, face) ==> (Plays(s, t, face) <==> palle == 0)
  {
    hide Sound; hide Books; hide EmojiBooks;
  }

  lemma PickedUpShifts(s: State, player: string, gift: int, face: string)
    requires Sound(s) && (gift == 0 || 0 <= gift <= Counter(s.scores, player))
    ensures Shifted(s, PickedUp(s, player, gift), -gift, 0, face)
  {
    hide RidesSound; hide OnePlace; hide Mapped; hide Housed; hide Raised; hide Holding; hide OnTheRoad; hide Total;
    hide PalleMade; hide EmojiMade; hide Solvent;
    Settling.PaidIn(s.scores, player, if gift == 0 then -Counter(s.scores, player) else -gift) by { Settling.Owes(s.scores, player); }
  }

  lemma UnhungShifts(s: State, player: string, emoji: string, face: string)
    requires Sound(s) && !IsHolder(s.current, player)
    requires emoji == "" || Finding(s, player, emoji) != Nowhere
    ensures Shifted(s, Unhung(s, player, emoji), 0, -Copy(emoji, face), face)
  {
    hide RidesSound; hide OnePlace; hide Mapped; hide Housed; hide Raised; hide Holding; hide OnTheRoad; hide Total;
    hide PalleMade; hide EmojiMade; hide Solvent; hide IsHolder; hide AtMost; hide Finding; hide TakenFrom; hide Content; hide Copy;
    Belongings.NoCopy(face);
    if emoji != "" {
      TakenLoses(s, player, emoji, face);
      ContentCopies(s, player, emoji, face);
    }
  }

  /** A new point of the map is nobody else's. */
  lemma OnMapShifts(s: State, player: string, face: string)
    requires Sound(s)
    ensures var t := OnMap(s, player); t.Done? ==> Shifted(s, t.value, 0, 0, face)
  {
    hide RidesSound; hide OnePlace; hide Housed; hide Raised; hide Holding; hide Palle; hide Stock; hide PalleMade; hide EmojiMade;
    hide Solvent; hide FreeDraw;
    var t := OnMap(s, player);
    if t.Done? && player !in s.ids {
      assert forall q | q in s.ids :: s.ids[q] in s.ids.Values;
    }
  }

  lemma RidesOnShifts(s: State, raid: Raid, face: string)
    requires Sound(s) && !raid.arrived && raid.back - raid.arrive >= Position.SHORTEST && raid.loot == 0 && raid.gift >= 0
    requires !IsRiding(s.raids, raid.raider) && !IsHolder(s.current, raid.raider)
    requires raid.raider in s.ids && raid.target in s.ids
    ensures Shifted(s, s.(raids := s.raids + [raid]), raid.gift, Copy(raid.giftEmoji, face), face)
  {
    hide Housed; hide Raised; hide Holding; hide Total; hide PalleMade; hide EmojiMade; hide Solvent; hide OnTheRoad;
    RoadAdded(s.raids, raid, 0, LOAD);
    RoadAdded(s.raids, raid, 0, GiftCopies(face));
    AddedRide(s.raids, s.current, raid);
  }

  lemma AddedRide(raids: seq<Raid>, current: Option<Holder>, raid: Raid)
    requires OnePlace(raids, current) && !IsRiding(raids, raid.raider) && !IsHolder(current, raid.raider)
    ensures OnePlace(raids + [raid], current)
  {
  }

  lemma SetOffShifts(s: State, player: string, target: string, load: Load, now: int, rules: Rules, face: string)
    requires Sound(s) && !IsRiding(s.raids, player) && !IsHolder(s.current, player) && load.gift >= 0
    requires load.emoji == "" || Finding(s, player, load.emoji) != Nowhere
    ensures var t := SetOff(s, player, target, load, now, rules); t.Done? ==> Shifted(s, t.value, load.gift, 0, face)
  {
    hide Shifted; hide Sound; hide Unhung; hide OnMap; hide IsRiding; hide IsHolder; hide Finding; hide Copy; hide TravelTime;
    var a := Unhung(s, player, load.emoji);
    UnhungShifts(s, player, load.emoji, face);
    ShiftedSound(s, a, 0, -Copy(load.emoji, face), face);
    var b := OnMap(a, player);
    OnMapShifts(a, player, face);
    if b.Done? {
      ShiftedOn(s, a, b.value, 0, 0, -Copy(load.emoji, face), 0, face);
      ShiftedSound(a, b.value, 0, 0, face);
      var c := OnMap(b.value, target);
      OnMapShifts(b.value, target, face);
      if c.Done? {
        ShiftedOn(s, b.value, c.value, 0, 0, -Copy(load.emoji, face), 0, face);
        ShiftedSound(b.value, c.value, 0, 0, face);
        MappedStays(b.value, target);
        var raid := OnTheWay(c.value, player, target, load, now, rules);
        BothLegs(c.value, player, target, load, now, rules);
        RidesOnShifts(c.value, raid, face);
        ShiftedOn(s, c.value, c.value.(raids := c.value.raids + [raid]), 0, load.gift, -Copy(load.emoji, face),
                  Copy(load.emoji, face), face);
      }
    }
  }

  lemma MappedStays(s: State, player: string)
    ensures var t := OnMap(s, player); t.Done? ==> forall q | q in s.ids :: q in t.value.ids
  {
    hide FreeDraw;
  }

  /** What an answer that comes once the palle are picked up says of the raider. */
  lemma AnswerMeans(s: State, player: string, known: Option<string>, homewards: bool, load: Load, now: int, rules: Rules)
    ensures var answer := RaidAnswer(s, player, known, homewards, load, now, rules);
            answer == Started || IsLate(answer) ==>
              && !homewards && !IsRiding(s.raids, player) && !IsHolder(s.current, player)
              && (load.gift == 0 || 0 <= load.gift <= Counter(s.scores, player))
              && (answer == Started ==> load.emoji == "" || Finding(s, player, load.emoji) != Nowhere)
  {
    hide Finding; hide CanReceive; hide IsBlow; hide IsNewcomer; hide FrozenFor; hide IsRiding;
    if !HoldsPlace(s, player) {
      Settling.AwayFromPlace(s, player);
    }
  }

  lemma FoundAgain(s: State, t: State, player: string, emoji: string)
    requires t == s.(names := t.names, scores := t.scores)
    ensures Finding(t, player, emoji) == Finding(s, player, emoji)
  {
    hide SameEmoji; hide FirstLike;
    HouseLikeAgain(s, t, player, emoji, 0);
  }

  lemma {:induction false} HouseLikeAgain(s: State, t: State, player: string, emoji: string, from: nat)
    requires t == s.(names := t.names, scores := t.scores)
    ensures HouseLike(t, player, emoji, from) == HouseLike(s, player, emoji, from)
    decreases |HouseSlots(s, player)| - from
  {
    hide SameEmoji;
    if from < |HouseSlots(s, player)| {
      HouseLikeAgain(s, t, player, emoji, from + 1);
    }
  }

  /** The palle are picked up; if the answer is no, they are nowhere. */
  lemma PickedUpFrom(s: State, t: State, player: string, gift: int, face: string)
    requires Shifted(s, t, 0, 0, face) && (gift == 0 || 0 <= gift <= Counter(t.scores, player))
    ensures Shifted(s, PickedUp(t, player, gift), -gift, 0, face)
  {
    hide PickedUp; hide Shifted; hide Counter;
    ShiftedSound(s, t, 0, 0, face);
    PickedUpShifts(t, player, gift, face);
    ShiftedOn(s, t, PickedUp(t, player, gift), 0, -gift, 0, 0, face);
  }

  lemma SetOffFrom(s: State, t: State, player: string, target: string, load: Load, now: int, rules: Rules, face: string)
    requires Shifted(s, t, -load.gift, 0, face) && load.gift >= 0 && !IsRiding(t.raids, player) && !IsHolder(t.current, player)
    requires load.emoji == "" || Finding(t, player, load.emoji) != Nowhere
    ensures var u := SetOff(t, player, target, load, now, rules); u.Done? ==> Shifted(s, u.value, 0, 0, face)
  {
    hide SetOff; hide Shifted; hide IsRiding; hide IsHolder; hide Finding;
    ShiftedSound(s, t, -load.gift, 0, face);
    var u := SetOff(t, player, target, load, now, rules);
    SetOffShifts(t, player, target, load, now, rules, face);
    if u.Done? {
      ShiftedOn(s, t, u.value, -load.gift, load.gift, 0, 0, face);
    }
  }

  lemma HomewardsFrom(s: State, t: State, player: string, now: int, face: string)
    requires Shifted(s, t, 0, 0, face)
    ensures var u := Homewards(t, player, now); u.Done? ==> Shifted(s, u.value, 0, 0, face)
  {
    hide Homewards; hide Shifted; hide Plays;
    ShiftedSound(s, t, 0, 0, face);
    var u := Homewards(t, player, now);
    HomewardsPlays(t, player, now, face);
    if u.Done? {
      PlaysUnshifted(t, u.value, 0, face);
      ShiftedOn(s, t, u.value, 0, 0, 0, 0, face);
    }
  }

  /** raid_start keeps the laws, and both ledgers but for one case: palle picked up for a ride that an emoji then calls off
      are nowhere any more, so exactly then so many are missing. */
  lemma RaidStartShifts(s: State, userId: int, player: string, known: Option<string>, homewards: bool, load: Load, now: int,
                        rules: Rules, face: string)
    requires Sound(s)
    ensures var t := RaidStart(s, userId, player, known, homewards, load, now, rules);
            var lost := if IsLate(RaidAnswer(s, player, known, homewards, load, now, rules)) then load.gift else 0;
            t.Done? ==> Shifted(s, t.value, -lost, 0, face) && lost >= 0
  {
    hide Homewards; hide PickedUp; hide SetOff; hide RaidAnswer; hide Remembered; hide Sound; hide Plays; hide Shifted;
    hide Finding; hide IsRiding; hide IsHolder; hide Counter;
    var answer := RaidAnswer(s, player, known, homewards, load, now, rules);
    var t := s.(names := Remembered(s.names, player, userId));
    QuietPlay(s, t, face);
    PlaysUnshifted(s, t, 0, face);
    AnswerMeans(s, player, known, homewards, load, now, rules);
    HomewardsFrom(s, t, player, now, face);
    if answer == Started || IsLate(answer) {
      var u := PickedUp(t, player, load.gift);
      PickedUpFrom(s, t, player, load.gift, face);
      if answer == Started {
        FoundAgain(s, u, player, load.emoji);
        SetOffFrom(s, u, player, known.value, load, now, rules, face);
      }
    }
  }

  /** He takes palle along, nothing keeps him back, and the emoji he names as well has to stay. */
  predicate DropsPalle(s: State, player: string, known: Option<string>, homewards: bool, load: Load, now: int, rules: Rules) {
    && load.gift != 0 && !homewards && known.Some?
    && KeptBack(s, player, known.value, load, now).None?
    && EmojiStays(s, player, known.value, load, rules).Some?
  }

  lemma DroppedLate(s: State, player: string, known: Option<string>, homewards: bool, load: Load, now: int, rules: Rules)
    ensures DropsPalle(s, player, known, homewards, load, now, rules) <==>
              load.gift != 0 && IsLate(RaidAnswer(s, player, known, homewards, load, now, rules))
  {
    hide RideOf; hide IsBlow; hide IsNewcomer; hide FrozenFor; hide HoldsPlace; hide Finding; hide CanReceive; hide FreeSlot;
    hide IsThrown;
  }

  /** Nothing is lost exactly when he does not set out with both palle and an emoji that has to stay. */
  lemma RaidStartPlays(s: State, userId: int, player: string, known: Option<string>, homewards: bool, load: Load, now: int,
                       rules: Rules, face: string)
    requires Sound(s)
    ensures var t := RaidStart(s, userId, player, known, homewards, load, now, rules);
            t.Done? ==> (Plays(s, t.value, face) <==> !DropsPalle(s, player, known, homewards, load, now, rules))
  {
    hide Sound; hide Plays; hide RaidStart; hide RaidAnswer; hide Shifted; hide IsLate; hide DropsPalle;
    var t := RaidStart(s, userId, player, known, homewards, load, now, rules);
    DroppedLate(s, player, known, homewards, load, now, rules);
    if t.Done? {
      RaidStartShifts(s, userId, player, known, homewards, load, now, rules, face);
      PlaysUnshifted(s, t.value, -load.gift, face);
      PlaysUnshifted(s, t.value, 0, face);
    }
  }

  /** A palla taken along with an emoji he does not have is gone. */
  lemma PallaLost(rules: Rules, face: string)
    ensures exists s: State, load: Load ::
              && Sound(s) && RaidStart(s, 0, "a", Some("b"), false, load, 0, rules).Done?
              && !Plays(s, RaidStart(s, 0, "a", Some("b"), false, load, 0, rules).value, face)
  {
    hide Sound; hide Plays; hide RaidStart;
    var s := Unplayed([]).(scores := map["a" := 1]);
    var load := Load(1, "x", false);
    assert Sound(s) by { ScoresSound("a", 1); }
    assert RaidAnswer(s, "a", Some("b"), false, load, 0, rules) == NoSuchEmoji;
    LateDone(s, "a", "b", load, rules);
    RaidStartPlays(s, 0, "a", Some("b"), false, load, 0, rules, face);
  }

  lemma ScoresSound(player: string, palle: nat)
    ensures Sound(Unplayed([]).(scores := map[player := palle]))
  {
  }

  lemma LateDone(s: State, player: string, target: string, load: Load, rules: Rules)
    requires IsLate(RaidAnswer(s, player, Some(target), false, load, 0, rules))
    ensures RaidStart(s, 0, player, Some(target), false, load, 0, rules).Done?
  {
    hide RaidAnswer;
  }
}
