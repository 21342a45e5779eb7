/** src/game.cpp, raid_start: who may set off, how long the ride takes, and what he takes along. */
module Departures {
  import opened Basics
  import opened Powers
  import opened Ledger
  import opened Places
  import opened World
  import opened Rides
  import opened Belongings
  import opened Facts
  import opened Journeys
  import opened Holds
  import Naming
  import Claims
  import Position

  // ---------------------------------------------------------------- may he

  ghost predicate IsNew(s: State, player: string, now: int) {
    player in s.joined && now - s.joined[player] < 86_400
  }

  predicate IsThrowable(emoji: string) {
    PowerOf(emoji).Some? && KindOf(PowerOf(emoji).value) == Thrown
  }

  /** He has such an emoji on him. */
  ghost predicate HasOnHim(s: State, player: string, emoji: string) {
    exists k: nat :: k < |SlotsIn(s.gear, player)| && Looks(SlotsIn(s.gear, player)[k], emoji)
  }

  /** There is one in his house that is no child. */
  ghost predicate HasAtHome(s: State, player: string, emoji: string) {
    exists k: nat :: k < |SlotsIn(s.house, player)| && Looks(SlotsIn(s.house, player)[k], emoji) && !IsChild(s.children, player, k)
  }

  ghost predicate HasRoom(slots: seq<string>, limit: nat) {
    exists k: nat :: k < limit && IsFirstFree(slots, k)
  }

  /** Whoever is to have a present has room for it. */
  ghost predicate MayReceive(s: State, player: string, emoji: string, limit: nat) {
    || HasRoom(SlotsIn(s.house, player), limit)
    || (PowerOf(emoji).Some? && KindOf(PowerOf(emoji).value) == Kind.Carried && !IsIn(s, player) && !IsOut(s, player)
        && HasRoom(SlotsIn(s.gear, player), CARRIED_LIMIT))
  }

  /** He has the emoji, has a hand free if it is in his house, and unless it is to be thrown there is room for it. */
  ghost predicate EmojiMayGo(s: State, player: string, target: string, load: Load, rules: Rules) {
    load.emoji == "" ||
    (&& (HasOnHim(s, player, load.emoji)
         || (HasAtHome(s, player, load.emoji) && HasRoom(SlotsIn(s.gear, player), CARRIED_LIMIT)))
     && ((IsThrowable(load.emoji) && !load.intact) || MayReceive(s, target, load.emoji, rules.furnitureLimit)))
  }

  /** He is at home and not frozen, has the palle he takes along, and hits no newcomer. */
  ghost predicate MayLeave(s: State, player: string, target: string, load: Load, now: int) {
    && !IsOut(s, player) && !IsIn(s, player) && Counter(s.frozen, player) <= now
    && (load.gift == 0 || 0 < load.gift <= Counter(s.scores, player))
    && !(load.gift == 0 && (load.emoji == "" || (IsThrowable(load.emoji) && !load.intact)) && IsNew(s, target, now))
  }

  lemma FoundIs(s: State, player: string, emoji: string)
    ensures Finding(s, player, emoji).Carried? <==> HasOnHim(s, player, emoji)
    ensures Finding(s, player, emoji).Kept? <==> !HasOnHim(s, player, emoji) && HasAtHome(s, player, emoji)
  {
    hide SameEmoji; hide IsChild;
    var house := SlotsIn(s.house, player);
    if HasAtHome(s, player, emoji) {
      var k: nat :| k < |house| && Looks(house[k], emoji) && !IsChild(s.children, player, k);
      assert CanPart(s, player, k, emoji);
    }
  }

  lemma RoomIs(slots: seq<string>, limit: nat)
    ensures FreeSlot(slots, limit).Some? <==> HasRoom(slots, limit)
  {
    hide IsFirstFree; hide FreeSlot;
    FreeFirst(slots, limit);
    var free := FreeSlot(slots, limit);
    if free.Some? {
      assert free == Some(free.value);
      assert IsFirstFree(slots, free.value);
    }
  }

  lemma StaysIs(s: State, player: string, target: string, load: Load, rules: Rules)
    ensures EmojiStays(s, player, target, load, rules).None? <==> EmojiMayGo(s, player, target, load, rules)
  {
    hide Finding; hide HasOnHim; hide HasAtHome; hide HasRoom; hide FreeSlot; hide PowerOf; hide WhereIs; hide IsIn; hide IsOut;
    FoundIs(s, player, load.emoji);
    RoomIs(SlotsIn(s.gear, player), CARRIED_LIMIT);
    RoomIs(SlotsIn(s.gear, target), CARRIED_LIMIT);
    RoomIs(SlotsIn(s.house, target), rules.furnitureLimit);
    WhereItIs(s, target);
  }

  lemma KeptBackIs(s: State, player: string, target: string, load: Load, now: int)
    ensures KeptBack(s, player, target, load, now).None? <==> MayLeave(s, player, target, load, now)
  {
    hide PowerOf; hide IsIn; hide IsOut; hide HoldsPlace; hide RideOf;
    WhereItIs(s, player);
  }

  /** raid_start answers that he has started exactly when he may leave and what he takes may go. */
  lemma StartsExactly(s: State, player: string, known: Option<string>, homewards: bool, load: Load, now: int, rules: Rules)
    ensures RaidAnswer(s, player, known, homewards, load, now, rules) == Started <==>
              && !homewards && known.Some? && MayLeave(s, player, known.value, load, now)
              && EmojiMayGo(s, player, known.value, load, rules)
  {
    hide KeptBack; hide EmojiStays; hide MayLeave; hide EmojiMayGo; hide RideOf; hide HoldsPlace;
    if known.Some? {
      StaysIs(s, player, known.value, load, rules);
      KeptBackIs(s, player, known.value, load, now);
      assert KeptBack(s, player, known.value, load, now) != Some(Started) by { NeverStarted(s, player, known.value, load, now, rules); }
      assert EmojiStays(s, player, known.value, load, rules) != Some(Started) by { NeverStarted(s, player, known.value, load, now, rules); }
    }
  }

  lemma NeverStarted(s: State, player: string, target: string, load: Load, now: int, rules: Rules)
    ensures KeptBack(s, player, target, load, now) != Some(Started)
    ensures EmojiStays(s, player, target, load, rules) != Some(Started)
  {
    hide RideOf; hide IsBlow; hide Claims.IsNewcomer; hide FrozenFor; hide HoldsPlace; hide Finding; hide FreeSlot; hide CanReceive; hide IsThrown;
  }

  // ---------------------------------------------------------------- how long it takes

  /** A second for so much road, five at the least; each rocket he shows adds its percent to his speed. */
  ghost predicate IsLeg(ids: map<string, int>, player: string, target: string, rockets: int, rules: Rules, leg: int) {
    exists road: nat | IsRoad(ids, player, target, road) ::
      var seconds := if rules.travelDivisor > 0 && road / rules.travelDivisor > 5 then road / rules.travelDivisor else 5;
      if rockets > 0 && rules.rocketPercent > 0 then
        var faster := seconds * 100 / (100 + rockets * rules.rocketPercent);
        leg == if faster > 5 then faster else 5
      else leg == seconds
  }

  lemma TravelIs(s: State, player: string, target: string, rules: Rules)
    ensures IsLeg(s.ids, player, target, ShownOf(s.current, s.gear, player, Rocket), rules, TravelTime(s, player, target, rules))
  {
    hide Position.Distance; hide Position.CoordinatesOf; hide CarriedCopies; hide ShownOf; hide IsRoad;
    var road := Position.Distance(Position.CoordinatesOf(Counter(s.ids, player)), Position.CoordinatesOf(Counter(s.ids, target)));
    TheRoad(s.ids, player, target, road);
    CarriedCounted(s, player, Rocket);
    assert IsRoad(s.ids, player, target, road);
  }

  // ---------------------------------------------------------------- what he takes along

  /** The first copy of it leaves a hole: on him before the house. */
  ghost predicate LosesFirst(s: State, house: Place, gear: Place, player: string, emoji: string) {
    if HasOnHim(s, player, emoji) then
      house == s.house && exists k: nat | k < |SlotsIn(s.gear, player)| && Looks(SlotsIn(s.gear, player)[k], emoji)
                                          && (forall j: nat | j < k :: !Looks(SlotsIn(s.gear, player)[j], emoji)) ::
                            gear == Put(s.gear, player, k, "")
    else
      gear == s.gear && exists k: nat | CanPart(s, player, k, emoji) && forall j: nat | j < k :: !CanPart(s, player, j, emoji) ::
                          house == Put(s.house, player, k, "")
  }

  ghost predicate LeavesWith(s: State, house: Place, gear: Place, player: string, emoji: string) {
    if emoji == "" then house == s.house && gear == s.gear else LosesFirst(s, house, gear, player, emoji)
  }

  /** It is found in the first slot that holds one. */
  lemma FoundFirst(s: State, player: string, emoji: string)
    ensures var found := Finding(s, player, emoji);
            && (found.Carried? ==> forall j: nat | j < found.slot :: !Looks(SlotsIn(s.gear, player)[j], emoji))
            && (found.Kept? ==> forall j: nat | j < found.slot :: !CanPart(s, player, j, emoji))
  {
    hide SameEmoji; hide IsChild; hide CanPart; hide Looks;
  }

  lemma TakenOnHim(s: State, player: string, emoji: string)
    requires Finding(s, player, emoji).Carried?
    ensures var t := TakenFrom(s, player, emoji);
            t.house == s.house && t.gear == Put(s.gear, player, Finding(s, player, emoji).slot, "")
  {
    hide Finding; hide Put;
  }

  lemma TakenAtHome(s: State, player: string, emoji: string)
    requires Finding(s, player, emoji).Kept?
    ensures var t := TakenFrom(s, player, emoji);
            t.gear == s.gear && t.house == Put(s.house, player, Finding(s, player, emoji).slot, "")
  {
    hide Finding; hide Put;
  }

  lemma TakenFirst(s: State, player: string, emoji: string)
    requires Finding(s, player, emoji) != Nowhere
    ensures LosesFirst(s, TakenFrom(s, player, emoji).house, TakenFrom(s, player, emoji).gear, player, emoji)
  {
    hide Put; hide HasOnHim; hide HasAtHome; hide CanPart; hide Looks; hide Finding; hide TakenFrom;
    FoundIs(s, player, emoji);
    FoundFirst(s, player, emoji);
    var found := Finding(s, player, emoji);
    if found.Carried? {
      TakenOnHim(s, player, emoji);
      assert Looks(SlotsIn(s.gear, player)[found.slot], emoji);
    } else {
      TakenAtHome(s, player, emoji);
    }
  }

  lemma UnhungIs(s: State, player: string, emoji: string)
    requires emoji == "" || Finding(s, player, emoji) != Nowhere
    ensures LeavesWith(s, Unhung(s, player, emoji).house, Unhung(s, player, emoji).gear, player, emoji)
  {
    hide LosesFirst; hide Finding; hide TakenFrom;
    if emoji != "" {
      TakenFirst(s, player, emoji);
    }
  }

  /** The first draw that is a point of the map nobody has. */
  ghost predicate IsFreeDraw(ids: map<string, int>, luck: seq<nat>, k: nat) {
    && k < |luck| && luck[k] % Position.IDS !in ids.Values
    && forall j: nat | j < k :: luck[j] % Position.IDS in ids.Values
  }

  /** A point of the map is drawn for whoever has none yet, until it is nobody's. Everybody else keeps his. */
  ghost predicate FindsPlace(ids: map<string, int>, luck: seq<nat>, ids': map<string, int>, luck': seq<nat>, player: string) {
    if player in ids then ids' == ids && luck' == luck
    else exists k: nat | IsFreeDraw(ids, luck, k) :: ids' == ids[player := luck[k] % Position.IDS] && luck' == luck[k + 1..]
  }

  lemma {:induction false} FreeDrawIs(ids: map<string, int>, luck: seq<nat>)
    ensures var draw := FreeDraw(ids, luck); if draw.Some? then IsFreeDraw(ids, luck, draw.value) else forall k: nat :: !IsFreeDraw(ids, luck, k)
  {
    if luck != [] {
      FreeDrawIs(ids, luck[1..]);
      assert forall k: nat | 0 < k < |luck| :: luck[k] == luck[1..][k - 1];
      assert forall k: nat | 0 < k && IsFreeDraw(ids, luck, k) :: IsFreeDraw(ids, luck[1..], k - 1);
    }
  }

  lemma OnMapIs(s: State, player: string)
    ensures var t := OnMap(s, player);
            && (t.Done? ==> FindsPlace(s.ids, s.luck, t.value.ids, t.value.luck, player))
            && (t.Done? <==> player in s.ids || exists k: nat :: IsFreeDraw(s.ids, s.luck, k))
  {
    hide FreeDraw; hide IsFreeDraw;
    FreeDrawIs(s.ids, s.luck);
  }

  /** The ride that is added: out and back on the same road, with what he takes along. */
  ghost predicate Departs(s: State, t: State, player: string, target: string, load: Load, now: int, rules: Rules) {
    && LeavesWith(s, t.house, t.gear, player, load.emoji)
    && (exists ids, luck :: FindsPlace(s.ids, s.luck, ids, luck, player) && FindsPlace(ids, luck, t.ids, t.luck, target))
    && (forall q :: Counter(t.scores, q) == Counter(s.scores, q) - if q == player then load.gift else 0)
    && exists leg: int | IsLeg(t.ids, player, target, ShownOf(t.current, t.gear, player, Rocket), rules, leg) ::
         t.raids == s.raids + [Raid(player, target, now + leg, now + 2 * leg, false, 0, load.gift, load.emoji, load.intact)]
  }

  lemma SetOffIs(s: State, player: string, target: string, load: Load, now: int, rules: Rules)
    ensures var t := SetOff(s, player, target, load, now, rules);
            var u := Unhung(s, player, load.emoji);
            t.Done? ==>
              && t.value.house == u.house && t.value.gear == u.gear && t.value.scores == s.scores && t.value.current == s.current
              && (exists ids, luck :: FindsPlace(s.ids, s.luck, ids, luck, player) && FindsPlace(ids, luck, t.value.ids, t.value.luck, target))
              && exists leg: int | IsLeg(t.value.ids, player, target, ShownOf(t.value.current, t.value.gear, player, Rocket), rules, leg) ::
                   t.value.raids == s.raids + [Raid(player, target, now + leg, now + 2 * leg, false, 0, load.gift, load.emoji, load.intact)]
  {
    hide Unhung; hide OnMap; hide TravelTime; hide IsLeg; hide FindsPlace; hide ShownOf;
    var u := Unhung(s, player, load.emoji);
    var there := OnMap(u, player);
    OnMapIs(u, player);
    if there.Done? {
      OnMapIs(there.value, target);
      var t := OnMap(there.value, target);
      if t.Done? {
        assert FindsPlace(s.ids, s.luck, there.value.ids, there.value.luck, player);
        TravelIs(t.value, player, target, rules);
      }
    }
  }

  /** raid_start, when he starts: the ride there is, where he finds himself on the map, and what he leaves without. */
  lemma RideDeparts(s: State, userId: int, player: string, known: Option<string>, load: Load, now: int, rules: Rules)
    requires RaidAnswer(s, player, known, false, load, now, rules) == Started
    ensures known.Some?
    ensures var t := RaidStart(s, userId, player, known, false, load, now, rules);
            t.Done? ==> Departs(s, t.value, player, known.value, load, now, rules)
  {
    hide RaidAnswer; hide SetOff; hide LeavesWith; hide IsLeg; hide FindsPlace; hide ShownOf; hide Naming.Remembered; hide Unhung;
    hide Finding;
    AnswerMeans(s, player, known, false, load, now, rules);
    var u := PickedUp(s.(names := Naming.Remembered(s.names, player, userId)), player, load.gift);
    SetOffIs(u, player, known.value, load, now, rules);
    FoundAgain(s, u, player, load.emoji);
    UnhungIs(u, player, load.emoji);
    LeavesSame(s, u, Unhung(u, player, load.emoji).house, Unhung(u, player, load.emoji).gear, player, load.emoji);
  }

  lemma LeavesSame(s: State, t: State, house: Place, gear: Place, player: string, emoji: string)
    requires t == s.(names := t.names, scores := t.scores) && LeavesWith(t, house, gear, player, emoji)
    ensures LeavesWith(s, house, gear, player, emoji)
  {
    hide Looks; hide Put;
    assert HasOnHim(t, player, emoji) == HasOnHim(s, player, emoji);
    assert forall k: nat :: CanPart(t, player, k, emoji) == CanPart(s, player, k, emoji);
  }

  // ---------------------------------------------------------------- when he does not start

  lemma RefusedOf(s: State, userId: int, player: string, known: Option<string>, load: Load, now: int, rules: Rules)
    requires RaidAnswer(s, player, known, false, load, now, rules) != Started
    ensures var u := s.(names := Naming.Remembered(s.names, player, userId));
            RaidStart(s, userId, player, known, false, load, now, rules) ==
              Done(if IsLate(RaidAnswer(s, player, known, false, load, now, rules)) then PickedUp(u, player, load.gift) else u)
  {
    hide RaidAnswer; hide Naming.Remembered; hide PickedUp;
  }

  lemma PickedUpOf(s: State, player: string, gift: int)
    ensures PickedUp(s, player, gift).scores == if gift == 0 then s.scores else s.scores[player := Counter(s.scores, player) - gift]
  {
    hide Counter;
  }

  lemma PickedUpIs(s: State, player: string, gift: int)
    ensures forall q :: Counter(PickedUp(s, player, gift).scores, q) == Counter(s.scores, q) - if q == player then gift else 0
  {
    hide PickedUp;
    PickedUpOf(s, player, gift);
  }

  /** raid_start, when it is refused: only what is on file of him changes, but for the palle he had picked up already. */
  lemma RideRefused(s: State, userId: int, player: string, known: Option<string>, load: Load, now: int, rules: Rules)
    requires RaidAnswer(s, player, known, false, load, now, rules) != Started
    ensures var t, answer := RaidStart(s, userId, player, known, false, load, now, rules), RaidAnswer(s, player, known, false, load, now, rules);
            && t.Done? && t.value == s.(names := t.value.names, scores := t.value.scores)
            && forall q :: Counter(t.value.scores, q) == Counter(s.scores, q)
                 - if q == player && (answer == NoSuchEmoji || answer == HandsFull || answer == NoRoom) then load.gift else 0
  {
    hide RaidAnswer; hide Naming.Remembered; hide RaidStart; hide PickedUp; hide Counter;
    RefusedOf(s, userId, player, known, load, now, rules);
    PickedUpIs(s.(names := Naming.Remembered(s.names, player, userId)), player, load.gift);
  }

  /** The ride he is on. */
  ghost predicate IsHisRide(s: State, player: string, j: nat) {
    j < |s.raids| && s.raids[j].raider == player && forall i: nat | i < j :: s.raids[i].raider != player
  }

  /** On the way back for as long as he has ridden, if he was not there yet; else for as long as before. */
  ghost predicate IsTurned(raid: Raid, raid': Raid, now: int) {
    var departed := raid.arrive - (raid.back - raid.arrive);
    && raid' == raid.(arrived := true, back := raid'.back)
    && raid'.back - now == if now >= raid.arrive then (if raid.back > now then raid.back - now else 0)
                           else if now > departed then now - departed else 0
  }

  /** raid_start, for whoever names himself: on the road he turns back, in the place he leaves it, at home nothing changes. */
  lemma TurnsBack(s: State, userId: int, player: string, known: Option<string>, load: Load, now: int, rules: Rules)
    ensures var t := RaidStart(s, userId, player, known, true, load, now, rules);
            if IsOut(s, player) then
              t.Done? && exists j: nat, raid: Raid | IsHisRide(s, player, j) && IsTurned(s.raids[j], raid, now) ::
                t.value == s.(names := t.value.names, raids := s.raids[j := raid])
            else
              var u := s.(names := Naming.Remembered(s.names, player, userId)); t == GoneHome(u, player, now)
  {
    hide GoneHome; hide Turned; hide Naming.Remembered; hide IsTurned; hide IsHisRide;
    HisRide(s, player);
    if IsOut(s, player) {
      TurnedIs(s.raids[RideOf(s.raids, player).value], now);
    }
  }

  lemma HisRide(s: State, player: string)
    ensures var ride := RideOf(s.raids, player);
            (IsOut(s, player) <==> ride.Some?) && (ride.Some? ==> IsHisRide(s, player, ride.value))
  {
    WhereItIs(s, player);
  }

  lemma TurnedIs(raid: Raid, now: int)
    ensures IsTurned(raid, Turned(raid, now), now)
  {
  }
}
