/** src/game.cpp, furniture_burn and palle_burn: what is brought back to @TheConquister37 leaves the game. */
module Burning {
  import opened Basics
  import opened Powers
  import opened Ledger
  import opened Places
  import opened World
  import opened Laws
  import opened Rides
  import opened Holds
  import opened Belongings
  import opened Household
  import opened Settling
  import Family
  import Keeping
  import Claims

  // ---------------------------------------------------------------- the whole game starts over

  /** known_players: everybody the game has anything on file about. */
  function KnownPlayers(s: State): set<string> {
    (if s.current.Some? && s.current.value.username != "" then {s.current.value.username} else {})
      + s.scores.Keys + s.ids.Keys + s.balloons.Keys + s.names.telegramIds.Keys + s.names.ircNames.Keys
      + s.house.Keys + s.gear.Keys + s.names.displayNames.Keys
  }

  function Welcomed(players: set<string>): Place {
    map player | player in players :: [BALLOON]
  }

  /** start_over on everybody: no palle, a balloon each, nobody in the place or on the road. */
  function StartedAgain(s: State): (t: State)
    ensures t.names == s.names
  {
    s.(current := None, scores := map player | player in s.scores :: 0, house := map[], gear := Welcomed(KnownPlayers(s)),
       raids := [], balloons := map[], cooldowns := map[], smeared := map[], frozen := map[], pregnancies := [], children := [],
       knocks := [], told := s.told + [Over(s.scores, s.house, s.gear, s.raids, KnownPlayers(s))])
  }

  lemma {:induction false} TotalSame<V>(keys: set<string>, v: V, worth: V -> int)
    ensures Total(map k | k in keys :: v, worth) == |keys| * worth(v)
    decreases |keys|
  {
    hide Total;
    var m := map k | k in keys :: v;
    if keys == {} {
      assert m == map[];
      NothingTotal<V>(worth);
    } else {
      var k :| k in keys;
      TotalRemoved(m, k, worth);
      assert m - {k} == map j | j in keys - {k} :: v;
      TotalSame(keys - {k}, v, worth);
      assert (|keys| - 1) * worth(v) + worth(v) == |keys| * worth(v);
    }
  }

  lemma NothingTotal<V>(worth: V -> int)
    ensures Total(map[], worth) == 0
  {
  }

  lemma NobodyRides(walked: int, now: int, worth: Raid -> int)
    ensures OnTheRoad([], walked, now, worth) == 0
  {
  }

  lemma StartedAgainPlays(s: State, face: string)
    requires Standing(s)
    ensures Plays(s, StartedAgain(s), face)
  {
    hide Total; hide OnTheRoad; hide PalleMade; hide EmojiMade; hide Sound; hide Standing; hide KnownPlayers; hide Copies; hide Copy;
    var t := StartedAgain(s);
    TotalSame(s.scores.Keys, 0, ITSELF);
    assert t.scores == map k | k in s.scores.Keys :: 0;
    TotalSame(KnownPlayers(s), [BALLOON], CopiesOf(face));
    CopiesLone(BALLOON, face);
    NothingTotal<seq<string>>(CopiesOf(face));
    NobodyRides(0, 0, LOAD);
    NobodyRides(0, 0, GiftCopies(face));
    ToldOne(s.told, Over(s.scores, s.house, s.gear, s.raids, KnownPlayers(s)), face);
    StartedAgainSound(s);
  }

  lemma StartedAgainSound(s: State)
    requires Standing(s)
    ensures Sound(StartedAgain(s))
  {
    hide KnownPlayers;
    assert forall player :: |SlotsIn(Welcomed(KnownPlayers(s)), player)| <= 1;
  }

  // ---------------------------------------------------------------- an emoji

  datatype BurnStatus = Burned | NotHis | OnHisWay | ChildSpared

  /** The first child of his, in the order of the list, that looks like that. */
  function FirstChildLike(s: State, player: string, emoji: string, from: nat): (child: Option<nat>)
    ensures child.Some? ==> from <= child.value < |s.children| && s.children[child.value].owner == player
    decreases |s.children| - from
  {
    if from >= |s.children| then None
    else if s.children[from].owner == player && s.children[from].slot < |HouseSlots(s, player)|
            && SameEmoji(HouseSlots(s, player)[s.children[from].slot], emoji) then Some(from)
    else FirstChildLike(s, player, emoji, from + 1)
  }

  /** burn_child: it leaves the house, and its slot is free again. */
  function BurntChild(s: State, child: nat): (t: State)
    requires child < |s.children|
    ensures t == s.(house := t.house, children := t.children, told := t.told)
  {
    hide *;
    var owner, slot := s.children[child].owner, s.children[child].slot;
    s.(house := Put(s.house, owner, slot, ""), children := Family.Dropped(s.children, child),
       told := s.told + [Went(At(s.house, owner, slot))])
  }

  /** An emoji he has, on him before the house, is gone. */
  function Gone(s: State, player: string, emoji: string): (t: State)
    ensures t == s.(house := t.house, gear := t.gear, told := t.told)
  {
    hide *;
    TakenFrom(s, player, emoji).(told := s.told + [Went(Content(s, player, Finding(s, player, emoji)))])
  }

  /** Whether what he burns lands on whoever holds the place: unless that is himself. */
  predicate LandsOnHolder(s: State, player: string, emoji: string) {
    IsThrown(emoji) && s.current.Some? && s.current.value.username != "" && s.current.value.username != player
  }

  /** What is thrown at the place lands on its holder; the rest only leaves. */
  function ThrownAtPlace(s: State, player: string, emoji: string, now: int, rules: Rules): (t: State)
    ensures t.names == s.names
  {
    hide *;
    if LandsOnHolder(s, player, emoji) && s.current.Some?
    then Landed(s, emoji, player, s.current.value.username, AtPlace, 0, now, rules) else s
  }

  function BurnAnswer(s: State, player: string, emoji: string, destroy: bool): BurnStatus {
    if RideOf(s.raids, player).Some? then OnHisWay
    else if Finding(s, player, emoji) != Nowhere then Burned
    else if FirstChildLike(s, player, emoji, 0).None? then NotHis
    else if !destroy then ChildSpared
    else Burned
  }

  /** furniture_burn. */
  function Burn(s: State, player: string, emoji: string, now: int, rules: Rules, destroy: bool): (t: Result<State>)
    ensures t.Done? ==> t.value.names == s.names
  {
    hide *;
    var u := Gone(s, player, emoji);
    var child := FirstChildLike(s, player, emoji, 0);
    if BurnAnswer(s, player, emoji, destroy) != Burned then Done(s)
    else if Finding(s, player, emoji) == Nowhere then
      Done(if child.Some? then BurntChild(s, child.value) else s)
    else if destroy then LostBolts(u, now)
    else if IsPower(emoji, Nuke) then Done(StartedAgain(u))
    else LostBolts(ThrownAtPlace(u, player, emoji, now, rules), now)
  }

  // ---------------------------------------------------------------- what burning keeps

  /** The laws but for the bolts of the hold, which are counted last; and both ledgers. */
  ghost predicate Loosely(s: State, t: State, face: string) {
    Standing(t) && AtMost(t.current, t.gear) && Accounted(s, t, 0, 0, face)
  }

  lemma LostBoltsPlays(s: State, t: State, now: int, face: string)
    requires Loosely(s, t, face)
    ensures var u := LostBolts(t, now); u.Done? ==> Plays(s, u.value, face)
  {
    hide RidesSound; hide OnePlace; hide Mapped; hide Housed; hide Raised; hide Books; hide EmojiBooks; hide Solvent;
    hide AtMost; hide Holding; hide CarriedCopies; hide LosingBolts;
    var u := LostBolts(t, now);
    if u.Done? && t.current.Some? {
      Claims.SameBooks(t, u.value, face);
      BoltsMended(t, now);
      var hold := LosingBolts(t.current.value, CarriedCopies(t, t.current.value.username, Bolt), now);
      assert hold.value.username == t.current.value.username by { SameHolder(t.current.value, CarriedCopies(t, t.current.value.username, Bolt), now); }
      OnePlaceSame(t.raids, t.current, u.value.current);
    } else if u.Done? {
      assert Holding(t.current, t.gear) by { NobodyHolds(t.gear); }
    }
  }

  lemma NobodyHolds(gear: Place)
    ensures Holding(None, gear)
  {
  }

  lemma SameHolder(hold: Holder, left: nat, now: int)
    ensures var after := LosingBolts(hold, left, now);
            after.Done? ==> after.value.username == hold.username && after.value.lobsters == hold.lobsters
                            && after.value.bolts == if hold.bolts <= 0 || left >= hold.bolts then hold.bolts else left
  {
  }

  lemma OnePlaceSame(raids: seq<Raid>, current: Option<Holder>, current': Option<Holder>)
    requires OnePlace(raids, current) && current.Some? && current'.Some?
    requires current'.value.username == current.value.username
    ensures OnePlace(raids, current')
  {
  }

  /** Once the lost bolts are off it, a hold counts exactly the ones its holder shows, each at the share it came in with. */
  lemma BoltsMended(s: State, now: int)
    requires AtMost(s.current, s.gear) && s.current.Some?
    ensures var t := LostBolts(s, now); t.Done? ==> Holding(t.value.current, t.value.gear)
  {
    hide CountPower; hide IsLobster; hide HoldSound; hide LosingBolts;
    var hold := s.current.value;
    var left := CarriedCopies(s, hold.username, Bolt);
    var after := LosingBolts(hold, left, now);
    SameHolder(hold, left, now);
    if after.Done? {
      assert HoldSound(after.value) by { LosingSound(hold, left, now); }
      assert ShownGear(Some(after.value), s.gear, hold.username) == ShownGear(s.current, s.gear, hold.username);
    }
  }

  lemma LosingSound(hold: Holder, left: nat, now: int)
    requires HoldSound(hold)
    ensures LosingBolts(hold, left, now).Done? ==> HoldSound(LosingBolts(hold, left, now).value)
  {
    hide Earned;
    Claims.HoldPaysIn(hold, now);
    if hold.bolts > 0 && left > 0 {
      var share := (hold.percent - 100) / hold.bolts;
      assert hold.percent - 100 == share * hold.bolts;
      assert share >= 1;
      Claims.Multiple(left, share);
    }
  }

  lemma BurntChildPlays(s: State, child: nat, face: string)
    requires Sound(s) && child < |s.children|
    ensures Plays(s, BurntChild(s, child), face)
  {
    hide RidesSound; hide OnePlace; hide Mapped; hide Housed; hide Raised; hide Holding; hide Total; hide OnTheRoad;
    hide PalleMade; hide EmojiMade; hide Solvent; hide Put; hide Family.Dropped; hide Plays; hide Copy;
    var owner, slot := s.children[child].owner, s.children[child].slot;
    NoCopy(face);
    CopiesPut(s.house, owner, slot, "", face);
    ToldOne(s.told, Went(At(s.house, owner, slot)), face);
    Keeping.ChildLeaves(s.house, s.children, child, "");
    assert Housed(Put(s.house, owner, slot, ""), s.gear) by { StillHoused(s.house, s.gear, owner, slot); }
    GoodsPlay(s, BurntChild(s, child), face);
  }

  lemma StillHoused(house: Place, gear: Place, player: string, slot: nat)
    requires Housed(house, gear)
    ensures Housed(Put(house, player, slot, ""), gear)
  {
    hide Put;
    PutAt(house, player, slot, "");
  }

  lemma GoneLoosely(s: State, player: string, emoji: string, face: string)
    requires Sound(s) && Finding(s, player, emoji) != Nowhere
    ensures Loosely(s, Gone(s, player, emoji), face)
    ensures !IsHolder(s.current, player) ==> Plays(s, Gone(s, player, emoji), face)
  {
    hide RidesSound; hide OnePlace; hide Mapped; hide Housed; hide Raised; hide Holding; hide Total; hide OnTheRoad; hide AtMost;
    hide PalleMade; hide EmojiMade; hide Solvent; hide Finding; hide TakenFrom; hide Content; hide Copy; hide IsHolder;
    TakenLoses(s, player, emoji, face);
    ToldOne(s.told, Went(Content(s, player, Finding(s, player, emoji))), face);
  }

  // ---------------------------------------------------------------- a throw at the place

  lemma BlownAtMost(s: State, target: string, onHim: bool)
    requires AtMost(s.current, s.gear)
    ensures AtMost(BlownUp(s, target, onHim).current, BlownUp(s, target, onHim).gear)
  {
    hide AtMost; hide PowerOf; hide Put;
    var slots := if onHim then GearSlots(s, target) else HouseSlots(s, target);
    var there := Exposed(slots, |slots|);
    if onHim && there != [] {
      HoleAtMost(s.current, s.gear, target, there[Roll(s, |there|)]);
    }
  }

  lemma BombedAtMost(s: State, thrower: string, victim: string, rules: Rules)
    requires AtMost(s.current, s.gear)
    ensures var t := Bombed(s, thrower, victim, AtPlace, rules); AtMost(t.current, t.gear)
  {
    hide AtMost; hide BlownUp; hide Lucky; hide Rolled;
    BlownAtMost(Rolled(s), thrower, true);
    BlownAtMost(Tried(s, rules.bombDudPercent), victim, true);
  }

  lemma LandedAtMost(s: State, thrown: string, thrower: string, victim: string, now: int, rules: Rules)
    requires AtMost(s.current, s.gear) && !IsPower(thrown, Nuke)
    ensures var t := Landed(s, thrown, thrower, victim, AtPlace, 0, now, rules); AtMost(t.current, t.gear)
  {
    hide AtMost; hide PowerOf; hide Bombed; hide StartedOver; hide Smeared; hide Frozen; hide Expecting;
    BombedAtMost(s, thrower, victim, rules);
  }

  lemma StepLoosely(s: State, t: State, u: State, now: int, spared: bool, face: string)
    requires Loosely(s, t, face) && Step(t, u, spared, 0, now, face) && AtMost(u.current, u.gear)
    ensures Loosely(s, u, face)
  {
    hide Standing; hide Holding; hide AtMost; hide OnTheRoad; hide Total; hide PalleMade; hide EmojiMade; hide SameRides;
    RoadUnwalked(t.raids, 0, 0, now, 0, LOAD);
    RoadUnwalked(u.raids, 0, 0, now, 0, LOAD);
    RoadUnwalked(t.raids, 0, 0, now, 0, GiftCopies(face));
    RoadUnwalked(u.raids, 0, 0, now, 0, GiftCopies(face));
  }

  lemma DroppedLoosely(s: State, t: State, player: string, emoji: string, now: int, rules: Rules, face: string)
    requires Loosely(s, t, face) && !IsPower(emoji, Nuke)
    ensures Loosely(s, ThrownAtPlace(t, player, emoji, now, rules), face)
  {
    hide Landed; hide Loosely; hide IsThrown; hide IsPower; hide Spares; hide Step;
    if LandsOnHolder(t, player, emoji) {
      var holder := t.current.value.username;
      LooselyParts(s, t, face);
      LandedSteps(t, emoji, player, holder, AtPlace, 0, now, rules, face);
      LandedAtMost(t, emoji, player, holder, now, rules);
      StepLoosely(s, t, Landed(t, emoji, player, holder, AtPlace, 0, now, rules), now,
                  Spares(t.current, player, holder, AtPlace), face);
    }
  }

  lemma LooselyParts(s: State, t: State, face: string)
    requires Loosely(s, t, face)
    ensures Standing(t) && AtMost(t.current, t.gear)
  {
  }

  /** The whole game starts over whatever the holder's bolts are by then. */
  lemma AgainLoosely(s: State, t: State, face: string)
    requires Loosely(s, t, face)
    ensures Plays(s, StartedAgain(t), face)
  {
    hide StartedAgain; hide Standing; hide AtMost; hide Books; hide EmojiBooks; hide Sound;
    LooselyParts(s, t, face);
    StartedAgainPlays(t, face);
  }

  lemma BurnPlays(s: State, player: string, emoji: string, now: int, rules: Rules, destroy: bool, face: string)
    requires Sound(s)
    ensures var t := Burn(s, player, emoji, now, rules, destroy); t.Done? ==> Plays(s, t.value, face)
  {
    hide Sound; hide Plays; hide Loosely; hide Gone; hide Finding; hide FirstChildLike; hide BurntChild; hide LostBolts; hide ThrownAtPlace;
    hide StartedAgain; hide IsPower; hide BurnAnswer;
    QuietPlay(s, s, face);
    if Finding(s, player, emoji) == Nowhere {
      var child := FirstChildLike(s, player, emoji, 0);
      if child.Some? {
        BurntChildPlays(s, child.value, face);
      }
    } else {
      var t := Gone(s, player, emoji);
      GoneLoosely(s, player, emoji, face);
      LostBoltsPlays(s, t, now, face);
      AgainLoosely(s, t, face);
      if !IsPower(emoji, Nuke) {
        DroppedLoosely(s, t, player, emoji, now, rules, face);
        LostBoltsPlays(s, ThrownAtPlace(t, player, emoji, now, rules), now, face);
      }
    }
  }

  // ---------------------------------------------------------------- palle

  /** palle_burn. */
  function BurnPalle(s: State, player: string, amount: int): (t: State)
    ensures t == s.(scores := t.scores, told := t.told)
  {
    if RideOf(s.raids, player).Some? || amount <= 0 || amount > Counter(s.scores, player) then s
    else s.(scores := s.scores[player := Counter(s.scores, player) - amount], told := s.told + [Spent(player, amount)])
  }

  lemma BurnPallePlays(s: State, player: string, amount: int, face: string)
    requires Sound(s)
    ensures Plays(s, BurnPalle(s, player, amount), face)
  {
    hide Sound; hide Plays; hide Total; hide RideOf; hide Solvent;
    QuietPlay(s, s, face);
    if BurnPalle(s, player, amount) != s {
      assert Solvent(s.scores) by { SoundSolvent(s); }
      PaidIn(s.scores, player, -amount);
      Claims.ScoresPlay(s, BurnPalle(s, player, amount), Spent(player, amount), face);
    }
  }

}
