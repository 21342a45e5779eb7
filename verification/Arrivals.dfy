/** src/game.cpp: a ride gets there once. Whatever else happens in the game, a ride that arrived has arrived for good. */
module Arrivals {
  import opened Basics
  import opened Powers
  import opened Places
  import opened World
  import opened Laws
  import opened Rides
  import opened Settling
  import opened Naming
  import opened Claims
  import opened Journeys
  import opened Household
  import opened Linking
  import opened Runs
  import opened Keeping
  import Holds
  import Burning
  import Quoting
  import Family
  import Belongings

  /** The same ride, later: to the same house, due there at the same time, and there if it was there before; until it gets there
      it is due home when it was. */
  predicate GoesOn(raid: Raid, later: Raid) {
    && later.raider == raid.raider && later.target == raid.target && later.arrive == raid.arrive
    && (raid.arrived ==> later.arrived)
    && (!later.arrived ==> later.back == raid.back)
  }

  /** Whoever rides before and after is on the same ride. */
  ghost predicate AllGoOn(before: seq<Raid>, after: seq<Raid>) {
    forall j, k | 0 <= j < |before| && 0 <= k < |after| && after[k].raider == before[j].raider :: GoesOn(before[j], after[k])
  }

  ghost predicate OneEach(raids: seq<Raid>) {
    forall j, k | 0 <= j < k < |raids| :: raids[j].raider != raids[k].raider
  }

  lemma SoundOneEach(s: State)
    requires Sound(s)
    ensures OneEach(s.raids)
  {
  }

  lemma SameGoOn(raids: seq<Raid>)
    requires OneEach(raids)
    ensures AllGoOn(raids, raids)
  {
  }

  /** Ride by ride, in the same places of the list. */
  ghost predicate EachGoesOn(before: seq<Raid>, after: seq<Raid>) {
    |after| == |before| && forall j | 0 <= j < |before| :: GoesOn(before[j], after[j])
  }

  lemma EachIsAll(before: seq<Raid>, after: seq<Raid>)
    requires OneEach(before) && EachGoesOn(before, after)
    ensures AllGoOn(before, after)
  {
    forall j, k | 0 <= j < |before| && 0 <= k < |after| && after[k].raider == before[j].raider
      ensures GoesOn(before[j], after[k])
    {
      assert GoesOn(before[k], after[k]);
    }
  }

  lemma EachOn(before: seq<Raid>, between: seq<Raid>, after: seq<Raid>)
    requires EachGoesOn(before, between) && EachGoesOn(between, after)
    ensures EachGoesOn(before, after)
  {
    forall j | 0 <= j < |before|
      ensures GoesOn(before[j], after[j])
    {
      assert GoesOn(before[j], between[j]) && GoesOn(between[j], after[j]);
    }
  }

  // ---------------------------------------------------------------- the round

  lemma SameRidesGoOn(raids: seq<Raid>, raids': seq<Raid>, ride: nat, now: int)
    requires SameRides(raids, raids', ride, now) && ride < |raids|
    requires !raids'[ride].arrived ==> raids'[ride].back == raids[ride].back
    ensures EachGoesOn(raids, raids')
  {
  }

  lemma {:induction false} WalkGoesOn(s: State, ride: nat, now: int, rules: Rules)
    requires Sound(s) && ride <= |s.raids|
    ensures EachGoesOn(s.raids, Walk(s, ride, now, rules).raids)
    decreases |s.raids| - ride
  {
    hide Sound; hide Arrived; hide CameHome; hide SameRides; hide GoesOn;
    if ride == |s.raids| {
      assert EachGoesOn(s.raids, s.raids) by { EachSame(s.raids); }
    } else {
      var t := CameHome(Arrived(s, ride, now, rules), ride, now);
      RideSettles(s, ride, now, rules);
      NotThereYet(s, ride, now, rules);
      SameRidesGoOn(s.raids, t.raids, ride, now);
      WalkGoesOn(t, ride + 1, now, rules);
      EachOn(s.raids, t.raids, Walk(t, ride + 1, now, rules).raids);
    }
  }

  lemma NotThereYet(s: State, ride: nat, now: int, rules: Rules)
    requires Sound(s) && ride < |s.raids|
    ensures var t := CameHome(Arrived(s, ride, now, rules), ride, now);
            !t.raids[ride].arrived ==> t.raids[ride] == s.raids[ride]
  {
    hide Sound; hide Delivered; hide Raided; hide Salted; hide Bitten; hide InOrder; hide ToldHome; hide WipesEmpty; hide CameHome;
    RideSettles(s, ride, now, rules);
  }

  lemma EachSame(raids: seq<Raid>)
    ensures EachGoesOn(raids, raids)
  {
  }

  lemma FewerGoOn(before: seq<Raid>, after: seq<Raid>, now: int)
    requires AllGoOn(before, after)
    ensures AllGoOn(before, UnderWay(after, now))
  {
    hide GoesOn;
    var kept := UnderWay(after, now);
    forall j, k | 0 <= j < |before| && 0 <= k < |kept| && kept[k].raider == before[j].raider
      ensures GoesOn(before[j], kept[k])
    {
      assert kept[k] in after;
    }
  }

  lemma RoundGoesOn(s: State, now: int, rules: Rules)
    requires Sound(s)
    ensures AllGoOn(s.raids, Family.Round(s, now, rules).raids)
  {
    hide Sound; hide Family.BeforeTheWalk; hide Walk; hide Walked; hide UnderWay; hide GoesOn;
    var t := Family.BeforeTheWalk(s, now, rules);
    BeforeTheWalkKeeps(s, now, rules, "");
    WalkGoesOn(t, 0, now, rules);
    var u := Walk(t, 0, now, rules);
    SoundOneEach(s);
    EachIsAll(s.raids, u.raids);
    FewerGoOn(s.raids, u.raids, now);
  }

  // ---------------------------------------------------------------- setting off and turning back

  lemma TurnedGoesOn(raids: seq<Raid>, ride: nat, now: int)
    requires ride < |raids|
    ensures EachGoesOn(raids, raids[ride := Turned(raids[ride], now)])
  {
  }

  lemma AddedGoOn(raids: seq<Raid>, raid: Raid)
    requires OneEach(raids) && !IsRiding(raids, raid.raider)
    ensures AllGoOn(raids, raids + [raid])
  {
    hide GoesOn;
    SameGoOn(raids);
    assert forall j | 0 <= j < |raids| :: raids[j].raider != raid.raider;
    forall j, k | 0 <= j < |raids| && 0 <= k < |raids| && raids[k].raider == raids[j].raider
      ensures GoesOn(raids[j], (raids + [raid])[k])
    {
      assert (raids + [raid])[k] == raids[k];
    }
  }

  lemma HomewardsGoesOn(s: State, player: string, now: int)
    requires OneEach(s.raids)
    ensures var t := Homewards(s, player, now); t.Done? ==> AllGoOn(s.raids, t.value.raids)
  {
    hide Turned; hide Holds.GoneHome; hide AllGoOn; hide OneEach;
    SameGoOn(s.raids);
    var ride := RideOf(s.raids, player);
    if ride.Some? {
      TurnedGoesOn(s.raids, ride.value, now);
      EachIsAll(s.raids, s.raids[ride.value := Turned(s.raids[ride.value], now)]);
    }
  }

  lemma SetOffRides(s: State, player: string, target: string, load: Load, now: int, rules: Rules)
    ensures var t := SetOff(s, player, target, load, now, rules);
            t.Done? ==> |t.value.raids| == |s.raids| + 1 && t.value.raids[..|s.raids|] == s.raids
                        && t.value.raids[|s.raids|].raider == player
  {
    hide Unhung; hide OnMap; hide TravelTime;
  }

  lemma SetOffGoesOn(s: State, player: string, target: string, load: Load, now: int, rules: Rules)
    requires OneEach(s.raids) && !IsRiding(s.raids, player)
    ensures var t := SetOff(s, player, target, load, now, rules); t.Done? ==> AllGoOn(s.raids, t.value.raids)
  {
    hide SetOff; hide AllGoOn; hide OneEach; hide IsRiding;
    var t := SetOff(s, player, target, load, now, rules);
    SetOffRides(s, player, target, load, now, rules);
    if t.Done? {
      assert t.value.raids == s.raids + [t.value.raids[|s.raids|]];
      AddedGoOn(s.raids, t.value.raids[|s.raids|]);
    }
  }

  lemma RaidStartGoesOn(s: State, userId: int, player: string, known: Option<string>, homewards: bool, load: Load, now: int,
                        rules: Rules)
    requires Sound(s)
    ensures var t := RaidStart(s, userId, player, known, homewards, load, now, rules); t.Done? ==> AllGoOn(s.raids, t.value.raids)
  {
    hide Sound; hide Remembered; hide RaidAnswer; hide Homewards; hide SetOff; hide PickedUp; hide AllGoOn; hide OneEach; hide IsLate;
    hide IsRiding;
    SoundOneEach(s);
    SameGoOn(s.raids);
    var u := s.(names := Remembered(s.names, player, userId));
    if homewards {
      HomewardsGoesOn(u, player, now);
    } else {
      AnswerMeans(s, player, known, homewards, load, now, rules);
      var t := PickedUp(u, player, load.gift);
      assert t.raids == s.raids by { PickedUpRides(u, player, load.gift); }
      if RaidAnswer(s, player, known, homewards, load, now, rules) == Started {
        SetOffGoesOn(t, player, known.value, load, now, rules);
      }
    }
  }

  lemma PickedUpRides(s: State, player: string, gift: int)
    ensures PickedUp(s, player, gift).raids == s.raids
  {
    hide PickedUp;
  }

  // ---------------------------------------------------------------- burning

  lemma EmptiedGoOn(raids: seq<Raid>, player: string, now: int)
    ensures EachGoesOn(raids, Emptied(raids, player, now))
  {
  }

  lemma LandedGoesOn(s: State, thrown: string, thrower: string, victim: string, now: int, rules: Rules)
    ensures EachGoesOn(s.raids, Landed(s, thrown, thrower, victim, AtPlace, 0, now, rules).raids)
  {
    hide PowerOf; hide Bombed; hide StartedOver; hide Smeared; hide Expecting; hide Rides.Frozen; hide EachGoesOn;
    EachSame(s.raids);
    StartedOverFields(s, victim, 0, now);
    EmptiedGoOn(s.raids, victim, now);
  }

  lemma BurnGoesOn(s: State, player: string, emoji: string, now: int, rules: Rules, destroy: bool)
    requires OneEach(s.raids)
    ensures var t := Burning.Burn(s, player, emoji, now, rules, destroy); t.Done? ==> AllGoOn(s.raids, t.value.raids)
  {
    hide Burning.Gone; hide Belongings.Finding; hide Burning.FirstChildLike; hide Burning.BurntChild; hide Holds.LostBolts;
    hide Burning.ThrownAtPlace; hide Burning.StartedAgain; hide IsPower; hide Burning.BurnAnswer; hide AllGoOn; hide OneEach;
    SameGoOn(s.raids);
    var t := Burning.Gone(s, player, emoji);
    assert AllGoOn(s.raids, Burning.StartedAgain(t).raids) by { NobodyGoesOn(s.raids, t); }
    ThrownGoesOn(t, player, emoji, now, rules);
    EachIsAll(s.raids, Burning.ThrownAtPlace(t, player, emoji, now, rules).raids);
  }

  lemma NobodyGoesOn(raids: seq<Raid>, s: State)
    ensures AllGoOn(raids, Burning.StartedAgain(s).raids)
  {
    hide Burning.KnownPlayers;
  }

  lemma ThrownGoesOn(s: State, player: string, emoji: string, now: int, rules: Rules)
    ensures EachGoesOn(s.raids, Burning.ThrownAtPlace(s, player, emoji, now, rules).raids)
  {
    hide Landed; hide Burning.LandsOnHolder; hide EachGoesOn;
    EachSame(s.raids);
    if s.current.Some? {
      LandedGoesOn(s, emoji, player, s.current.value.username, now, rules);
    }
  }

  // ---------------------------------------------------------------- the rest leaves the rides alone

  lemma ClaimRides(s: State, userId: int, player: string, now: int, rules: ClaimRules)
    ensures var t := Claim(s, userId, player, now, rules); t.Done? ==> t.value.raids == s.raids
  {
    hide Ready; hide SentAway; hide Met; hide MovedIn;
    var t := Ready(s, userId, player);
    if HolderThere(t) {
      MetRides(t, userId, player, now, rules);
    }
  }

  lemma MetRides(s: State, userId: int, player: string, now: int, rules: ClaimRules)
    requires s.current.Some?
    ensures var t := Met(s, userId, player, now, rules); t.Done? ==> t.value.raids == s.raids
  {
    hide IsStopped; hide AfterBalloon; hide Penalized; hide Holds.SettledHold; hide MovedIn;
  }

  lemma BuyRides(s: State, player: string, emoji: string, position: int, cost: int, limit: nat, now: int, inflation: int)
    ensures var t := Buy(s, player, emoji, position, cost, limit, now, inflation); t.Done? ==> t.value.raids == s.raids
  {
    hide Holds.GoneHome; hide BuyAnswer; hide SpotFor; hide Price; hide Paying;
  }

  lemma MoveRides(s: State, player: string, from: int, to: int, limit: nat, now: int)
    ensures var t := Move(s, player, from, to, limit, now); t.Done? ==> t.value.raids == s.raids
  {
    hide Holds.GoneHome; hide MoveAnswer; hide Rearranged;
  }

  lemma TakeRides(s: State, player: string, emoji: string, swap: string, now: int)
    ensures var t := Take(s, player, emoji, swap, now); t.Done? ==> t.value.raids == s.raids
  {
    hide Holds.GoneHome; hide WhereIs; hide PutAcross; hide Belongings.HouseLike; hide RoomOnHim; hide NamesChild;
    hide Belongings.FirstLike;
  }

  lemma StoreRides(s: State, player: string, emoji: string, limit: nat, now: int)
    ensures var t := Store(s, player, emoji, limit, now); t.Done? ==> t.value.raids == s.raids
  {
    hide Holds.GoneHome; hide WhereIs; hide PutAcross; hide FreeSlot; hide Belongings.FirstLike;
  }

  lemma LinkRides(s: State, mine: string, userId: int, other: Option<string>)
    ensures var t := Linking.Link(s, mine, userId, other); t.Done? ==> t.value.raids == s.raids
  {
    hide Named; hide LinkAnswer; hide Asked; hide MergedNames; hide HasAssets; hide IsTheirs; hide Linking.Link;
    if mine in s.names.accounts {
      LinkDoes(s, mine, userId, other);
    } else {
      NotSeen(s, mine, userId, other);
    }
  }

  lemma {:induction false} HandedOutRides(s: State, players: seq<string>, limit: nat)
    ensures HandedOut(s, players, limit).raids == s.raids
  {
    hide Greeted;
    if players != [] {
      HandedOutRides(s, players[..|players| - 1], limit);
    }
  }

  lemma PaperRides(s: State, command: Command)
    requires command.DestroyPalle? || command.BeSeen? || command.RecordInvite? || command.SettleInvite? || command.AddQuote? || command.DeleteQuote?
    ensures Next(s, command).raids == s.raids
  {
    hide Burning.BurnPalle; hide Seen; hide InviteDue; hide Linking.RecordInvite; hide Quoting.AddQuote; hide Quoting.DeleteQuote;
  }

  /** Whatever the transaction, whoever rides before and after it is on the same ride, and if it was there it is there. */
  lemma NextGoesOn(s: State, command: Command)
    requires Sound(s)
    ensures AllGoOn(s.raids, Next(s, command).raids)
  {
    hide Sound; hide AllGoOn; hide Claim; hide RaidStart; hide Buy; hide Move; hide Take; hide Store; hide Burning.Burn;
    hide Burning.BurnPalle; hide Seen; hide Linking.Link; hide InviteDue; hide Family.Round; hide Linking.RecordInvite; hide HandedOut;
    hide Quoting.AddQuote; hide Quoting.DeleteQuote; hide OneEach;
    SoundOneEach(s);
    SameGoOn(s.raids);
    match command
    case ClaimPlace(userId, player, now, claims) => ClaimRides(s, userId, player, now, claims);
    case StartRaid(userId, player, known, homewards, load, now, rules) =>
      RaidStartGoesOn(s, userId, player, known, homewards, load, now, rules);
    case BuyEmoji(player, emoji, position, cost, limit, now, inflation) =>
      BuyRides(s, player, emoji, position, cost, limit, now, inflation);
    case MoveEmoji(player, from, to, limit, now) => MoveRides(s, player, from, to, limit, now);
    case TakeGear(player, emoji, swap, now) => TakeRides(s, player, emoji, swap, now);
    case StoreGear(player, emoji, limit, now) => StoreRides(s, player, emoji, limit, now);
    case BurnEmoji(player, emoji, now, rules, destroy) => BurnGoesOn(s, player, emoji, now, rules, destroy);
    case LinkAccounts(mine, userId, other) => LinkRides(s, mine, userId, other);
    case HandOutBalloons(players, limit) => HandedOutRides(s, players, limit);
    case KeepRound(now, rules) => RoundGoesOn(s, now, rules);
    case _ => PaperRides(s, command);
  }

  // ---------------------------------------------------------------- every run

  /** He is on the road after every transaction. */
  ghost predicate StaysOut(s: State, commands: seq<Command>, raider: string) {
    forall k: nat | k <= |commands| :: IsRiding(Run(s, commands[..k]).raids, raider)
  }

  lemma StaysOutBefore(s: State, commands: seq<Command>, raider: string)
    requires StaysOut(s, commands, raider) && commands != []
    ensures StaysOut(s, commands[..|commands| - 1], raider) && IsRiding(Run(s, commands[..|commands| - 1]).raids, raider)
  {
    hide Run; hide IsRiding;
    var front := commands[..|commands| - 1];
    forall k: nat | k <= |front|
      ensures IsRiding(Run(s, front[..k]).raids, raider)
    {
      assert front[..k] == commands[..k];
    }
    assert front[..|front|] == front;
  }

  lemma GoesOnThrough(before: seq<Raid>, between: seq<Raid>, after: seq<Raid>, j: nat, k: nat)
    requires j < |before| && k < |after| && after[k].raider == before[j].raider
    requires AllGoOn(between, after) && IsRiding(between, before[j].raider)
    requires forall i | 0 <= i < |between| && between[i].raider == before[j].raider :: GoesOn(before[j], between[i])
    ensures GoesOn(before[j], after[k])
  {
    var i :| 0 <= i < |between| && between[i].raider == before[j].raider;
    assert GoesOn(between[i], after[k]);
  }

  /** Over every run, a ride that arrived stays arrived as long as it is on the list, so nothing it does on arrival is ever done
      again: at any later round it is left as it is. */
  lemma {:induction false} RunArrivesOnce(s: State, commands: seq<Command>, j: nat, k: nat)
    requires Sound(s) && forall i | 0 <= i < |commands| :: IsSensible(commands[i])
    requires j < |s.raids| && StaysOut(s, commands, s.raids[j].raider)
    requires k < |Run(s, commands).raids| && Run(s, commands).raids[k].raider == s.raids[j].raider
    ensures GoesOn(s.raids[j], Run(s, commands).raids[k])
    ensures s.raids[j].arrived ==> forall now: int, rules: Rules :: Arrived(Run(s, commands), k, now, rules) == Run(s, commands)
  {
    hide Sound; hide GoesOn; hide Next; hide IsSensible; hide IsRiding; hide StaysOut; hide Plays; hide AllGoOn;
    var t := Run(s, commands);
    if commands == [] {
      SoundOneEach(s);
      SameGoOn(s.raids);
      OnIt(s.raids, s.raids, j, k);
    } else {
      var front, last := commands[..|commands| - 1], commands[|commands| - 1];
      StaysOutBefore(s, commands, s.raids[j].raider);
      RunKeeps(s, front, "");
      PlayedSound(s, Run(s, front), "");
      NextGoesOn(Run(s, front), last);
      forall i | 0 <= i < |Run(s, front).raids| && Run(s, front).raids[i].raider == s.raids[j].raider
        ensures GoesOn(s.raids[j], Run(s, front).raids[i])
      {
        RunArrivesOnce(s, front, j, i);
      }
      GoesOnThrough(s.raids, Run(s, front).raids, t.raids, j, k);
    }
    assert GoesOn(s.raids[j], t.raids[k]);
    if s.raids[j].arrived {
      forall now: int, rules: Rules
        ensures Arrived(t, k, now, rules) == t
      {
        ArrivedAlready(s.raids[j], t, k, now, rules);
      }
    }
  }

  lemma OnIt(before: seq<Raid>, after: seq<Raid>, j: nat, k: nat)
    requires AllGoOn(before, after) && j < |before| && k < |after| && after[k].raider == before[j].raider
    ensures GoesOn(before[j], after[k])
  {
  }

  lemma ArrivedAlready(raid: Raid, t: State, k: nat, now: int, rules: Rules)
    requires k < |t.raids| && GoesOn(raid, t.raids[k]) && raid.arrived
    ensures Arrived(t, k, now, rules) == t
  {
    hide Delivered; hide Raided; hide Salted; hide Bitten;
  }

  // ---------------------------------------------------------------- turning back

  /** Whoever was at home and is on the road after raid_start has set off with two legs as long as each other. */
  lemma SetsOut(s: State, start: Command)
    requires start.StartRaid? && !IsRiding(s.raids, start.player) && IsRiding(Next(s, start).raids, start.player)
    ensures var t := Next(s, start);
            && |t.raids| == |s.raids| + 1
            && var raid := t.raids[|s.raids|];
               raid.raider == start.player && !raid.arrived && raid.arrive - start.now == raid.back - raid.arrive
  {
    hide RaidAnswer; hide Remembered; hide PickedUp; hide SetOff; hide Homewards; hide IsRiding; hide IsLate;
    var u := s.(names := Remembered(s.names, start.player, start.userId));
    var v := PickedUp(u, start.player, start.load.gift);
    assert v.raids == s.raids by { PickedUpRides(u, start.player, start.load.gift); }
    if start.homewards {
      NotOnTheWay(u, start.player, start.now);
    } else if RaidAnswer(s, start.player, start.known, false, start.load, start.now, start.rules) == Started {
      LegsAlike(v, start.player, start.known.value, start.load, start.now, start.rules);
    }
  }

  lemma NotOnTheWay(s: State, player: string, now: int)
    requires !IsRiding(s.raids, player)
    ensures var t := Homewards(s, player, now); t.Done? ==> t.value.raids == s.raids
  {
    hide Holds.LeftPlace; hide HoldsPlace;
  }

  lemma LegsAlike(s: State, player: string, target: string, load: Load, now: int, rules: Rules)
    ensures var t := SetOff(s, player, target, load, now, rules);
            t.Done? ==>
              && |t.value.raids| == |s.raids| + 1
              && var raid := t.value.raids[|s.raids|];
                 raid.raider == player && !raid.arrived && raid.arrive - now == raid.back - raid.arrive
  {
    hide Unhung; hide OnMap; hide TravelTime;
  }

  lemma TurnsRound(s: State, turn: Command, k: nat)
    requires turn.StartRaid? && turn.homewards && OneEach(s.raids) && k < |s.raids| && s.raids[k].raider == turn.player
    ensures Next(s, turn).raids == s.raids[k := Turned(s.raids[k], turn.now)]
  {
    hide Remembered; hide Turned; hide Holds.GoneHome;
    assert RideOf(s.raids, turn.player) == Some(k);
  }

  /** Over every run: whoever sets off, and turns back before he got there, is on the way home for exactly as long as he has been
      riding, whatever happened in the game meanwhile. */
  lemma TurnCosts(s: State, start: Command, commands: seq<Command>, turn: Command, k: nat)
    requires Sound(s) && IsSensible(start) && forall i | 0 <= i < |commands| :: IsSensible(commands[i])
    requires start.StartRaid? && !IsRiding(s.raids, start.player)
    requires StaysOut(Next(s, start), commands, start.player)
    requires var t := Run(Next(s, start), commands);
             && k < |t.raids| && t.raids[k].raider == start.player && !t.raids[k].arrived
             && turn.StartRaid? && turn.homewards && turn.player == start.player && start.now <= turn.now < t.raids[k].arrive
    ensures var u := Next(Run(Next(s, start), commands), turn).raids;
            && k < |u| && u[k].raider == start.player && u[k].arrived
            && u[k].back - turn.now == turn.now - start.now
  {
    hide Sound; hide Next; hide Run; hide IsSensible; hide IsRiding; hide Plays; hide Turned; hide StaysOut;
    var s' := Next(s, start);
    OutAtFirst(s', commands, start.player);
    SetsOut(s, start);
    NextPlays(s, start);
    var t := Run(s', commands);
    RunArrivesOnce(s', commands, |s.raids|, k);
    RunKeeps(s', commands, "");
    PlayedSound(s', t, "");
    SoundOneEach(t);
    TurnsRound(t, turn, k);
    FirstTurn(t.raids[k], start.now, turn.now);
    TurnedThere(t.raids[k], turn.now);
  }

  lemma OutAtFirst(s: State, commands: seq<Command>, raider: string)
    requires StaysOut(s, commands, raider)
    ensures IsRiding(s.raids, raider)
  {
    hide IsRiding;
    assert commands[..0] == [];
  }

  lemma NextPlays(s: State, command: Command)
    requires Sound(s) && IsSensible(command)
    ensures Sound(Next(s, command))
  {
    hide Sound; hide Made; hide IsModest; hide IsPlain; hide Plays;
    MadePlays(s, command, "");
    if Made(s, command).Done? {
      PlayedSound(s, Made(s, command).value, "");
    }
  }

  lemma TurnedThere(raid: Raid, now: int)
    ensures Turned(raid, now).raider == raid.raider && Turned(raid, now).arrived
  {
  }
}
