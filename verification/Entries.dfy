/** Every transaction's entries in the ledgers: what it may tell, and what the palle and the emoji there are come to. */
module Entries {
  import opened Basics
  import opened Powers
  import opened Ledger
  import opened Places
  import opened World
  import opened Laws
  import opened Rides
  import opened Holds
  import opened Naming
  import opened Belongings
  import opened Claims
  import opened Journeys
  import opened Household
  import opened Linking
  import opened Runs
  import opened Telling
  import Burning
  import Quoting
  import Family

  // ---------------------------------------------------------------- who leaves the place is paid

  /** What settling the hold tells. */
  function Payout(s: State, now: int): seq<Event> {
    if s.current.None? || Earned(s.current.value, now).Abandoned? then []
    else [Paid(s.current.value.username, Earned(s.current.value, now).value + s.current.value.banked)]
  }

  /** Nothing is told and nobody leaves the place. */
  ghost predicate Unpaid(s: State, t: State) {
    t.told == s.told && t.current == s.current
  }

  /** Whoever was in the place is not any more, and was told to be paid exactly what the hold made. */
  ghost predicate PaidOff(s: State, t: State, now: int) {
    s.current.Some? && Earned(s.current.value, now).Done? && t.told == s.told + Payout(s, now)
  }

  /** Nothing is told, or whoever was in the place has left it and was paid. */
  ghost predicate PaysOut(s: State, t: State, now: int) {
    Unpaid(s, t) || (PaidOff(s, t, now) && t.current.None?)
  }

  lemma PaysOutOn(s: State, t: State, u: State, now: int)
    requires PaysOut(s, t, now) && Unpaid(t, u)
    ensures PaysOut(s, u, now)
  {
    hide Payout;
  }

  lemma SettledPays(s: State, u: State, now: int)
    requires s.current.Some? && u == s.(current := None)
    ensures var t := SettledHold(u, s.current.value, now); t.Done? ==> PaidOff(s, t.value, now) && t.value.current.None?
  {
    hide Earned;
  }

  lemma GoneHomePays(s: State, player: string, now: int)
    ensures var t := GoneHome(s, player, now);
            t.Done? ==> PaysOut(s, t.value, now)
  {
    hide SettledHold; hide RideOf; hide PaidOff; hide HoldsPlace;
    if WhereIs(s, player) == AtPlace {
      assert s.current.Some? by { HoldsSome(s, player); }
      SettledPays(s, s.(current := None), now);
    }
  }

  lemma HoldsSome(s: State, player: string)
    ensures HoldsPlace(s, player) ==> s.current.Some?
  {
  }

  /** The commands that are worth no more than what the hold they end is paid. */
  predicate PaysOnly(command: Command) {
    command.ClaimPlace? || command.StartRaid? || command.MoveEmoji? || command.TakeGear? || command.StoreGear?
  }

  lemma SamePays(s: State, u: State, t: State, now: int)
    requires u.told == s.told && u.current == s.current
    ensures Unpaid(u, t) ==> Unpaid(s, t)
    ensures PaidOff(u, t, now) ==> PaidOff(s, t, now)
  {
  }

  /** He is in from now on, and whoever was there has been paid. */
  ghost predicate ComesIn(s: State, t: State, player: string, now: int) {
    && IsHolder(t.current, player) && t.current.value.since == now
    && (PaidOff(s, t, now) || (!HolderThere(s) && t.told == s.told))
  }

  lemma ClaimPays(s: State, userId: int, player: string, now: int, rules: ClaimRules)
    ensures var t := Claim(s, userId, player, now, rules);
            t.Done? ==> Unpaid(s, t.value) || (SentAway(s, player, now).None? && ComesIn(s, t.value, player, now))
  {
    hide Met; hide Ready; hide SentAway; hide MovedIn; hide ComesIn;
    var t := Ready(s, userId, player);
    assert Unpaid(s, t) by { ReadyUnpaid(s, userId, player); }
    if SentAway(s, player, now).None? {
      if HolderThere(t) {
        MeetsPays(s, t, userId, player, now, rules);
      } else {
        InPays(s, t, userId, player, now, rules);
      }
    }
  }

  lemma ReadyUnpaid(s: State, userId: int, player: string)
    ensures Unpaid(s, Ready(s, userId, player))
  {
    hide Ready;
  }

  lemma MeetsPays(s: State, t: State, userId: int, player: string, now: int, rules: ClaimRules)
    requires Unpaid(s, t) && t.current.Some?
    ensures var u := Met(t, userId, player, now, rules); u.Done? ==> Unpaid(s, u.value) || ComesIn(s, u.value, player, now)
  {
    hide Met; hide PaidOff;
    MetPays(t, userId, player, now, rules);
    var u := Met(t, userId, player, now, rules);
    if u.Done? {
      SamePays(s, t, u.value, now);
    }
  }

  lemma InPays(s: State, t: State, userId: int, player: string, now: int, rules: ClaimRules)
    requires Unpaid(s, t) && !HolderThere(t)
    ensures ComesIn(s, MovedIn(t, userId, player, "", now, rules), player, now)
  {
    hide FreshHold;
    FreshOf(t.gear, userId, player, "", now, rules);
  }

  lemma FreshOf(gear: Place, userId: int, player: string, kicked: string, now: int, rules: ClaimRules)
    ensures var hold := FreshHold(gear, userId, player, kicked, now, rules);
            hold.username == player && hold.since == now && hold.banked == 0 && hold.countedFrom == 0
  {
    hide LobstersCopying; hide ShownGear; hide CountPower;
  }

  lemma MetPays(s: State, userId: int, player: string, now: int, rules: ClaimRules)
    requires s.current.Some?
    ensures var t := Met(s, userId, player, now, rules);
            t.Done? ==> Unpaid(s, t.value) ||
                        (PaidOff(s, t.value, now) && IsHolder(t.value.current, player) && t.value.current.value.since == now)
  {
    hide IsStopped; hide AfterBalloon; hide Penalized; hide Ousted; hide Earned;
    var t := AfterBalloon(s, player, s.current.value.username, now, rules);
    OustedPaid(t, userId, player, now, rules);
    assert Payout(t, now) == Payout(s, now);
  }

  lemma RaidStartPays(s: State, userId: int, player: string, known: Option<string>, homewards: bool, load: Load, now: int,
                      rules: Rules)
    ensures var t := RaidStart(s, userId, player, known, homewards, load, now, rules);
            t.Done? ==> PaysOut(s, t.value, now)
  {
    hide Remembered; hide RaidAnswer; hide SetOff; hide PickedUp; hide IsLate; hide Homewards; hide PaidOff;
    var u := s.(names := Remembered(s.names, player, userId));
    if homewards {
      HomewardsPays(u, player, now);
      if Homewards(u, player, now).Done? {
        SamePays(s, u, Homewards(u, player, now).value, now);
      }
    } else {
      LeavesUnpaid(s, userId, player, known, load, now, rules);
    }
  }

  lemma LeavesUnpaid(s: State, userId: int, player: string, known: Option<string>, load: Load, now: int, rules: Rules)
    ensures var t := RaidStart(s, userId, player, known, false, load, now, rules); t.Done? ==> Unpaid(s, t.value)
  {
    hide Remembered; hide RaidAnswer; hide SetOff; hide PickedUp; hide IsLate; hide Homewards;
    var u := s.(names := Remembered(s.names, player, userId));
    var answer := RaidAnswer(s, player, known, false, load, now, rules);
    var t := PickedUp(u, player, load.gift);
    assert t.told == s.told && t.current == s.current by { PickedUpUnpaid(u, player, load.gift); }
    if answer == Started {
      SetOffUnpaid(t, player, known.value, load, now, rules);
    } else if IsLate(answer) {
      assert RaidStart(s, userId, player, known, false, load, now, rules) == Done(t);
    } else {
      assert RaidStart(s, userId, player, known, false, load, now, rules) == Done(u);
    }
  }

  lemma PickedUpUnpaid(s: State, player: string, gift: int)
    ensures Unpaid(s, PickedUp(s, player, gift))
  {
    hide PickedUp;
  }

  lemma SetOffUnpaid(s: State, player: string, target: string, load: Load, now: int, rules: Rules)
    ensures var t := SetOff(s, player, target, load, now, rules); t.Done? ==> Unpaid(s, t.value)
  {
    hide SetOff;
  }

  lemma HomewardsPays(s: State, player: string, now: int)
    ensures var t := Homewards(s, player, now);
            t.Done? ==> PaysOut(s, t.value, now)
  {
    hide GoneHome; hide RideOf; hide Turned; hide Payout; hide Earned;
    GoneHomePays(s, player, now);
  }

  lemma MovePays(s: State, player: string, from: int, to: int, limit: nat, now: int)
    ensures var t := Move(s, player, from, to, limit, now); t.Done? ==> PaysOut(s, t.value, now)
  {
    hide GoneHome; hide MoveAnswer; hide Rearranged; hide PaysOut; hide Unpaid;
    var t := GoneHome(s, player, now);
    GoneHomePays(s, player, now);
    assert PaysOut(s, s, now) by { Nothing(s, now); }
    if t.Done? && MoveAnswer(t.value, player, from, to, limit) == Moved {
      RearrangedUnpaid(t.value, player, from - 1, to - 1);
      PaysOutOn(s, t.value, Rearranged(t.value, player, from - 1, to - 1), now);
    }
  }

  lemma Nothing(s: State, now: int)
    ensures PaysOut(s, s, now)
  {
  }

  lemma RearrangedUnpaid(s: State, player: string, from: nat, to: nat)
    requires from < |HouseSlots(s, player)|
    ensures Unpaid(s, Rearranged(s, player, from, to))
  {
    hide Rearranged;
  }

  lemma PutAcrossUnpaid(s: State, player: string, from: nat, to: nat)
    ensures Unpaid(s, PutAcross(s, player, from, to))
  {
    hide PutAcross;
  }

  lemma TakePays(s: State, player: string, emoji: string, swap: string, now: int)
    ensures var t := Take(s, player, emoji, swap, now); t.Done? ==> PaysOut(s, t.value, now)
  {
    hide GoneHome; hide WhereIs; hide PutAcross; hide HouseLike; hide RoomOnHim; hide NamesChild; hide FirstLike; hide PaysOut;
    hide Unpaid;
    var t := GoneHome(s, player, now);
    GoneHomePays(s, player, now);
    if t.Done? && TakeAnswer(t.value, player, emoji, swap) == GearStatus.Taken {
      var from, to := HouseLike(t.value, player, emoji, 0).value, RoomOnHim(t.value, player, swap).value;
      PutAcrossUnpaid(t.value, player, from, to);
      PaysOutOn(s, t.value, PutAcross(t.value, player, from, to), now);
    }
  }

  lemma StorePays(s: State, player: string, emoji: string, limit: nat, now: int)
    ensures var t := Store(s, player, emoji, limit, now); t.Done? ==> PaysOut(s, t.value, now)
  {
    hide GoneHome; hide WhereIs; hide PutAcross; hide FreeSlot; hide FirstLike; hide PaysOut; hide Unpaid;
    var t := GoneHome(s, player, now);
    GoneHomePays(s, player, now);
    if t.Done? && StoreAnswer(t.value, player, emoji, limit) == Stored {
      var from, to := FreeSlot(HouseSlots(t.value, player), limit).value, FirstLike(GearSlots(t.value, player), emoji).value;
      PutAcrossUnpaid(t.value, player, from, to);
      PaysOutOn(s, t.value, PutAcross(t.value, player, from, to), now);
    }
  }

  /** What a purchase tells. */
  ghost function Bill(s: State, player: string, emoji: string, position: int, cost: int, limit: nat, inflation: int): seq<Event> {
    if BuyAnswer(s, player, emoji, position, cost, limit, inflation) != Bought then []
    else [Spent(player, Price(s, emoji, cost, inflation))]
           + [Went(Replaced(s, player, SpotFor(s, player, emoji, position, limit)))] + [Came(emoji)]
  }

  lemma BuyPays(s: State, player: string, emoji: string, position: int, cost: int, limit: nat, now: int, inflation: int)
    ensures var t, u := Buy(s, player, emoji, position, cost, limit, now, inflation), GoneHome(s, player, now);
            t.Done? ==> u.Done? && PaysOut(s, u.value, now) && t.value.current == u.value.current
                        && t.value.told == u.value.told + Bill(u.value, player, emoji, position, cost, limit, inflation)
  {
    hide GoneHome; hide BuyAnswer; hide SpotFor; hide Price; hide PaysOut; hide Replaced; hide Placed;
    GoneHomePays(s, player, now);
  }

  /** Claiming, riding out, turning back, moving, taking and storing tell nothing, or one pay: that of a hold they end. */
  lemma OnlyPays(s: State, command: Command)
    requires PaysOnly(command)
    ensures var t := Next(s, command);
            t.told == s.told || PaidOff(s, t, command.now)
  {
    hide Claim; hide RaidStart; hide Move; hide Take; hide Store; hide PaidOff; hide SentAway; hide HolderThere;
    match command
    case ClaimPlace(userId, player, now, claims) => ClaimPays(s, userId, player, now, claims);
    case StartRaid(userId, player, known, homewards, load, now, rules) =>
      RaidStartPays(s, userId, player, known, homewards, load, now, rules);
    case MoveEmoji(player, from, to, limit, now) => MovePays(s, player, from, to, limit, now);
    case TakeGear(player, emoji, swap, now) => TakePays(s, player, emoji, swap, now);
    case StoreGear(player, emoji, limit, now) => StorePays(s, player, emoji, limit, now);
  }

  /** The rest of the game tells nothing but this. */
  predicate MayTell(command: Command, event: Event) {
    match command
    case BuyEmoji(_, _, _, _, _, _, _) => event.Paid? || event.Spent? || event.Went? || event.Came?
    case BurnEmoji(_, _, _, _, _) => event.Went? || event.Came? || event.Wiped? || event.Over?
    case DestroyPalle(player, amount) => event == Spent(player, amount)
    case BeSeen(_, _, _, _, _, _, _) => event == Came(BALLOON)
    case HandOutBalloons(_, _) => event == Came(BALLOON)
    case LinkAccounts(_, _, _) => event.Wiped? && event.palle == 0
    case SettleInvite(_, _) => event == Rewarded(INVITER_REWARD + INVITED_REWARD)
    case AddQuote(player, _, cost) => event == Spent(player, cost)
    case KeepRound(_, _) => event.Laid? || IsOfRide(event)
    case _ => PaysOnly(command) && event.Paid?
  }

  ghost predicate Tells(command: Command, told: seq<Event>, told': seq<Event>) {
    told <= told' && forall k | |told| <= k < |told'| :: MayTell(command, told'[k])
  }

  lemma TellsNothing(command: Command, told: seq<Event>)
    ensures Tells(command, told, told)
  {
  }

  lemma TellsOne(command: Command, told: seq<Event>, event: Event)
    requires MayTell(command, event)
    ensures Tells(command, told, told + [event])
  {
  }

  lemma TellsOn(command: Command, told: seq<Event>, told': seq<Event>, told'': seq<Event>)
    requires Tells(command, told, told') && Tells(command, told', told'')
    ensures Tells(command, told, told'')
  {
    hide MayTell;
    forall k | |told| <= k < |told''|
      ensures MayTell(command, told''[k])
    {
      assert k < |told'| ==> told''[k] == told'[k];
    }
  }

  lemma PaysTell(s: State, command: Command)
    requires PaysOnly(command)
    ensures Tells(command, s.told, Next(s, command).told)
  {
    hide Next; hide Earned;
    OnlyPays(s, command);
    TellsNothing(command, s.told);
  }

  lemma BuyTells(s: State, command: Command)
    requires command.BuyEmoji?
    ensures Tells(command, s.told, Next(s, command).told)
  {
    hide Buy; hide GoneHome; hide Tells; hide Earned; hide Bill;
    TellsNothing(command, s.told);
    var u := GoneHome(s, command.player, command.now);
    BuyPays(s, command.player, command.emoji, command.position, command.cost, command.limit, command.now, command.inflation);
    if Made(s, command).Done? {
      PaysOutTells(s, u.value, command);
      BillTells(u.value, command);
      TellsOn(command, s.told, u.value.told, Next(s, command).told);
    }
  }

  lemma PaysOutTells(s: State, t: State, command: Command)
    requires command.BuyEmoji? && PaysOut(s, t, command.now)
    ensures Tells(command, s.told, t.told)
  {
    hide Earned;
  }

  lemma BillTells(s: State, command: Command)
    requires command.BuyEmoji?
    ensures Tells(command, s.told, s.told + Bill(s, command.player, command.emoji, command.position, command.cost, command.limit, command.inflation))
  {
    hide BuyAnswer; hide SpotFor; hide Price; hide Replaced;
  }

  lemma {:induction false} HandedOutTells(s: State, players: seq<string>, limit: nat)
    ensures Tells(HandOutBalloons(players, limit), s.told, HandedOut(s, players, limit).told)
  {
    hide Greeted; hide Tells;
    TellsNothing(HandOutBalloons(players, limit), s.told);
    if players != [] {
      var front := players[..|players| - 1];
      HandedOutTells(s, front, limit);
      GreetedTells(HandedOut(s, front, limit), players[|players| - 1], limit, HandOutBalloons(players, limit));
      SameTells(HandOutBalloons(front, limit), HandOutBalloons(players, limit), s.told, HandedOut(s, front, limit).told);
      TellsOn(HandOutBalloons(players, limit), s.told, HandedOut(s, front, limit).told, HandedOut(s, players, limit).told);
    }
  }

  lemma SameTells(command: Command, command': Command, told: seq<Event>, told': seq<Event>)
    requires command.HandOutBalloons? && command'.HandOutBalloons? && Tells(command, told, told')
    ensures Tells(command', told, told')
  {
  }

  lemma HandedTells(s: State, player: string, limit: nat)
    ensures var handed := BalloonHanded(s, player, limit); handed.Some? ==> handed.value.told == s.told
  {
    hide BalloonHanded;
  }

  lemma GreetedTells(s: State, player: string, limit: nat, command: Command)
    requires command.HandOutBalloons? || command.BeSeen?
    ensures Tells(command, s.told, Greeted(s, player, limit).told)
  {
    hide HasBalloon; hide BalloonHanded; hide Tells; hide MayTell; hide Tell;
    assert MayTell(command, Came(BALLOON)) by { BalloonComes(command); }
    TellsNothing(command, s.told);
    TellsOne(command, s.told, Came(BALLOON));
    var t := s.(welcomed := s.welcomed[player := 1]);
    var handed := BalloonHanded(t, player, limit);
    HandedTells(t, player, limit);
    if handed.Some? {
      assert Tell(handed.value, Came(BALLOON)).told == s.told + [Came(BALLOON)] by { ToldNext(handed.value, Came(BALLOON)); }
    }
  }

  lemma ToldNext(s: State, event: Event)
    ensures Tell(s, event).told == s.told + [event]
  {
  }

  lemma BalloonComes(command: Command)
    requires command.HandOutBalloons? || command.BeSeen?
    ensures MayTell(command, Came(BALLOON))
  {
  }

  lemma SeenTells(s: State, command: Command)
    requires command.BeSeen?
    ensures Tells(command, s.told, Next(s, command).told)
  {
    hide PlatformKey; hide BoundTo; hide Called; hide FirstSeen; hide Greeted; hide DayCounted; hide Tells;
    var mine := PlatformKey(command.userId, command.username, command.account);
    var accounts := BoundTo(s, mine, command.candidate);
    var key := accounts[mine];
    var t := FirstSeen(s.(names := Called(s.names.(accounts := accounts), key, command.userId, command.username)), key, command.now);
    GreetedTells(t, key, command.limit, command);
  }

  lemma MadeOneTells(s: State, mine: string, userId: int, theirs: string, command: Command)
    requires Sound(s) && mine in s.names.accounts && theirs in s.names.accounts && command.LinkAccounts?
    requires LinkAnswer(s, mine, userId, Some(theirs)) == Linked
    ensures Tells(command, s.told, MadeOne(s, mine, theirs).told)
  {
    hide Sound; hide HasAssets; hide AnotherLinked; hide Merged; hide MergedNames; hide OnlyWelcome; hide Tells; hide Total;
    var myKey, otherKey := s.names.accounts[mine], s.names.accounts[theirs];
    var primary, secondary := Primary(s, myKey, otherKey), Secondary(s, myKey, otherKey);
    NothingLost(s, MergedNames(s.names, mine, theirs, primary, secondary), secondary);
    TellsOne(command, s.told, Wiped(secondary, 0, HouseSlots(s, secondary) + GearSlots(s, secondary)));
  }

  lemma AskedTells(s: State, mine: string, theirs: string, command: Command)
    ensures Tells(command, s.told, Asked(s, mine, theirs).told)
  {
    hide Asked;
  }

  lemma LinkTells(s: State, mine: string, userId: int, other: Option<string>)
    requires Sound(s)
    ensures var t := Linking.Link(s, mine, userId, other);
            t.Done? ==> Tells(LinkAccounts(mine, userId, other), s.told, t.value.told)
  {
    hide *;
    var command := LinkAccounts(mine, userId, other);
    var t, theirs := Linking.Link(s, mine, userId, other), Named(s, userId, other);
    TellsNothing(command, s.told);
    if mine !in s.names.accounts {
      NotSeen(s, mine, userId, other);
    } else {
      LinkDoes(s, mine, userId, other);
      if t == Done(s) {
      } else if theirs.Some? && t == Done(Asked(s, mine, theirs.value)) {
        AskedTells(s, mine, theirs.value, command);
      } else if theirs.Some? && theirs.value in s.names.accounts {
        MadeOneTells(s, mine, userId, theirs.value, command);
      }
    }
  }

  // ---------------------------------------------------------------- burning

  lemma BlownTells(s: State, target: string, onHim: bool, command: Command)
    requires command.BurnEmoji?
    ensures Tells(command, s.told, BlownUp(s, target, onHim).told)
  {
    hide Exposed; hide InHouse; hide OnHim; hide SlotsIn; hide Roll;
  }

  lemma BombTells(s: State, thrower: string, victim: string, rules: Rules, command: Command)
    requires command.BurnEmoji?
    ensures Tells(command, s.told, Bombed(s, thrower, victim, AtPlace, rules).told)
  {
    hide Tells; hide BlownUp; hide Lucky; hide Rolled;
    BlownTells(Rolled(s), thrower, true, command);
    BlownTells(Tried(s, rules.bombDudPercent), victim, true, command);
  }

  lemma ResetTells(s: State, player: string, now: int, command: Command)
    requires command.BurnEmoji?
    ensures Tells(command, s.told, StartedOver(s, player, 0, now).told)
  {
    hide Elsewhere; hide Emptied; hide NotExpecting; hide Losing; hide Hung; hide LostPalle; hide LostGift; hide SlotsIn;
  }

  lemma ThrownTells(s: State, player: string, emoji: string, now: int, rules: Rules, command: Command)
    requires command.BurnEmoji?
    ensures Tells(command, s.told, Burning.ThrownAtPlace(s, player, emoji, now, rules).told)
  {
    hide Tells; hide Landed; hide Burning.LandsOnHolder;
    TellsNothing(command, s.told);
    if s.current.Some? {
      LandTells(s, emoji, player, s.current.value.username, now, rules, command);
    }
  }

  lemma LandTells(s: State, thrown: string, thrower: string, victim: string, now: int, rules: Rules, command: Command)
    requires command.BurnEmoji?
    ensures Tells(command, s.told, Landed(s, thrown, thrower, victim, AtPlace, 0, now, rules).told)
  {
    hide Tells; hide PowerOf; hide Bombed; hide StartedOver; hide Smeared; hide Expecting; hide Rides.Frozen;
    TellsNothing(command, s.told);
    BombTells(s, thrower, victim, rules, command);
    ResetTells(s, victim, now, command);
  }

  lemma GoneTells(s: State, player: string, emoji: string, command: Command)
    requires command.BurnEmoji?
    ensures Tells(command, s.told, Burning.Gone(s, player, emoji).told)
  {
    hide TakenFrom; hide Finding; hide Content;
  }

  lemma BurntChildTells(s: State, child: nat, command: Command)
    requires command.BurnEmoji? && child < |s.children|
    ensures Tells(command, s.told, Burning.BurntChild(s, child).told)
  {
    hide Family.Dropped; hide Put; hide At;
  }

  lemma AgainTells(s: State, command: Command)
    requires command.BurnEmoji?
    ensures Tells(command, s.told, Burning.StartedAgain(s).told)
  {
    hide Burning.KnownPlayers; hide Burning.Welcomed;
  }

  lemma BurnTells(s: State, player: string, emoji: string, now: int, rules: Rules, destroy: bool)
    ensures var t := Burning.Burn(s, player, emoji, now, rules, destroy);
            t.Done? ==> Tells(BurnEmoji(player, emoji, now, rules, destroy), s.told, t.value.told)
  {
    hide Tells; hide Burning.Gone; hide Finding; hide Burning.FirstChildLike; hide Burning.BurntChild; hide LostBolts;
    hide Burning.ThrownAtPlace; hide Burning.StartedAgain; hide IsPower; hide Burning.BurnAnswer;
    var command := BurnEmoji(player, emoji, now, rules, destroy);
    TellsNothing(command, s.told);
    var child := Burning.FirstChildLike(s, player, emoji, 0);
    if Finding(s, player, emoji) == Nowhere {
      if child.Some? {
        BurntChildTells(s, child.value, command);
      }
    } else {
      var t := Burning.Gone(s, player, emoji);
      var u := Burning.ThrownAtPlace(t, player, emoji, now, rules);
      GoneTells(s, player, emoji, command);
      AgainTells(t, command);
      TellsOn(command, s.told, t.told, Burning.StartedAgain(t).told);
      ThrownTells(t, player, emoji, now, rules, command);
      TellsOn(command, s.told, t.told, u.told);
    }
  }

  // ---------------------------------------------------------------- any of them

  lemma QuoteTells(s: State, player: string, quote: string, cost: int)
    ensures var t := Quoting.AddQuote(s, player, quote, cost);
            t.Done? ==> Tells(AddQuote(player, quote, cost), s.told, t.value.told)
  {
    hide Quoting.AddAnswer;
  }

  lemma DestroyTells(s: State, player: string, amount: int)
    ensures Tells(DestroyPalle(player, amount), s.told, Burning.BurnPalle(s, player, amount).told)
  {
    hide RideOf;
  }

  lemma InviteTells(s: State, newcomer: string, samePerson: bool)
    ensures Tells(SettleInvite(newcomer, samePerson), s.told, InviteDue(s, newcomer, samePerson).told)
  {
    hide Rewards;
  }

  lemma KeeperTells(s: State, now: int, rules: Rules)
    requires Sound(s)
    ensures Tells(KeepRound(now, rules), s.told, Family.Round(s, now, rules).told)
  {
    hide Sound; hide Family.Round; hide IsOfRide; hide Total;
    RoundTells(s, now, rules);
  }

  /** No transaction tells anything that is not its own to tell: what the ledgers leave open is closed here. */
  lemma NextTells(s: State, command: Command)
    requires Sound(s)
    ensures Tells(command, s.told, Next(s, command).told)
  {
    hide Sound; hide Tells; hide Claim; hide RaidStart; hide Buy; hide Move; hide Take; hide Store; hide Burning.Burn; hide Burning.BurnPalle;
    hide Seen; hide Linking.Link; hide InviteDue; hide Family.Round; hide Linking.RecordInvite; hide HandedOut;
    hide Quoting.AddQuote; hide Quoting.DeleteQuote; hide PaysOnly;
    TellsNothing(command, s.told);
    match command
    case BuyEmoji(player, emoji, position, cost, limit, now, inflation) => BuyTells(s, command);
    case BurnEmoji(player, emoji, now, rules, destroy) => BurnTells(s, player, emoji, now, rules, destroy);
    case DestroyPalle(player, amount) => DestroyTells(s, player, amount);
    case BeSeen(userId, username, account, candidate, limit, now, today) => SeenTells(s, command);
    case LinkAccounts(mine, userId, other) => LinkTells(s, mine, userId, other);
    case RecordInvite(newcomer, inviter, now) =>
    case SettleInvite(newcomer, samePerson) => InviteTells(s, newcomer, samePerson);
    case HandOutBalloons(players, limit) => HandedOutTells(s, players, limit);
    case AddQuote(player, quote, cost) => QuoteTells(s, player, quote, cost);
    case DeleteQuote(selector) =>
    case KeepRound(now, rules) => KeeperTells(s, now, rules);
    case _ => PaysNext(s, command);
  }

  lemma PaysNext(s: State, command: Command)
    requires command.ClaimPlace? || command.StartRaid? || command.MoveEmoji? || command.TakeGear? || command.StoreGear?
    ensures Tells(command, s.told, Next(s, command).told)
  {
    hide Next; hide Tells;
    PaysTell(s, command);
  }

  // ---------------------------------------------------------------- what the ledgers come to

  /** Only what is told changes the ledgers. */
  lemma MadeOnly(s: State, t: State, face: string)
    requires Accounted(s, t, 0, 0, face) && s.told <= t.told
    ensures Palle(t.scores, t.raids, 0, 0) == Palle(s.scores, s.raids, 0, 0) + PalleMade(Since(s.told, t.told))
    ensures Stock(t.house, t.gear, t.raids, 0, 0, face)
         == Stock(s.house, s.gear, s.raids, 0, 0, face) + EmojiMade(Since(s.told, t.told), face)
  {
    hide Palle; hide Stock; hide PalleMade; hide EmojiMade;
    MadeSince(s.told, Since(s.told, t.told), face);
  }

  lemma {:induction false} NoEmoji(told: seq<Event>, face: string)
    requires forall k | 0 <= k < |told| :: told[k].Paid? || told[k].Spent? || told[k].Rewarded?
    ensures EmojiMade(told, face) == 0
  {
    if told != [] {
      NoEmoji(told[..|told| - 1], face);
    }
  }

  lemma {:induction false} NoPalle(told: seq<Event>)
    requires forall k | 0 <= k < |told| :: told[k].Came? || (told[k].Wiped? && told[k].palle == 0)
    ensures PalleMade(told) == 0
  {
    if told != [] {
      NoPalle(told[..|told| - 1]);
    }
  }

  /** The commands that neither make nor lose an emoji. */
  predicate KeepsEmoji(command: Command) {
    || PaysOnly(command) || command.DestroyPalle? || command.RecordInvite? || command.SettleInvite? || command.AddQuote?
    || command.DeleteQuote?
  }

  /** Claiming, riding out with a present, turning back, moving, taking, swapping and storing leave every copy there is: in the
      houses, on the players and on the road together. */
  lemma StockStays(s: State, command: Command, face: string)
    requires Sound(s) && IsSensible(command) && KeepsEmoji(command)
    ensures var t := Next(s, command);
            Stock(t.house, t.gear, t.raids, 0, 0, face) == Stock(s.house, s.gear, s.raids, 0, 0, face)
  {
    hide Sound; hide Stock; hide EmojiMade; hide Made; hide Tells; hide KeepsEmoji; hide IsSensible; hide Palle; hide PalleMade;
    var t := Next(s, command);
    NextPlays(s, command, face);
    NextTells(s, command);
    TellsKept(command, s.told, t.told);
    MadeOnly(s, t, face);
    NoEmoji(Since(s.told, t.told), face);
  }

  lemma TellsKept(command: Command, told: seq<Event>, told': seq<Event>)
    requires Tells(command, told, told') && KeepsEmoji(command)
    ensures told <= told'
    ensures forall k | 0 <= k < |told'[|told|..]| ::
              told'[|told|..][k].Paid? || told'[|told|..][k].Spent? || told'[|told|..][k].Rewarded?
  {
    forall k | 0 <= k < |told'[|told|..]|
      ensures MayTell(command, told'[|told|..][k])
    {
      assert told'[|told|..][k] == told'[|told| + k];
    }
  }

  /** The commands that neither make nor lose a palla. */
  predicate KeepsPalle(command: Command) {
    command.BeSeen? || command.HandOutBalloons? || command.LinkAccounts? || command.RecordInvite? || command.DeleteQuote?
  }

  /** Being seen, being welcomed, linking, recording an invite and deleting a quote leave every palla there is. */
  lemma PalleStay(s: State, command: Command)
    requires Sound(s) && KeepsPalle(command)
    ensures var t := Next(s, command); Palle(t.scores, t.raids, 0, 0) == Palle(s.scores, s.raids, 0, 0)
  {
    hide Sound; hide Stock; hide EmojiMade; hide Made; hide Tells; hide KeepsPalle; hide Palle; hide PalleMade; hide IsSensible;
    var t := Next(s, command);
    assert IsSensible(command) by { SensibleKeeps(command); }
    NextPlays(s, command, "");
    NextTells(s, command);
    TellsNoPalle(command, s.told, t.told);
    MadeOnly(s, t, "");
    NoPalle(Since(s.told, t.told));
  }

  lemma SensibleKeeps(command: Command)
    requires KeepsPalle(command)
    ensures IsSensible(command)
  {
  }

  lemma TellsNoPalle(command: Command, told: seq<Event>, told': seq<Event>)
    requires Tells(command, told, told') && KeepsPalle(command)
    ensures told <= told'
    ensures forall k | 0 <= k < |told'[|told|..]| ::
              told'[|told|..][k].Came? || (told'[|told|..][k].Wiped? && told'[|told|..][k].palle == 0)
  {
    forall k | 0 <= k < |told'[|told|..]|
      ensures MayTell(command, told'[|told|..][k])
    {
      assert told'[|told|..][k] == told'[|told| + k];
    }
  }

  lemma NextPlays(s: State, command: Command, face: string)
    requires Sound(s) && IsSensible(command)
    ensures Accounted(s, Next(s, command), 0, 0, face)
  {
    hide Sound; hide Made; hide IsModest; hide IsPlain; hide Books; hide EmojiBooks;
    MadePlays(s, command, face);
  }

  /** Claiming, riding out, turning back, moving, taking and storing change the palle there are by the pay of the hold they end,
      and by nothing if they end none. */
  lemma PalleOfPay(s: State, command: Command)
    requires Sound(s) && IsSensible(command) && PaysOnly(command)
    ensures var t := Next(s, command);
            || (t.told == s.told && Palle(t.scores, t.raids, 0, 0) == Palle(s.scores, s.raids, 0, 0))
            || (s.current.Some? && Earned(s.current.value, command.now).Done?
                && Palle(t.scores, t.raids, 0, 0)
                     == Palle(s.scores, s.raids, 0, 0) + Earned(s.current.value, command.now).value + s.current.value.banked)
  {
    hide Sound; hide Stock; hide EmojiMade; hide Made; hide IsSensible; hide Palle; hide PalleMade; hide Earned;
    var t := Next(s, command);
    NextPlays(s, command, "");
    OnlyPays(s, command);
    MadeOnly(s, t, "");
    if t.told == s.told {
      assert Since(s.told, t.told) == [];
      assert PalleMade([]) == 0 by { NothingMade(); }
    } else {
      var paid := Paid(s.current.value.username, Earned(s.current.value, command.now).value + s.current.value.banked);
      assert Since(s.told, t.told) == [paid];
      assert PalleMade([paid]) == paid.palle by { OneMade(paid); }
    }
  }

  lemma NothingMade()
    ensures PalleMade([]) == 0
  {
  }

  lemma OneMade(event: Event)
    ensures PalleMade([event]) == PalleTold(event)
  {
    assert [event][..0] == [];
  }

  /** Buying takes exactly the price out of the game, whatever it brings in. */
  lemma PalleOfPurchase(s: State, player: string, emoji: string, position: int, cost: int, limit: nat, now: int, inflation: int)
    requires Buy(s, player, emoji, position, cost, limit, now, inflation).Done?
    ensures var t, home := Buy(s, player, emoji, position, cost, limit, now, inflation).value, GoneHome(s, player, now);
            && home.Done?
            && Palle(t.scores, t.raids, 0, 0) == Palle(home.value.scores, home.value.raids, 0, 0)
                 - (if BuyAnswer(home.value, player, emoji, position, cost, limit, inflation) == Bought
                    then Price(home.value, emoji, cost, inflation) else 0)
  {
    hide Palle; hide GoneHome; hide BuyAnswer; hide SpotFor; hide Price; hide Counter;
    var home := GoneHome(s, player, now).value;
    PricePaid(home, player, Price(home, emoji, cost, inflation));
  }

  lemma PricePaid(s: State, player: string, price: int)
    ensures Palle(s.scores[player := Counter(s.scores, player) - price], s.raids, 0, 0) == Palle(s.scores, s.raids, 0, 0) - price
  {
    hide Total; hide OnTheRoad;
    TotalUpdated(s.scores, player, Counter(s.scores, player) - price, ITSELF);
  }
}
