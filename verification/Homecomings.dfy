/** src/game.cpp, raid_due: exactly which rides end without a homecoming. */
module Homecomings {
  import opened Powers
  import opened Ledger
  import opened Places
  import opened World
  import opened Laws
  import opened Rides
  import opened Settling
  import opened Family
  import opened Keeping
  import Telling

  // ---------------------------------------------------------------- the walk, ride by ride

  /** The walk once it has settled so many rides. */
  function WalkedTo(s: State, upTo: nat, now: int, rules: Rules): (t: State)
    requires upTo <= |s.raids|
    ensures |t.raids| == |s.raids|
  {
    if upTo == 0 then s else
    var t := WalkedTo(s, upTo - 1, now, rules);
    CameHome(Arrived(t, upTo - 1, now, rules), upTo - 1, now)
  }

  lemma WalkedOne(s: State, upTo: nat, now: int, rules: Rules)
    requires 0 < upTo <= |s.raids|
    ensures WalkedTo(s, upTo, now, rules) ==
              CameHome(Arrived(WalkedTo(s, upTo - 1, now, rules), upTo - 1, now, rules), upTo - 1, now)
  {
    hide Arrived; hide CameHome;
  }

  lemma {:induction false} WalkFrom(s: State, upTo: nat, now: int, rules: Rules)
    requires upTo <= |s.raids|
    ensures Walk(s, 0, now, rules) == Walk(WalkedTo(s, upTo, now, rules), upTo, now, rules)
  {
    hide Arrived; hide CameHome;
    if upTo > 0 {
      WalkFrom(s, upTo - 1, now, rules);
    }
  }

  lemma {:induction false} WalkedToKeeps(s: State, upTo: nat, now: int, rules: Rules)
    requires Sound(s) && upTo <= |s.raids|
    ensures var t := WalkedTo(s, upTo, now, rules);
            && Sound(t) && s.told <= t.told
            && InOrder(t.told[|s.told|..], 0, upTo)
            && forall j | 0 <= j < |s.raids| :: t.raids[j].raider == s.raids[j].raider
  {
    hide *;
    if upTo == 0 {
      assert WalkedTo(s, 0, now, rules) == s by { WalkedNone(s, now, rules); }
      assert s.told[|s.told|..] == [];
      assert InOrder([], 0, 0) by { NothingInOrder(); }
    } else {
      var t, u := WalkedTo(s, upTo - 1, now, rules), WalkedTo(s, upTo, now, rules);
      WalkedOne(s, upTo, now, rules);
      WalkedToKeeps(s, upTo - 1, now, rules);
      RideSettles(t, upTo - 1, now, rules);
      SameRaiders(t.raids, u.raids, upTo - 1, now);
      InOrderOn(s.told, t.told, u.told, upTo - 1);
    }
  }

  lemma WalkedNone(s: State, now: int, rules: Rules)
    ensures WalkedTo(s, 0, now, rules) == s
  {
  }

  lemma SameRaiders(raids: seq<Raid>, raids': seq<Raid>, ride: nat, now: int)
    requires SameRides(raids, raids', ride, now) && ride < |raids|
    ensures |raids'| == |raids| && forall j | 0 <= j < |raids| :: raids'[j].raider == raids[j].raider
  {
  }

  lemma NothingInOrder()
    ensures InOrder([], 0, 0)
  {
  }

  /** A ride is told to be home exactly when it is due at its own turn, and it is off the list after the walk exactly when it
      was due then or its raider was told to start over later in the walk. */
  lemma WalkedHome(s: State, j: nat, now: int, rules: Rules)
    requires Sound(s) && j < |s.raids|
    ensures var v, u := WalkedTo(s, j + 1, now, rules), Walk(s, 0, now, rules);
            && s.told <= v.told <= u.told && |u.raids| == |s.raids|
            && (ToldHome(u.told[|s.told|..], j) <==> Due(v.raids[j], now))
            && (Due(u.raids[j], now) <==> Due(v.raids[j], now) || WipedSince(u.told, |v.told|, s.raids[j].raider))
            && u.raids[j].raider == s.raids[j].raider
  {
    hide Sound; hide WalkedTo; hide Walk; hide ToldHome; hide WipedSince; hide InOrder; hide Due;
    var w, v, u := WalkedTo(s, j, now, rules), WalkedTo(s, j + 1, now, rules), Walk(s, 0, now, rules);
    HisTurn(s, j, now, rules);
    RestOfWalk(s, j, now, rules);
    OnceAtMost(s.told, w.told, v.told, u.told, j, |s.raids|);
    WipedWithin(v.told, u.told, s.raids[j].raider);
  }

  lemma HisTurn(s: State, j: nat, now: int, rules: Rules)
    requires Sound(s) && j < |s.raids|
    ensures var w, v := WalkedTo(s, j, now, rules), WalkedTo(s, j + 1, now, rules);
            && s.told <= w.told <= v.told && InOrder(w.told[|s.told|..], 0, j)
            && (ToldHome(v.told[|w.told|..], j) <==> Due(v.raids[j], now))
            && v.raids[j].raider == s.raids[j].raider
  {
    hide Sound; hide Arrived; hide CameHome; hide ToldHome; hide InOrder; hide WipesEmpty; hide Due;
    WalkedToKeeps(s, j, now, rules);
    RideSettles(WalkedTo(s, j, now, rules), j, now, rules);
  }

  lemma RestOfWalk(s: State, j: nat, now: int, rules: Rules)
    requires Sound(s) && j < |s.raids|
    ensures var v, u := WalkedTo(s, j + 1, now, rules), Walk(s, 0, now, rules);
            && v.told <= u.told && |u.raids| == |s.raids| && InOrder(u.told[|v.told|..], j + 1, |s.raids|)
            && u.raids[j].raider == v.raids[j].raider
            && (Due(u.raids[j], now) <==> Due(v.raids[j], now) || WipedSince(u.told[|v.told|..], 0, v.raids[j].raider))
  {
    hide Sound; hide WalkedTo; hide Walk; hide SettledFrom; hide WipedSince; hide InOrder; hide Due;
    var v, u := WalkedTo(s, j + 1, now, rules), Walk(s, 0, now, rules);
    WalkedToKeeps(s, j + 1, now, rules);
    WalkFrom(s, j + 1, now, rules);
    WalkSettles(v, j + 1, now, rules);
    PassedBy(v.raids, u.raids, u.told[|v.told|..], j + 1, j, now);
  }

  /** Only at its own turn can a ride be told to be home. */
  lemma OnceAtMost(told: seq<Event>, reached: seq<Event>, passed: seq<Event>, after: seq<Event>, j: nat, rides: nat)
    requires told <= reached <= passed <= after
    requires InOrder(reached[|told|..], 0, j) && InOrder(after[|passed|..], j + 1, rides)
    ensures ToldHome(after[|told|..], j) <==> ToldHome(passed[|reached|..], j)
  {
    hide ToldHome; hide InOrder;
    var before, his, rest := reached[|told|..], passed[|reached|..], after[|passed|..];
    assert after[|told|..] == before + his + rest;
    ToldEither(before + his, rest, j);
    ToldEither(before, his, j);
    NotToldOutside(before, 0, j, j);
    NotToldOutside(rest, j + 1, rides, j);
  }

  lemma InOrderOn(told: seq<Event>, reached: seq<Event>, passed: seq<Event>, j: nat)
    requires told <= reached <= passed && InOrder(reached[|told|..], 0, j) && InOrder(passed[|reached|..], j, j + 1)
    ensures InOrder(passed[|told|..], 0, j + 1)
  {
    assert passed[|told|..] == reached[|told|..] + passed[|reached|..];
  }

  lemma PassedBy(raids: seq<Raid>, raids': seq<Raid>, told: seq<Event>, from: nat, j: nat, now: int)
    requires SettledFrom(raids, raids', told, from, now) && j < from <= |raids|
    ensures |raids'| == |raids| && InOrder(told, from, |raids|) && raids'[j].raider == raids[j].raider
    ensures Due(raids'[j], now) <==> Due(raids[j], now) || WipedSince(told, 0, raids[j].raider)
  {
    hide InOrder; hide ToldHome; hide WipedSince;
  }

  lemma NotToldOutside(told: seq<Event>, from: nat, to: nat, ride: nat)
    requires InOrder(told, from, to) && !(from <= ride < to)
    ensures !ToldHome(told, ride)
  {
  }

  lemma WipedWithin(told: seq<Event>, told': seq<Event>, player: string)
    requires told <= told'
    ensures WipedSince(told', |told|, player) <==> WipedSince(told'[|told|..], 0, player)
  {
    var more := told'[|told|..];
    if WipedSince(told', |told|, player) {
      var k :| |told| <= k < |told'| && told'[k].Wiped? && told'[k].player == player;
      assert more[k - |told|] == told'[k];
    }
    if WipedSince(more, 0, player) {
      var k :| 0 <= k < |more| && more[k].Wiped? && more[k].player == player;
      assert told'[k + |told|] == more[k];
    }
  }

  // ---------------------------------------------------------------- the round

  /** The state once the walk of the round has settled that ride. */
  ghost function HadTurn(s: State, ride: nat, now: int, rules: Rules): State {
    var t := BeforeTheWalk(s, now, rules);
    if ride < |t.raids| then WalkedTo(t, ride + 1, now, rules) else t
  }

  /** Exactly which rides come home, which are taken off the list, and which are taken off without coming home: those that
      were not due when the walk reached them and whose raider was told to start over later in the same walk. */
  lemma HomeExactly(s: State, j: nat, now: int, rules: Rules)
    requires Sound(s) && j < |s.raids|
    ensures var v, u, raider := HadTurn(s, j, now, rules), Round(s, now, rules), s.raids[j].raider;
            && |v.raids| == |s.raids| && s.told <= v.told <= u.told
            && var home, gone := ToldHome(u.told[|s.told|..], j), !IsRiding(u.raids, raider);
               && (home <==> Due(v.raids[j], now))
               && (gone && !home <==> !Due(v.raids[j], now) && WipedSince(u.told, |v.told|, raider))
               && (home ==> gone)
  {
    hide Sound; hide BeforeTheWalk; hide Walk; hide WalkedTo; hide Walked; hide Due; hide ToldHome; hide WipedSince; hide UnderWay;
    hide Fed; hide IsRiding;
    var t := BeforeTheWalk(s, now, rules);
    BeforeTheWalkKeeps(s, now, rules, "");
    FedTells(s, now, rules);
    QuietGoods(s, Fed(s, now, rules), t);
    WalkedHome(t, j, now, rules);
    var u := Walk(t, 0, now, rules);
    var quiet, told := t.told[|s.told|..], u.told[|t.told|..];
    assert u.told[|s.told|..] == quiet + told;
    ToldEither(quiet, told, j);
    NotYetHome(quiet, j);
    WalkKeeps(t, 0, now, rules, "");
    SoundAfter(t, u, 0, |t.raids|, now, "");
    OffTheList(u, j, now);
  }

  lemma OffTheList(s: State, j: nat, now: int)
    requires Sound(s) && j < |s.raids|
    ensures !IsRiding(UnderWay(s.raids, now), s.raids[j].raider) <==> Due(s.raids[j], now)
  {
    hide Solvent; hide RidesSound; hide Mapped; hide Housed; hide Raised; hide Holding; hide Due;
    StillUnderWay(s.raids, j, now);
    var kept := UnderWay(s.raids, now);
    if IsRiding(kept, s.raids[j].raider) {
      var k :| 0 <= k < |kept| && kept[k].raider == s.raids[j].raider;
      assert kept[k] in s.raids;
      var i :| 0 <= i < |s.raids| && s.raids[i] == kept[k];
      assert i == j;
    }
  }

  lemma {:induction false} StillUnderWay(raids: seq<Raid>, j: nat, now: int)
    requires j < |raids|
    ensures !Due(raids[j], now) ==> IsRiding(UnderWay(raids, now), raids[j].raider)
  {
    hide Due;
    var last, front := raids[|raids| - 1], UnderWay(raids[..|raids| - 1], now);
    var kept := UnderWay(raids, now);
    if j < |raids| - 1 {
      StillUnderWay(raids[..|raids| - 1], j, now);
      if !Due(raids[j], now) {
        var k :| 0 <= k < |front| && front[k].raider == raids[j].raider;
        assert kept[k] == front[k];
      }
    } else if !Due(last, now) {
      assert kept[|front|] == last;
    }
  }

  // ---------------------------------------------------------------- nobody is told to start over

  /** What it throws on arriving now starts somebody over. */
  predicate BringsReset(raid: Raid, now: int) {
    !raid.arrived && now >= raid.arrive && IsPower(raid.giftEmoji, Nuke) && !raid.intact
  }

  /** Nobody is told to start over. */
  ghost predicate NobodyWiped(told: seq<Event>, told': seq<Event>) {
    told <= told' && forall k | |told| <= k < |told'| :: !told'[k].Wiped?
  }

  lemma BlownUpWipes(s: State, target: string, onHim: bool)
    ensures NobodyWiped(s.told, BlownUp(s, target, onHim).told)
  {
    hide OnHim; hide InHouse; hide Exposed;
  }

  lemma LandedWipes(s: State, thrown: string, thrower: string, victim: string, site: Whereabouts, walked: nat, now: int, rules: Rules)
    requires !IsPower(thrown, Nuke)
    ensures NobodyWiped(s.told, Landed(s, thrown, thrower, victim, site, walked, now, rules).told)
  {
    hide BlownUp; hide PowerOf; hide Smeared; hide Expecting; hide Rides.Frozen; hide Lucky; hide Tried;
    BlownUpWipes(Rolled(s), thrower, true);
    BlownUpWipes(Tried(s, rules.bombDudPercent), victim, site == AtPlace);
  }

  lemma StruckWipes(s: State, ride: nat, now: int, rules: Rules)
    requires ride < |s.raids| && !IsPower(s.raids[ride].giftEmoji, Nuke)
    ensures NobodyWiped(s.told, Struck(s, ride, now, rules).told)
  {
    hide Landed; hide IsPower; hide SentBack; hide HouseCopies; hide Share; hide SetRide;
    var raid := s.raids[ride];
    var t := Tried(s, Share(HouseCopies(s, raid.target, Mailbox), rules.mailboxPercent));
    LandedWipes(t, raid.giftEmoji, raid.raider, raid.raider, AtHome, ride, now, AsItIs(rules));
    LandedWipes(t, raid.giftEmoji, raid.raider, raid.target, AtHome, ride, now, rules);
  }

  lemma DeliveredWipes(s: State, ride: nat, now: int, rules: Rules)
    requires ride < |s.raids| && (s.raids[ride].intact || !IsPower(s.raids[ride].giftEmoji, Nuke))
    ensures NobodyWiped(s.told, Delivered(s, ride, now, rules).told)
  {
    hide Handed; hide Struck; hide Received; hide IsPower; hide IsThrown; hide WhereIs; hide SetRide;
    Telling.HandedTold(s, ride);
    Telling.HandedRaid(s, ride);
    var t := Handed(s, ride);
    if !s.raids[ride].intact {
      StruckWipes(t, ride, now, rules);
    }
  }

  lemma BittenWipes(s: State, raid: Raid, now: int, rules: Rules)
    ensures NobodyWiped(s.told, Bitten(Salted(s, raid, now, rules), raid, rules).told)
  {
    hide BlownUp; hide SaltScores; hide PaysSalt; hide Recent; hide Forgotten; hide HouseCopies; hide Share; hide Lucky; hide Tried;
    BlownUpWipes(Rolled(Salted(s, raid, now, rules)), raid.raider, true);
  }

  lemma ArrivedWipes(s: State, ride: nat, now: int, rules: Rules)
    requires ride < |s.raids| && !BringsReset(s.raids[ride], now)
    ensures NobodyWiped(s.told, Arrived(s, ride, now, rules).told)
  {
    hide Delivered; hide Salted; hide Bitten; hide Raided; hide IsPower;
    var raid := s.raids[ride];
    if !raid.arrived && now >= raid.arrive {
      var t := SetRide(s, ride, raid.(arrived := true));
      DeliveredWipes(t, ride, now, rules);
      BittenWipes(t, raid, now, rules);
      Telling.RaidedTold(t, ride, now, rules);
      Telling.RaidedTold(Bitten(Salted(t, raid, now, rules), raid, rules), ride, now, rules);
    }
  }

  /** The reset a ride brings reaches who lives there, or the raider himself when a mailbox sends it back. */
  predicate StartsOver(s: State, ride: nat, now: int, rules: Rules, player: string)
    requires ride < |s.raids|
  {
    && BringsReset(s.raids[ride], now)
    && player == if SentBack(s, s.raids[ride], rules) then s.raids[ride].raider else s.raids[ride].target
  }

  lemma NukeStrikes(s: State, ride: nat, now: int, rules: Rules, player: string)
    requires ride < |s.raids| && IsPower(s.raids[ride].giftEmoji, Nuke)
    ensures var raid := s.raids[ride];
            WipedSince(Struck(s, ride, now, rules).told, |s.told|, player) <==>
              player == if SentBack(s, raid, rules) then raid.raider else raid.target
  {
    hide *;
    var raid := s.raids[ride];
    var victim := if SentBack(s, raid, rules) then raid.raider else raid.target;
    var t := Tried(s, Share(HouseCopies(s, raid.target, Mailbox), rules.mailboxPercent));
    var wiped, gift := StruckTold(s, t, victim, if SentBack(s, raid, rules) then AsItIs(rules) else rules, ride, now, rules);
    WipedOnce(s.told, wiped, Came(BALLOON), Went(gift), player);
  }

  lemma StruckTold(s: State, t: State, victim: string, as': Rules, ride: nat, now: int, rules: Rules)
    returns (wiped: Event, gift: string)
    requires ride < |s.raids| && IsPower(s.raids[ride].giftEmoji, Nuke)
    requires t == Tried(s, Share(HouseCopies(s, s.raids[ride].target, Mailbox), rules.mailboxPercent))
    requires victim == if SentBack(s, s.raids[ride], rules) then s.raids[ride].raider else s.raids[ride].target
    requires as' == if SentBack(s, s.raids[ride], rules) then AsItIs(rules) else rules
    ensures wiped.Wiped? && wiped.player == victim
    ensures Struck(s, ride, now, rules).told == s.told + [wiped] + [Came(BALLOON)] + [Went(gift)]
  {
    hide *;
    var raid := s.raids[ride];
    StruckIs(s, t, victim, as', ride, now, rules);
    wiped := NukeTold(t, raid.giftEmoji, raid.raider, victim, ride, now, as');
    gift := Landed(t, raid.giftEmoji, raid.raider, victim, AtHome, ride, now, as').raids[ride].giftEmoji;
  }

  lemma StruckIs(s: State, t: State, victim: string, as': Rules, ride: nat, now: int, rules: Rules)
    requires ride < |s.raids|
    requires t == Tried(s, Share(HouseCopies(s, s.raids[ride].target, Mailbox), rules.mailboxPercent))
    requires victim == if SentBack(s, s.raids[ride], rules) then s.raids[ride].raider else s.raids[ride].target
    requires as' == if SentBack(s, s.raids[ride], rules) then AsItIs(rules) else rules
    ensures var u := Landed(t, s.raids[ride].giftEmoji, s.raids[ride].raider, victim, AtHome, ride, now, as');
            ride < |u.raids| && Struck(s, ride, now, rules).told == u.told + [Went(u.raids[ride].giftEmoji)]
  {
    hide Landed; hide SentBack; hide HouseCopies; hide Share; hide Tried; hide SetRide; hide AsItIs;
  }

  lemma NukeTold(s: State, thrown: string, thrower: string, victim: string, walked: nat, now: int, rules: Rules)
    returns (wiped: Event)
    requires IsPower(thrown, Nuke)
    ensures wiped.Wiped? && wiped.player == victim
    ensures Landed(s, thrown, thrower, victim, AtHome, walked, now, rules).told == s.told + [wiped] + [Came(BALLOON)]
  {
    hide StartedOver; hide PowerOf; hide Losing; hide LostPalle; hide LostGift; hide Bombed; hide Smeared; hide Expecting;
    hide Rides.Frozen;
    StartedOverFields(s, victim, walked, now);
    wiped := StartedOver(s, victim, walked, now).told[|s.told|];
  }

  lemma WipedOnce(told: seq<Event>, wiped: Event, came: Event, went: Event, player: string)
    requires wiped.Wiped? && !came.Wiped? && !went.Wiped?
    ensures WipedSince(told + [wiped] + [came] + [went], |told|, player) <==> player == wiped.player
  {
    var all := told + [wiped] + [came] + [went];
    assert all[|told|] == wiped && all[|told| + 1] == came && all[|told| + 2] == went;
  }

  lemma NukeDelivered(s: State, ride: nat, now: int, rules: Rules)
    requires ride < |s.raids| && IsPower(s.raids[ride].giftEmoji, Nuke) && !s.raids[ride].intact
    ensures Delivered(s, ride, now, rules) == Struck(Handed(s, ride), ride, now, rules)
  {
    hide Struck; hide Received; hide PowerOf; hide WhereIs; hide Handed;
    NothingPower();
    Telling.HandedRaid(s, ride);
  }

  lemma HandedLuck(s: State, ride: nat)
    requires ride < |s.raids|
    ensures Handed(s, ride).luck == s.luck
  {
    hide WithScore; hide SetRide;
  }

  lemma SentBackSame(s: State, t: State, raid: Raid, raid': Raid, rules: Rules)
    requires t.house == s.house && t.luck == s.luck && raid'.target == raid.target
    ensures SentBack(s, raid, rules) == SentBack(t, raid', rules)
  {
  }

  /** A nuke thrown on arriving starts over exactly whom it reaches. */
  lemma NukeLands(s: State, ride: nat, now: int, rules: Rules, player: string)
    requires ride < |s.raids| && BringsReset(s.raids[ride], now)
    ensures WipedSince(Arrived(s, ride, now, rules).told, |s.told|, player) <==> StartsOver(s, ride, now, rules, player)
  {
    hide Struck; hide Delivered; hide Handed; hide PowerOf; hide SentBack; hide WipedSince; hide Salted; hide Bitten; hide Raided;
    var raid := s.raids[ride];
    var t := SetRide(s, ride, raid.(arrived := true));
    var u := Handed(t, ride);
    Telling.HandedTold(t, ride);
    Telling.HandedRaid(t, ride);
    HandedLuck(t, ride);
    SentBackSame(s, u, raid, u.raids[ride], rules);
    NukeStrikes(u, ride, now, rules, player);
    NukeDelivered(t, ride, now, rules);
    NothingPower();
  }

  lemma RideStartsOver(s: State, ride: nat, now: int, rules: Rules, player: string)
    requires ride < |s.raids|
    ensures WipedSince(Arrived(s, ride, now, rules).told, |s.told|, player) <==> StartsOver(s, ride, now, rules, player)
  {
    hide Arrived; hide SentBack; hide BringsReset;
    if BringsReset(s.raids[ride], now) {
      NukeLands(s, ride, now, rules, player);
    } else {
      ArrivedWipes(s, ride, now, rules);
    }
  }

  /** At its turn, one of those rides brings him a reset. */
  ghost predicate IsStartedOver(s: State, from: nat, upTo: nat, now: int, rules: Rules, player: string)
    requires upTo <= |s.raids|
  {
    exists k: nat :: from <= k < upTo && StartsOver(WalkedTo(s, k, now, rules), k, now, rules, player)
  }

  /** In the walk, a player is told to start over from one ride on exactly when one of those rides brings him a reset. */
  lemma {:induction false} WalkStartsOver(s: State, from: nat, upTo: nat, now: int, rules: Rules, player: string)
    requires Sound(s) && from <= upTo <= |s.raids|
    ensures var v, w := WalkedTo(s, from, now, rules), WalkedTo(s, upTo, now, rules);
            && v.told <= w.told
            && (WipedSince(w.told, |v.told|, player) <==>
                  IsStartedOver(s, from, upTo, now, rules, player))
    decreases upTo
  {
    hide *;
    var v, w := WalkedTo(s, from, now, rules), WalkedTo(s, upTo, now, rules);
    if from == upTo {
      assert !WipedSince(w.told, |v.told|, player) by { NothingSince(v.told, player); }
      NobodyBetween(s, from, now, rules, player);
    } else {
      var u := WalkedTo(s, upTo - 1, now, rules);
      WalkStartsOver(s, from, upTo - 1, now, rules, player);
      WalkedToKeeps(s, upTo - 1, now, rules);
      assert w == CameHome(Arrived(u, upTo - 1, now, rules), upTo - 1, now) by { WalkedOne(s, upTo, now, rules); }
      TurnStartsOver(u, upTo - 1, now, rules, player);
      WipedLater(v.told, u.told, w.told, player);
      StartedOverUpTo(s, from, upTo, now, rules, player);
    }
  }

  lemma NobodyBetween(s: State, from: nat, now: int, rules: Rules, player: string)
    requires from <= |s.raids|
    ensures !IsStartedOver(s, from, from, now, rules, player)
  {
  }

  lemma StartedOverUpTo(s: State, from: nat, upTo: nat, now: int, rules: Rules, player: string)
    requires from < upTo <= |s.raids|
    ensures IsStartedOver(s, from, upTo, now, rules, player) <==>
              || IsStartedOver(s, from, upTo - 1, now, rules, player)
              || StartsOver(WalkedTo(s, upTo - 1, now, rules), upTo - 1, now, rules, player)
  {
    hide StartsOver; hide WalkedTo;
  }

  lemma TurnStartsOver(s: State, ride: nat, now: int, rules: Rules, player: string)
    requires Sound(s) && ride < |s.raids|
    ensures var t := CameHome(Arrived(s, ride, now, rules), ride, now);
            s.told <= t.told && (WipedSince(t.told, |s.told|, player) <==> StartsOver(s, ride, now, rules, player))
  {
    hide Sound; hide Arrived; hide CameHome; hide WipedSince; hide StartsOver; hide Due;
    var t := Arrived(s, ride, now, rules);
    RideStartsOver(s, ride, now, rules, player);
    CameHomeTold(t, ride, now);
    ArrivedTold(s, ride, now, rules);
    HomeWipesNobody(t.told, CameHome(t, ride, now).told, |s.told|, player);
  }

  lemma ArrivedTold(s: State, ride: nat, now: int, rules: Rules)
    requires Sound(s) && ride < |s.raids|
    ensures s.told <= Arrived(s, ride, now, rules).told
  {
    hide Sound; hide Step; hide Standing; hide Arrived;
    SoundStands(s);
    ArrivedSteps(s, ride, now, rules, "");
    StepTold(s, Arrived(s, ride, now, rules), ride, now, "");
  }

  lemma NothingSince(told: seq<Event>, player: string)
    ensures !WipedSince(told, |told|, player)
  {
  }

  lemma HomeWipesNobody(told: seq<Event>, told': seq<Event>, from: nat, player: string)
    requires from <= |told| && (told' == told + [] || (|told'| == |told| + 1 && told'[..|told|] == told && !told'[|told|].Wiped?))
    ensures WipedSince(told', from, player) <==> WipedSince(told, from, player)
  {
    assert told' == told || told' == told + [told'[|told|]];
    if WipedSince(told, from, player) {
      var k :| from <= k < |told| && told[k].Wiped? && told[k].player == player;
      assert told'[k] == told[k];
    }
  }

  lemma WipedLater(told: seq<Event>, told': seq<Event>, told'': seq<Event>, player: string)
    requires told <= told' <= told''
    ensures WipedSince(told'', |told|, player) <==> WipedSince(told', |told|, player) || WipedSince(told'', |told'|, player)
  {
    if WipedSince(told', |told|, player) {
      var k :| |told| <= k < |told'| && told'[k].Wiped? && told'[k].player == player;
      assert told''[k] == told'[k];
    }
    if WipedSince(told'', |told|, player) {
      var k :| |told| <= k < |told''| && told''[k].Wiped? && told''[k].player == player;
      assert k < |told'| ==> told'[k] == told''[k];
    }
  }

  lemma RideWipes(s: State, ride: nat, now: int, rules: Rules)
    requires Sound(s) && ride < |s.raids| && !BringsReset(s.raids[ride], now)
    ensures var t := CameHome(Arrived(s, ride, now, rules), ride, now);
            && Sound(t) && |t.raids| == |s.raids| && NobodyWiped(s.told, t.told)
            && forall j | 0 <= j < |s.raids| && j != ride :: t.raids[j] == s.raids[j]
  {
    hide Sound; hide Arrived; hide CameHome; hide BringsReset; hide InOrder; hide ToldHome; hide Due;
    var t := Arrived(s, ride, now, rules);
    ArrivedWipes(s, ride, now, rules);
    CameHomeTold(t, ride, now);
    RideSettles(s, ride, now, rules);
  }

  lemma {:induction false} WalkWipes(s: State, ride: nat, now: int, rules: Rules)
    requires Sound(s) && ride <= |s.raids| && forall k | ride <= k < |s.raids| :: !BringsReset(s.raids[k], now)
    ensures NobodyWiped(s.told, Walk(s, ride, now, rules).told)
    decreases |s.raids| - ride
  {
    hide Sound; hide Arrived; hide CameHome; hide BringsReset;
    if ride < |s.raids| {
      var t := CameHome(Arrived(s, ride, now, rules), ride, now);
      RideWipes(s, ride, now, rules);
      WalkWipes(t, ride + 1, now, rules);
      NobodyOn(s.told, t.told, Walk(s, ride, now, rules).told);
    }
  }

  lemma NobodyOn(told: seq<Event>, told': seq<Event>, told'': seq<Event>)
    requires NobodyWiped(told, told') && NobodyWiped(told', told'')
    ensures NobodyWiped(told, told'')
  {
    forall k | |told| <= k < |told''|
      ensures !told''[k].Wiped?
    {
      assert k < |told'| ==> told''[k] == told'[k];
    }
  }

  /** Exactly which rides are taken off the list without coming home: those that are not due when the walk reaches them and whose
      raider is started over, in the same walk, by what a ride after them throws at his house. */
  lemma LostExactly(s: State, j: nat, now: int, rules: Rules)
    requires Sound(s) && j < |s.raids|
    ensures var t, u, raider := BeforeTheWalk(s, now, rules), Round(s, now, rules), s.raids[j].raider;
            && t.raids == s.raids && s.told <= u.told
            && (!IsRiding(u.raids, raider) && !ToldHome(u.told[|s.told|..], j) <==>
                  && !Due(WalkedTo(t, j + 1, now, rules).raids[j], now)
                  && IsStartedOver(t, j + 1, |t.raids|, now, rules, raider))
  {
    hide Sound; hide BeforeTheWalk; hide Walk; hide WalkedTo; hide Walked; hide Due; hide ToldHome; hide WipedSince; hide UnderWay;
    hide Fed; hide IsRiding; hide IsStartedOver;
    var t := BeforeTheWalk(s, now, rules);
    BeforeTheWalkKeeps(s, now, rules, "");
    HomeExactly(s, j, now, rules);
    WalkStartsOver(t, j + 1, |t.raids|, now, rules, s.raids[j].raider);
    assert WalkedTo(t, |t.raids|, now, rules) == Walk(t, 0, now, rules) by { WalkedAll(t, now, rules); }
  }

  lemma WalkedAll(s: State, now: int, rules: Rules)
    ensures WalkedTo(s, |s.raids|, now, rules) == Walk(s, 0, now, rules)
  {
    hide WalkedTo; hide Arrived; hide CameHome;
    WalkFrom(s, |s.raids|, now, rules);
  }

  /** As long as no ride that arrives now brings a nuke to throw, every ride taken off the list comes home, and once. */
  lemma EveryRideHome(s: State, now: int, rules: Rules)
    requires Sound(s) && forall k | 0 <= k < |s.raids| :: !BringsReset(s.raids[k], now)
    ensures var u := Round(s, now, rules);
            && s.told <= u.told && InOrder(u.told[|s.told|..], 0, |s.raids|)
            && forall j | 0 <= j < |s.raids| :: !IsRiding(u.raids, s.raids[j].raider) <==> ToldHome(u.told[|s.told|..], j)
  {
    hide Sound; hide Round; hide Due; hide ToldHome; hide WipedSince; hide IsRiding; hide InOrder; hide BringsReset; hide HadTurn;
    hide UnderWay;
    var u := Round(s, now, rules);
    RoundSettles(s, now, rules);
    assert InOrder(u.told[|s.told|..], 0, |s.raids|) by {
      var walked :| Settles(s.raids, walked, u.raids, u.told[|s.told|..], now);
    }
    forall j | 0 <= j < |s.raids|
      ensures !IsRiding(u.raids, s.raids[j].raider) <==> ToldHome(u.told[|s.told|..], j)
    {
      HomeExactly(s, j, now, rules);
      NotWipedLater(s, j, now, rules);
    }
  }

  lemma NotWipedLater(s: State, j: nat, now: int, rules: Rules)
    requires Sound(s) && j < |s.raids| && forall k | 0 <= k < |s.raids| :: !BringsReset(s.raids[k], now)
    ensures !WipedSince(Round(s, now, rules).told, |HadTurn(s, j, now, rules).told|, s.raids[j].raider)
  {
    hide Sound; hide BeforeTheWalk; hide Walk; hide WalkedTo; hide Walked; hide Due; hide ToldHome; hide UnderWay; hide BringsReset;
    hide Fed; hide InOrder;
    var t := BeforeTheWalk(s, now, rules);
    BeforeTheWalkKeeps(s, now, rules, "");
    WalkWipes(t, 0, now, rules);
    WalkedToKeeps(t, j + 1, now, rules);
  }

  // ---------------------------------------------------------------- a ride that does not come home

  lemma NobodyHome(s: State, now: int, rules: Rules)
    requires s.children == [] && s.pregnancies == []
    ensures BeforeTheWalk(s, now, rules) == LaidEggs(Washed(s, now), now, rules)
  {
    hide LaidEggs; hide Washed; hide ChildAged; hide Stays; hide Birth; hide Courts; hide Courted;
  }

  /** He is on his way home from a raid, due there at two hundred; somebody is about to throw a nuke at his house. */
  function OnHisWay(luck: seq<nat>): State {
    Unplayed(luck).(ids := map["a" := 0, "b" := 1],
                    raids := [Raid("a", "b", 50, 200, true, 0, 0, "", false), Raid("b", "a", 100, 200, false, 0, 0, NUKE, false)])
  }

  lemma OnHisWaySound(luck: seq<nat>)
    ensures Sound(OnHisWay(luck))
  {
  }

  lemma FirstPasses(s: State, now: int, rules: Rules)
    requires |s.raids| > 0 && s.raids[0].arrived && now < s.raids[0].back
    ensures WalkedTo(s, 1, now, rules) == s
  {
    hide Delivered; hide Raided; hide Salted; hide Bitten;
    assert WalkedTo(s, 0, now, rules) == s;
  }

  lemma NoMailbox(s: State, raid: Raid, rules: Rules)
    requires raid.target !in s.house
    ensures !SentBack(s, raid, rules)
  {
    assert Share(0, rules.mailboxPercent) == 0;
  }

  /** At a hundred the nuke arrives, and the raider's own ride, already passed, is off the list with no homecoming told. */
  lemma NeverHome(luck: seq<nat>, rules: Rules)
    ensures var s := OnHisWay(luck);
            var u := Round(s, 100, rules);
            && Sound(s) && s.told <= u.told
            && !IsRiding(u.raids, s.raids[0].raider) && !ToldHome(u.told[|s.told|..], 0)
  {
    hide Sound; hide Round; hide ToldHome; hide IsRiding; hide WipedSince; hide HadTurn;
    var s := OnHisWay(luck);
    OnHisWaySound(luck);
    HomeExactly(s, 0, 100, rules);
    StartedOverLater(luck, rules);
  }

  lemma StartedOverLater(luck: seq<nat>, rules: Rules)
    ensures var s := OnHisWay(luck);
            var v := HadTurn(s, 0, 100, rules);
            && |v.raids| == |s.raids| && !Due(v.raids[0], 100)
            && WipedSince(Round(s, 100, rules).told, |v.told|, "a")
  {
    hide Sound; hide Arrived; hide CameHome; hide PowerOf; hide Eggs; hide Added; hide Total; hide UnderWay; hide InOrder;
    hide HouseCopies; hide WalkedTo; hide Walked; hide WipedSince; hide LaidEggs; hide Washed; hide BeforeTheWalk; hide WipesEmpty;
    var s := OnHisWay(luck);
    OnHisWaySound(luck);
    var t := BeforeTheWalk(s, 100, rules);
    NobodyHome(s, 100, rules);
    BeforeTheWalkKeeps(s, 100, rules, "");
    FirstPasses(t, 100, rules);
    NukePower();
    NoMailbox(t, t.raids[1], rules);
    NukeLands(t, 1, 100, rules, "a");
    var w := Arrived(t, 1, 100, rules);
    CameHomeTold(w, 1, 100);
    RideSettles(t, 1, 100, rules);
    WalkSettles(CameHome(w, 1, 100), 2, 100, rules);
    WalkFrom(t, 1, 100, rules);
    WipedStill(w.told, Round(s, 100, rules).told, |t.told|, "a");
  }

  lemma WipedStill(told: seq<Event>, told': seq<Event>, from: nat, player: string)
    requires told <= told' && WipedSince(told, from, player)
    ensures WipedSince(told', from, player)
  {
    var k :| from <= k < |told| && told[k].Wiped? && told[k].player == player;
    assert told'[k] == told[k];
  }
}
