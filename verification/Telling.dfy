/** What a transaction may tell, so what the ledgers come to: which palle and which emoji it can bring in or take out. */
module Telling {
  import opened Powers
  import opened Ledger
  import opened Places
  import opened World
  import opened Laws
  import opened Rides
  import opened Settling
  import opened Family
  import opened Keeping

  // ---------------------------------------------------------------- sums of what is told

  lemma {:induction false} MadeSince(told: seq<Event>, more: seq<Event>, face: string)
    ensures PalleMade(told + more) == PalleMade(told) + PalleMade(more)
    ensures EmojiMade(told + more, face) == EmojiMade(told, face) + EmojiMade(more, face)
  {
    hide PalleTold; hide EmojiTold;
    if more == [] {
      assert told + more == told;
    } else {
      assert (told + more)[..|told + more| - 1] == told + more[..|more| - 1];
      MadeSince(told, more[..|more| - 1], face);
    }
  }

  /** What has been told since. */
  function Since(told: seq<Event>, told': seq<Event>): (more: seq<Event>)
    requires told <= told'
    ensures told' == told + more
  {
    told'[|told|..]
  }

  /** The palle that resets wipe. */
  function WipedPalle(told: seq<Event>): int {
    if told == [] then 0 else
    var last := told[|told| - 1];
    WipedPalle(told[..|told| - 1]) + (if last.Wiped? then last.palle else 0)
  }

  predicate IsOfRide(event: Event) {
    IsGoods(event) || event.Returned?
  }

  lemma {:induction false} WipedOnly(told: seq<Event>)
    requires forall k | 0 <= k < |told| :: IsOfRide(told[k])
    ensures PalleMade(told) == -WipedPalle(told)
  {
    if told != [] {
      WipedOnly(told[..|told| - 1]);
    }
  }

  lemma WipedAfter(first: Event, more: seq<Event>)
    requires !first.Wiped?
    ensures WipedPalle([first] + more) == WipedPalle(more)
  {
    WipedJoins([first], more);
    assert [first][..0] == [];
  }

  lemma {:induction false} WipedJoins(front: seq<Event>, back: seq<Event>)
    ensures WipedPalle(front + back) == WipedPalle(front) + WipedPalle(back)
  {
    if back == [] {
      assert front + back == front;
    } else {
      assert (front + back)[..|front + back| - 1] == front + back[..|back| - 1];
      WipedJoins(front, back[..|back| - 1]);
    }
  }

  // ---------------------------------------------------------------- the round

  lemma {:induction false} WalkTells(s: State, ride: nat, now: int, rules: Rules)
    requires Sound(s) && ride <= |s.raids|
    ensures var t := Walk(s, ride, now, rules);
            s.told <= t.told && forall k | |s.told| <= k < |t.told| :: IsOfRide(t.told[k])
    decreases |s.raids| - ride
  {
    hide Sound; hide Arrived; hide CameHome; hide Step; hide Standing; hide IsGoods; hide Walked; hide GoodsTold;
    if ride < |s.raids| {
      var t := Arrived(s, ride, now, rules);
      var u := CameHome(t, ride, now);
      RideTells(s, ride, now, rules);
      WalkTells(u, ride + 1, now, rules);
      var v := Walk(s, ride, now, rules);
      forall k | |s.told| <= k < |v.told|
        ensures IsOfRide(v.told[k])
      {
        assert k < |u.told| ==> v.told[k] == u.told[k];
      }
    }
  }

  lemma RideTells(s: State, ride: nat, now: int, rules: Rules)
    requires Sound(s) && ride < |s.raids|
    ensures var t := CameHome(Arrived(s, ride, now, rules), ride, now);
            && Sound(t) && |t.raids| == |s.raids|
            && s.told <= t.told && forall k | |s.told| <= k < |t.told| :: IsOfRide(t.told[k])
  {
    hide Sound; hide Arrived; hide CameHome; hide Step; hide Standing;
    var t := Arrived(s, ride, now, rules);
    SoundStands(s);
    ArrivedSteps(s, ride, now, rules, "");
    StepTold(s, t, ride, now, "");
    CameHomeTold(t, ride, now);
    RideSettles(s, ride, now, rules);
    assert |CameHome(t, ride, now).raids| == |s.raids|;
  }

  lemma RoundTells(s: State, now: int, rules: Rules)
    requires Sound(s)
    ensures var t := Round(s, now, rules);
            && |t.told| > |s.told| && s.told <= t.told
            && t.told[|s.told|] == Laid(Total(EggsDue(s, now, rules), ITSELF))
            && forall k | |s.told| < k < |t.told| :: IsOfRide(t.told[k])
  {
    hide Sound; hide BeforeTheWalk; hide Walk; hide Fed; hide Walked; hide UnderWay; hide IsGoods; hide Total; hide EggsDue;
    var a, t := Fed(s, now, rules), BeforeTheWalk(s, now, rules);
    BeforeTheWalkKeeps(s, now, rules, "");
    FedTells(s, now, rules);
    var u := Walk(t, 0, now, rules);
    WalkTells(t, 0, now, rules);
    forall k | |s.told| < k < |u.told|
      ensures IsOfRide(u.told[k])
    {
      assert k < |t.told| ==> u.told[k] == t.told[k];
    }
  }

  /** raid_due changes the palle there are by exactly the eggs laid less what resets wiped: robbery, salt, delivery and
      homecoming make none and lose none. */
  lemma RoundPalle(s: State, now: int, rules: Rules)
    requires Sound(s)
    ensures var t := Round(s, now, rules);
            && s.told <= t.told
            && Palle(t.scores, t.raids, 0, now)
                 == Palle(s.scores, s.raids, 0, now) + Total(EggsDue(s, now, rules), ITSELF) - WipedPalle(Since(s.told, t.told))
  {
    hide Sound; hide Round; hide Total; hide EggsDue; hide IsOfRide; hide OnTheRoad; hide Stock;
    var t := Round(s, now, rules);
    RoundKeeps(s, now, rules, "");
    RoundTells(s, now, rules);
    var more := Since(s.told, t.told);
    var first, rest := more[0], more[1..];
    assert more == [first] + rest;
    assert forall k | 0 <= k < |rest| :: rest[k] == t.told[|s.told| + 1 + k];
    MadeSince(s.told, more, "");
    MadeSince([first], rest, "");
    WipedOnly(rest);
    WipedAfter(first, rest);
    assert PalleMade([first]) == PalleTold(first) by { assert [first][..0] == []; }
  }

  // ---------------------------------------------------------------- one ride of the walk

  /** What it brings is no blow, and no dino waits for it. */
  predicate IsQuiet(s: State, raid: Raid) {
    if raid.gift > 0 || raid.giftEmoji != "" then raid.giftEmoji == "" || !IsThrown(raid.giftEmoji) || raid.intact
    else HouseCopies(s, raid.target, Dino) == 0
  }

  lemma RobbedTold(s: State, ride: nat, rules: Rules)
    requires ride < |s.raids|
    ensures Robbed(s, ride, rules).told == s.told
  {
    hide Boarded; hide Carrying; hide Loot;
  }

  lemma PastBalloonTold(s: State, ride: nat, rules: Rules)
    requires ride < |s.raids|
    ensures PastBalloon(s, ride, rules).told == s.told
  {
    hide Share; hide HouseCopies; hide Robbed; hide Lucky; hide SetRide; hide Tried;
    RobbedTold(Tried(s, Share(HouseCopies(s, s.raids[ride].target, Dog), rules.dogPercent)), ride, rules);
  }

  lemma RaidedTold(s: State, ride: nat, now: int, rules: Rules)
    requires ride < |s.raids|
    ensures Raided(s, ride, now, rules).told == s.told
  {
    hide Sneaks; hide SneakChance; hide Attempt; hide Attempted; hide Robbed; hide SetRide; hide Tried; hide PastBalloon;
    var raid := s.raids[ride];
    var t := Tried(s, SneakChance(s, raid, rules, now));
    RobbedTold(t, ride, rules);
    PastBalloonTold(Attempted(t, raid.target, AtHome, now), ride, rules);
  }

  lemma HandedTold(s: State, ride: nat)
    requires ride < |s.raids|
    ensures var t := Handed(s, ride); t.told == s.told && t.house == s.house && t.children == s.children
  {
    hide WithScore; hide SetRide;
  }

  lemma HandedRaid(s: State, ride: nat)
    requires ride < |s.raids|
    ensures var t := Handed(s, ride); t.raids[ride] == s.raids[ride].(gift := t.raids[ride].gift)
  {
  }

  lemma DeliveredTold(s: State, ride: nat, now: int, rules: Rules)
    requires ride < |s.raids| && (s.raids[ride].giftEmoji == "" || !IsThrown(s.raids[ride].giftEmoji) || s.raids[ride].intact)
    ensures Delivered(s, ride, now, rules).told == s.told
  {
    hide Handed; hide Struck; hide Received; hide PowerOf; hide WhereIs;
    HandedTold(s, ride);
    HandedRaid(s, ride);
  }

  lemma UnbittenTold(s: State, raid: Raid, now: int, rules: Rules)
    requires HouseCopies(s, raid.target, Dino) == 0
    ensures Bitten(Salted(s, raid, now, rules), raid, rules).told == s.told
  {
    hide BlownUp; hide SaltScores; hide PaysSalt; hide Recent; hide Forgotten; hide CountPower;
    assert Salted(s, raid, now, rules).house == s.house;
    assert Share(0, rules.dinoPercent) <= 0;
  }

  lemma GiftQuiet(s: State, ride: nat, now: int, rules: Rules)
    requires ride < |s.raids| && IsQuiet(s, s.raids[ride]) && (s.raids[ride].gift > 0 || s.raids[ride].giftEmoji != "")
    ensures Arrived(s, ride, now, rules).told == s.told
  {
    hide Delivered; hide Salted; hide Bitten; hide Raided; hide HouseCopies; hide IsThrown;
    DeliveredTold(SetRide(s, ride, s.raids[ride].(arrived := true)), ride, now, rules);
  }

  lemma RobberyQuiet(s: State, ride: nat, now: int, rules: Rules)
    requires ride < |s.raids| && IsQuiet(s, s.raids[ride]) && s.raids[ride].gift <= 0 && s.raids[ride].giftEmoji == ""
    ensures Arrived(s, ride, now, rules).told == s.told
  {
    hide Delivered; hide Salted; hide Bitten; hide Raided; hide HouseCopies; hide SetRide;
    var raid := s.raids[ride];
    var t := SetRide(s, ride, raid.(arrived := true));
    SameHouse(s, t, raid.target);
    UnbittenTold(t, raid, now, rules);
    RaidedTold(t, ride, now, rules);
    RaidedTold(Bitten(Salted(t, raid, now, rules), raid, rules), ride, now, rules);
  }

  lemma ArrivedQuietly(s: State, ride: nat, now: int, rules: Rules)
    requires ride < |s.raids| && IsQuiet(s, s.raids[ride])
    ensures Arrived(s, ride, now, rules).told == s.told
  {
    hide Arrived; hide IsQuiet;
    if s.raids[ride].gift > 0 || s.raids[ride].giftEmoji != "" {
      GiftQuiet(s, ride, now, rules);
    } else {
      RobberyQuiet(s, ride, now, rules);
    }
  }

  lemma SameHouse(s: State, t: State, player: string)
    requires t.house == s.house
    ensures HouseCopies(t, player, Dino) == HouseCopies(s, player, Dino)
  {
  }

  /** Robbery, boarding, delivery, a refused delivery, turning back and homecoming only move palle and emoji: what the players and
      the rides hold together stays the same, palla for palla and copy for copy. */
  lemma QuietRide(s: State, ride: nat, now: int, rules: Rules, face: string)
    requires Sound(s) && ride < |s.raids| && IsQuiet(s, s.raids[ride])
    ensures var t := CameHome(Arrived(s, ride, now, rules), ride, now);
            && Palle(t.scores, t.raids, ride + 1, now) == Palle(s.scores, s.raids, ride, now)
            && Stock(t.house, t.gear, t.raids, ride + 1, now, face) == Stock(s.house, s.gear, s.raids, ride, now, face)
  {
    hide Sound; hide Arrived; hide CameHome; hide Step; hide Standing; hide Total; hide OnTheRoad; hide IsQuiet; hide PalleMade;
    hide EmojiMade; hide Palle; hide Stock; hide Walked;
    var t := Arrived(s, ride, now, rules);
    var u := CameHome(t, ride, now);
    SoundStands(s);
    ArrivedSteps(s, ride, now, rules, face);
    StepWalks(s, t, ride, now, face);
    SoundAfter(s, t, ride, ride, now, face);
    CameHomeWalks(t, ride, now, face);
    ArrivedQuietly(s, ride, now, rules);
    CameHomeTold(t, ride, now);
    WalkedOn(s, t, u, ride, ride, ride + 1, now, face);
    WalkedBooks(s, u, ride, ride + 1, now, face);
    HomeMade(s.told, Returned(ride, t.raids[ride].loot + t.raids[ride].gift, t.raids[ride].giftEmoji), face);
    assert s.told + [] == s.told;
  }

  lemma HomeMade(told: seq<Event>, event: Event, face: string)
    requires event.Returned?
    ensures PalleMade(told + [event]) == PalleMade(told) && EmojiMade(told + [event], face) == EmojiMade(told, face)
  {
    ToldOne(told, event, face);
  }
}
