/** src/game.cpp, raid_due as a whole: ride by ride in the order of the list, each on what the one before it left. */
module Rounds {
  import opened World
  import opened Laws
  import opened Rides
  import opened Family
  import Settling
  import Homecomings
  import Keeping
  import Robberies
  import Deliveries

  /** At its turn a ride that is due at its target arrives there, to give or to rob; any other one does not. */
  ghost predicate Arrives(s: State, t: State, ride: nat, now: int, rules: Rules)
    requires ride < |s.raids|
  {
    var raid := s.raids[ride];
    if raid.arrived || now < raid.arrive then t == s
    else if raid.gift > 0 || raid.giftEmoji != "" then Deliveries.Brings(Deliveries.GotThere(s, ride), t, ride, now, rules)
    else Robberies.Visits(s, t, ride, now, rules)
  }

  lemma ArrivesSo(s: State, ride: nat, now: int, rules: Rules)
    requires ride < |s.raids| && RideSound(s.raids[ride])
    ensures Arrives(s, Arrived(s, ride, now, rules), ride, now, rules)
  {
    hide Arrived; hide Deliveries.Brings; hide Robberies.Visits;
    var raid := s.raids[ride];
    if raid.arrived || now < raid.arrive {
      Deliveries.NothingArrives(s, ride, now, rules);
    } else if raid.gift > 0 || raid.giftEmoji != "" {
      Deliveries.GiftArrives(s, ride, now, rules);
    } else {
      Robberies.RobberArrives(s, ride, now, rules);
    }
  }

  /** One turn of the walk: it arrives if it is to, and then comes home if it is to. */
  ghost predicate HasTurn(s: State, t: State, ride: nat, now: int, rules: Rules)
    requires ride < |s.raids|
  {
    exists u: State | Arrives(s, u, ride, now, rules) ::
      && ride < |u.raids|
      && if u.raids[ride].arrived && now >= u.raids[ride].back then Deliveries.ComesHome(u, t, ride) else t == u
  }

  lemma TurnIs(s: State, ride: nat, now: int, rules: Rules)
    requires ride < |s.raids| && RideSound(s.raids[ride])
    ensures HasTurn(s, CameHome(Arrived(s, ride, now, rules), ride, now), ride, now, rules)
  {
    hide Arrived; hide CameHome; hide Arrives; hide Deliveries.ComesHome;
    ArrivesSo(s, ride, now, rules);
    Deliveries.RiderComesHome(Arrived(s, ride, now, rules), ride, now);
  }

  /** raid_due: from what the family part leaves, every ride of the list has its turn, one after the other, and those that are over are then
      taken off. */
  lemma RoundGoes(s: State, now: int, rules: Rules, ride: nat)
    requires Sound(s) && ride < |s.raids|
    ensures var t := BeforeTheWalk(s, now, rules);
            && t.raids == s.raids
            && HasTurn(Homecomings.WalkedTo(t, ride, now, rules), Homecomings.WalkedTo(t, ride + 1, now, rules), ride, now, rules)
            && var walked := Homecomings.WalkedTo(t, |t.raids|, now, rules);
               Round(s, now, rules) == walked.(raids := UnderWay(walked.raids, now))
  {
    hide Sound; hide BeforeTheWalk; hide Walk; hide Homecomings.WalkedTo; hide Settling.Walked; hide HasTurn; hide UnderWay; hide Arrived;
    hide CameHome; hide RideSound;
    var t := BeforeTheWalk(s, now, rules);
    Keeping.BeforeTheWalkKeeps(s, now, rules, "");
    Homecomings.WalkedToKeeps(t, ride, now, rules);
    Homecomings.WalkedOne(t, ride + 1, now, rules);
    Homecomings.WalkedAll(t, now, rules);
    var w := Homecomings.WalkedTo(t, ride, now, rules);
    SoundThere(w, ride);
    TurnIs(w, ride, now, rules);
  }

  lemma SoundThere(s: State, ride: nat)
    requires Sound(s) && ride < |s.raids|
    ensures RideSound(s.raids[ride])
  {
  }
}
