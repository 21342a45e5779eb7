/** src/storage.hpp, transaction: when a transaction is given up, with everything as it was: exactly when a number does not fit, or the draws
    run out before a point of the map is found. */
module Abandonments {
  import opened Basics
  import opened Powers
  import opened Ledger
  import opened Places
  import opened World
  import opened Rides
  import opened Belongings
  import opened Holds
  import opened Facts
  import Burning
  import Claims
  import Conquests
  import Departures
  import Fires
  import Household
  import Journeys
  import Naming
  import Position
  import Quoting

  // ---------------------------------------------------------------- a number that does not fit

  /** The seconds since the hold was last counted, times its percent, can be multiplied. */
  predicate Multiplies(hold: Holder, now: int) {
    var from := if hold.countedFrom > hold.since then hold.countedFrom else hold.since;
    hold.percent <= 100 || now <= from || (now - from) * hold.percent <= 0x7FFF_FFFF_FFFF_FFFF
  }

  /** The pay of the hold, and the score it is added to, can be counted. */
  predicate PayFits(s: State, now: int)
    requires s.current.Some?
  {
    var hold := s.current.value;
    && Multiplies(hold, now)
    && (Counter(s.scores, hold.username) <= 0
        || Counter(s.scores, hold.username) + Conquests.PayOf(hold, now) <= 0x7FFF_FFFF_FFFF_FFFF)
  }

  lemma Divides(seconds: int, percent: int, most: int)
    requires percent > 0
    ensures seconds > most / percent <==> seconds * percent > most
  {
    assert most == most / percent * percent + most % percent;
    if seconds > most / percent {
      assert seconds * percent >= (most / percent + 1) * percent;
    } else {
      assert seconds * percent <= most / percent * percent;
    }
  }

  lemma EarnedWhen(hold: Holder, now: int)
    ensures Earned(hold, now).Done? <==> Multiplies(hold, now)
  {
    if hold.percent > 100 {
      Divides(Max(now - CountedTo(hold), 0), hold.percent, MOST);
    }
  }

  lemma SettledWhen(s: State, t: State, now: int)
    requires s.current.Some? && t.scores == s.scores
    ensures SettledHold(t, s.current.value, now).Done? <==> PayFits(s, now)
  {
    hide Earned; hide Multiplies; hide Conquests.PayOf; hide Counter;
    EarnedWhen(s.current.value, now);
    Conquests.EarnedIs(s.current.value, now);
  }

  // ---------------------------------------------------------------- who is meant for home

  predicate GetsHome(s: State, player: string, now: int) {
    IsIn(s, player) ==> PayFits(s, now)
  }

  lemma HomeWhen(s: State, player: string, now: int)
    ensures GoneHome(s, player, now).Done? <==> GetsHome(s, player, now)
  {
    hide SettledHold; hide PayFits; hide IsOut;
    WhereItIs(s, player);
    if IsIn(s, player) {
      SettledWhen(s, s.(current := None), now);
    }
  }

  /** Buying, moving, taking and storing are given up only on the way home. */
  lemma ErrandsWhen(s: State, player: string, emoji: string, position: int, swap: string, from: int, to: int, cost: int, limit: nat, now: int,
                    inflation: int)
    ensures Household.Buy(s, player, emoji, position, cost, limit, now, inflation).Done? <==> GetsHome(s, player, now)
    ensures Household.Move(s, player, from, to, limit, now).Done? <==>
              !(1 <= from <= limit && 1 <= to <= limit && from != to) || GetsHome(s, player, now)
    ensures Household.Take(s, player, emoji, swap, now).Done? <==> GetsHome(s, player, now)
    ensures Household.Store(s, player, emoji, limit, now).Done? <==> GetsHome(s, player, now)
  {
    hide GoneHome; hide GetsHome;
    HomeWhen(s, player, now);
  }

  // ---------------------------------------------------------------- the place and the road

  /** A claim is given up only when it kicks somebody out whose pay does not fit. */
  lemma ClaimWhen(s: State, userId: int, player: string, now: int, rules: Claims.ClaimRules)
    ensures Claims.Claim(s, userId, player, now, rules).Done? <==>
              || !Conquests.MayClaim(s, player, now) || !Conquests.SomebodyIn(s)
              || Conquests.Stops(s, player, s.current.value.username, now, rules) || PayFits(s, now)
  {
    hide Claims.SentAway; hide Conquests.MayClaim; hide Conquests.Stops; hide Claims.Met; hide Claims.MovedIn; hide Claims.Ready;
    hide Claims.Claim; hide PayFits;
    Conquests.AwayIs(s, player, now);
    Conquests.ClaimMeets(s, userId, player, now, rules);
    if Conquests.SomebodyIn(s) {
      MetWhen(s, userId, player, now, rules);
    }
  }

  lemma MetWhen(s: State, userId: int, player: string, now: int, rules: Claims.ClaimRules)
    requires Conquests.SomebodyIn(s)
    ensures Claims.Met(Claims.Ready(s, userId, player), userId, player, now, rules).Done? <==>
              Conquests.Stops(s, player, s.current.value.username, now, rules) || PayFits(s, now)
  {
    hide Claims.IsStopped; hide Conquests.Stops; hide Claims.AfterBalloon; hide SettledHold; hide PayFits; hide Claims.Penalized;
    var t, holder := Claims.Ready(s, userId, player), s.current.value.username;
    Conquests.StopIs(t, player, holder, now, rules);
    Conquests.ReadyStops(s, userId, player, holder, now, rules);
    SettledWhen(s, Claims.AfterBalloon(t, player, holder, now, rules), now);
  }

  /** There are draws enough to find a point of the map for both. */
  ghost predicate FindPlaces(s: State, player: string, target: string) {
    && (player in s.ids || exists k: nat :: Departures.IsFreeDraw(s.ids, s.luck, k))
    && forall ids, luck | Departures.FindsPlace(s.ids, s.luck, ids, luck, player) ::
         target in ids || exists k: nat :: Departures.IsFreeDraw(ids, luck, k)
  }

  lemma OnePlaceFound(ids: map<string, int>, luck: seq<nat>, player: string, one: map<string, int>, left: seq<nat>, other: map<string, int>,
                      rest: seq<nat>)
    requires Departures.FindsPlace(ids, luck, one, left, player) && Departures.FindsPlace(ids, luck, other, rest, player)
    ensures one == other && left == rest
  {
    if player !in ids {
      var j: nat :| Departures.IsFreeDraw(ids, luck, j) && one == ids[player := luck[j] % Position.IDS] && left == luck[j + 1..];
      var k: nat :| Departures.IsFreeDraw(ids, luck, k) && other == ids[player := luck[k] % Position.IDS] && rest == luck[k + 1..];
      assert !(j < k) && !(k < j);
    }
  }

  lemma SetOffWhen(s: State, player: string, target: string, load: Journeys.Load, now: int, rules: Rules)
    ensures Journeys.SetOff(s, player, target, load, now, rules).Done? <==> FindPlaces(s, player, target)
  {
    hide Journeys.OnMap; hide Departures.IsFreeDraw; hide Departures.FindsPlace; hide Journeys.OnTheWay;
    var u := Journeys.Unhung(s, player, load.emoji);
    Departures.OnMapIs(u, player);
    var there := Journeys.OnMap(u, player);
    if there.Done? {
      Departures.OnMapIs(there.value, target);
      forall ids, luck | Departures.FindsPlace(s.ids, s.luck, ids, luck, player)
        ensures ids == there.value.ids && luck == there.value.luck
      {
        OnePlaceFound(s.ids, s.luck, player, ids, luck, there.value.ids, there.value.luck);
      }
    }
  }

  /** A ride is given up only when there is no point of the map for it, and the way home only when the pay does not fit. */
  lemma RideWhen(s: State, userId: int, player: string, known: Option<string>, homewards: bool, load: Journeys.Load, now: int, rules: Rules)
    ensures Journeys.RaidStart(s, userId, player, known, homewards, load, now, rules).Done? <==>
              if homewards then IsOut(s, player) || GetsHome(s, player, now)
              else Journeys.RaidAnswer(s, player, known, false, load, now, rules) == Journeys.Started ==>
                     known.Some? && FindPlaces(s, player, known.value)
  {
    hide Journeys.RaidAnswer; hide Journeys.SetOff; hide GoneHome; hide GetsHome; hide FindPlaces; hide IsOut; hide RideOf;
    WhereItIs(s, player);
    var u := s.(names := Naming.Remembered(s.names, player, userId));
    HomeWhen(u, player, now);
    HomeSame(s, u, player, now);
    if known.Some? {
      var t := Journeys.PickedUp(u, player, load.gift);
      SetOffWhen(t, player, known.value, load, now, rules);
      PlacesSame(s, t, player, known.value);
    }
  }

  lemma HomeSame(s: State, t: State, player: string, now: int)
    requires t.current == s.current && t.scores == s.scores
    ensures GetsHome(t, player, now) == GetsHome(s, player, now)
  {
  }

  lemma PlacesSame(s: State, t: State, player: string, target: string)
    requires t.ids == s.ids && t.luck == s.luck
    ensures FindPlaces(t, player, target) == FindPlaces(s, player, target)
  {
  }

  // ---------------------------------------------------------------- fires and quotes

  /** Fewer bolts than the hold counts put aside what it made with them, which has to fit. */
  ghost predicate BoltsFit(s: State, now: int) {
    s.current.Some? && ShownOf(s.current, s.gear, s.current.value.username, Bolt) < s.current.value.bolts ==> Multiplies(s.current.value, now)
  }

  lemma LostBoltsWhen(s: State, now: int)
    ensures LostBolts(s, now).Done? <==> BoltsFit(s, now)
  {
    hide Earned; hide Multiplies; hide CarriedCopies; hide ShownOf;
    if s.current.Some? {
      EarnedWhen(s.current.value, now);
      CarriedCounted(s, s.current.value.username, Bolt);
    }
  }

  /** A fire is given up only for the bolts that are lost in it. */
  lemma BurnWhen(s: State, player: string, emoji: string, now: int, rules: Rules, destroy: bool)
    ensures var u := Burning.Gone(s, player, emoji);
            Burning.Burn(s, player, emoji, now, rules, destroy).Done? <==>
              || IsOut(s, player) || !Fires.HasIt(s, player, emoji) || (!destroy && PowerOf(emoji) == Some(Nuke))
              || BoltsFit(if destroy then u else Burning.ThrownAtPlace(u, player, emoji, now, rules), now)
  {
    hide RideOf; hide IsOut; hide Finding; hide Burning.Gone; hide LostBolts; hide Burning.ThrownAtPlace; hide PowerOf; hide Burning.Burn;
    hide Departures.HasOnHim; hide Departures.HasAtHome; hide Burning.StartedAgain; hide BoltsFit;
    WhereItIs(s, player);
    Departures.FoundIs(s, player, emoji);
    Fires.BurnOf(s, player, emoji, now, rules, destroy);
    var u := Burning.Gone(s, player, emoji);
    LostBoltsWhen(u, now);
    LostBoltsWhen(Burning.ThrownAtPlace(u, player, emoji, now, rules), now);
  }

  /** A quote is given up only by whoever has added as many as can be counted. */
  lemma QuoteWhen(s: State, player: string, quote: string, cost: int)
    ensures Quoting.AddQuote(s, player, quote, cost).Done? <==>
              Counter(s.scores, player) < cost || quote in s.quotes.kept || Counter(s.quotes.added, player) != 0x7FFF_FFFF_FFFF_FFFF
  {
    hide Counter;
  }
}
