/** src/game.cpp, furniture_burn, palle_burn and lose_bolts: what a fire takes, and what it does to the place, told from what is there. */
module Fires {
  import opened Basics
  import opened Powers
  import opened Ledger
  import opened Places
  import opened World
  import opened Rides
  import opened Holds
  import opened Belongings
  import opened Burning
  import opened Facts
  import Conquests
  import Deliveries
  import Departures

  // ---------------------------------------------------------------- the hold after a fire

  /** When fewer bolts are shown than the hold counts, what it made so far is put aside, and from now on it is worth the ones left. */
  ghost predicate IsMended(s: State, t: State, now: int) {
    if s.current.None? then t == s else
    var hold, shown := s.current.value, ShownOf(s.current, s.gear, s.current.value.username, Bolt);
    if hold.bolts <= 0 || shown >= hold.bolts then t == s else
    t == s.(current := Some(hold.(
           banked := Conquests.PayOf(hold, now), countedFrom := if now > hold.since then now else hold.since, bolts := shown,
           percent := if shown > 0 then 100 + shown * ((hold.percent - 100) / hold.bolts) else 0)))
  }

  lemma LosingIs(hold: Holder, shown: nat, now: int)
    ensures var after := LosingBolts(hold, shown, now);
            after.Done? ==>
              if hold.bolts <= 0 || shown >= hold.bolts then after.value == hold
              else after.value == hold.(banked := Conquests.PayOf(hold, now), countedFrom := if now > hold.since then now else hold.since,
                         bolts := shown, percent := if shown > 0 then 100 + shown * ((hold.percent - 100) / hold.bolts) else 0)
  {
    hide Earned; hide Conquests.PayOf;
    Conquests.EarnedIs(hold, now);
  }

  lemma LostBoltsMend(s: State, now: int)
    ensures var t := LostBolts(s, now); t.Done? ==> IsMended(s, t.value, now)
  {
    hide CarriedCopies; hide ShownOf; hide LosingBolts; hide Conquests.PayOf;
    if s.current.Some? {
      CarriedCounted(s, s.current.value.username, Bolt);
      LosingIs(s.current.value, CarriedCopies(s, s.current.value.username, Bolt), now);
    }
  }

  // ---------------------------------------------------------------- the whole game over

  /** Everybody the game has anything on file about. */
  ghost predicate IsKnown(s: State, player: string) {
    || (s.current.Some? && s.current.value.username != "" && s.current.value.username == player)
    || player in s.scores || player in s.ids || player in s.balloons || player in s.names.telegramIds || player in s.names.ircNames
    || player in s.house || player in s.gear || player in s.names.displayNames
  }

  /** Nobody is in the place or on the road, nobody has a palla, and everybody known has a balloon on him and nothing else. */
  ghost predicate IsAllOver(s: State, t: State) {
    && t == s.(current := None, scores := t.scores, house := map[], gear := t.gear, raids := [], balloons := map[], cooldowns := map[],
               smeared := map[], frozen := map[], pregnancies := [], children := [], knocks := [], told := t.told)
    && t.scores.Keys == s.scores.Keys && (forall player | player in t.scores :: t.scores[player] == 0)
    && (forall player :: player in t.gear <==> IsKnown(s, player))
    && (forall player | player in t.gear :: t.gear[player] == [BALLOON])
  }

  lemma AllOverIs(s: State)
    ensures IsAllOver(s, StartedAgain(s))
  {
    hide KnownPlayers; hide IsKnown;
    KnownIs(s);
  }

  lemma KnownIs(s: State)
    ensures forall player :: player in KnownPlayers(s) <==> IsKnown(s, player)
  {
  }

  // ---------------------------------------------------------------- burning

  /** What is left of him once it is gone. */
  ghost predicate IsWithout(s: State, t: State, player: string, emoji: string) {
    && t == s.(house := t.house, gear := t.gear, told := t.told)
    && Departures.LosesFirst(s, t.house, t.gear, player, emoji)
  }

  lemma GoneIs(s: State, player: string, emoji: string)
    requires Finding(s, player, emoji) != Nowhere
    ensures IsWithout(s, Gone(s, player, emoji), player, emoji)
  {
    hide Finding; hide TakenFrom; hide Departures.LosesFirst; hide Content;
    Departures.TakenFirst(s, player, emoji);
  }

  /** What is thrown at the place lands on whoever holds it, unless that is himself; anything else does nothing more. */
  ghost predicate HitsHolder(s: State, t: State, player: string, emoji: string, now: int, rules: Rules) {
    if Departures.IsThrowable(emoji) && s.current.Some? && s.current.value.username != "" && s.current.value.username != player
    then Deliveries.Lands(s, t, emoji, player, s.current.value.username, AtPlace, 0, now, rules) else t == s
  }

  lemma ThrownIs(s: State, player: string, emoji: string, now: int, rules: Rules)
    ensures HitsHolder(s, ThrownAtPlace(s, player, emoji, now, rules), player, emoji, now, rules)
  {
    hide Landed; hide Deliveries.Lands; hide PowerOf;
    if s.current.Some? {
      Deliveries.LandedIs(s, emoji, player, s.current.value.username, AtPlace, 0, now, rules);
    }
  }

  /** The first child of his that looks like that. */
  ghost predicate IsFirstChild(s: State, player: string, emoji: string, j: nat) {
    && j < |s.children| && LooksLike(s, s.children[j], player, emoji)
    && forall i: nat | i < j :: !LooksLike(s, s.children[i], player, emoji)
  }

  predicate LooksLike(s: State, child: Child, player: string, emoji: string) {
    child.owner == player && child.slot < |SlotsIn(s.house, player)| && SameEmoji(SlotsIn(s.house, player)[child.slot], emoji)
  }

  lemma {:induction false} FirstChildIs(s: State, player: string, emoji: string, from: nat)
    ensures var child := FirstChildLike(s, player, emoji, from);
            && (child.Some? ==>
                  && from <= child.value < |s.children| && LooksLike(s, s.children[child.value], player, emoji)
                  && forall i: nat | from <= i < child.value :: !LooksLike(s, s.children[i], player, emoji))
            && (child.None? ==> forall i: nat | from <= i < |s.children| :: !LooksLike(s, s.children[i], player, emoji))
    decreases |s.children| - from
  {
    hide SameEmoji;
    if from < |s.children| {
      FirstChildIs(s, player, emoji, from + 1);
    }
  }

  /** The child leaves the list, and its slot is empty. */
  ghost predicate ChildLeaves(s: State, t: State, j: nat)
    requires j < |s.children|
  {
    && t == s.(house := Put(s.house, s.children[j].owner, s.children[j].slot, ""), children := t.children, told := t.told)
    && t.children == s.children[..j] + s.children[j + 1..]
  }

  lemma BurntChildIs(s: State, j: nat)
    requires j < |s.children|
    ensures ChildLeaves(s, BurntChild(s, j), j)
  {
    hide Put;
  }

  ghost predicate HasIt(s: State, player: string, emoji: string) {
    Departures.HasOnHim(s, player, emoji) || Departures.HasAtHome(s, player, emoji)
  }

  /** An emoji that is burnt is gone; a nuke ends the game, what is thrown lands on the holder, and his bolts are counted again. */
  ghost predicate Burns(s: State, t: State, player: string, emoji: string, now: int, rules: Rules, destroy: bool) {
    exists u: State | IsWithout(s, u, player, emoji) ::
      if destroy then IsMended(u, t, now)
      else if PowerOf(emoji) == Some(Nuke) then IsAllOver(u, t)
      else exists v: State | HitsHolder(u, v, player, emoji, now, rules) :: IsMended(v, t, now)
  }

  lemma BurnOf(s: State, player: string, emoji: string, now: int, rules: Rules, destroy: bool)
    ensures var t, u, child := Burn(s, player, emoji, now, rules, destroy), Gone(s, player, emoji), FirstChildLike(s, player, emoji, 0);
            if RideOf(s.raids, player).Some? then t == Done(s)
            else if Finding(s, player, emoji) != Nowhere then
              t == if destroy then LostBolts(u, now) else if IsPower(emoji, Nuke) then Done(StartedAgain(u))
                   else LostBolts(ThrownAtPlace(u, player, emoji, now, rules), now)
            else if destroy && child.Some? then t == Done(BurntChild(s, child.value))
            else t == Done(s)
  {
    hide RideOf; hide Finding; hide Gone; hide FirstChildLike; hide BurntChild; hide LostBolts; hide StartedAgain; hide ThrownAtPlace;
    hide IsPower;
  }

  lemma BurnsIs(s: State, player: string, emoji: string, now: int, rules: Rules, destroy: bool)
    requires Finding(s, player, emoji) != Nowhere && RideOf(s.raids, player).None?
    ensures var t := Burn(s, player, emoji, now, rules, destroy);
            t.Done? ==> Burns(s, t.value, player, emoji, now, rules, destroy)
  {
    hide RideOf; hide Finding; hide Gone; hide LostBolts; hide StartedAgain; hide ThrownAtPlace; hide PowerOf; hide IsWithout; hide IsMended;
    hide IsAllOver; hide HitsHolder; hide Burn;
    BurnOf(s, player, emoji, now, rules, destroy);
    var u := Gone(s, player, emoji);
    GoneIs(s, player, emoji);
    LostBoltsMend(u, now);
    AllOverIs(u);
    var v := ThrownAtPlace(u, player, emoji, now, rules);
    ThrownIs(u, player, emoji, now, rules);
    LostBoltsMend(v, now);
  }

  /** furniture_burn, in full: nobody burns on the road; what he has is burnt; a child only if it is to be destroyed. */
  lemma BurnsExactly(s: State, player: string, emoji: string, now: int, rules: Rules, destroy: bool)
    ensures var t := Burn(s, player, emoji, now, rules, destroy);
            t.Done? ==>
              if IsOut(s, player) then t.value == s
              else if HasIt(s, player, emoji) then Burns(s, t.value, player, emoji, now, rules, destroy)
              else if destroy && exists j: nat :: IsFirstChild(s, player, emoji, j) then
                exists j: nat | IsFirstChild(s, player, emoji, j) :: ChildLeaves(s, t.value, j)
              else t.value == s
  {
    hide RideOf; hide Finding; hide Burn; hide Burns; hide FirstChildLike; hide LooksLike; hide IsOut; hide Departures.HasOnHim;
    hide Departures.HasAtHome; hide Gone; hide BurntChild; hide ChildLeaves;
    WhereItIs(s, player);
    Departures.FoundIs(s, player, emoji);
    BurnOf(s, player, emoji, now, rules, destroy);
    FirstChildIs(s, player, emoji, 0);
    if !IsOut(s, player) {
      if HasIt(s, player, emoji) {
        BurnsIs(s, player, emoji, now, rules, destroy);
      } else {
        var child := FirstChildLike(s, player, emoji, 0);
        if child.Some? {
          assert IsFirstChild(s, player, emoji, child.value);
          BurntChildIs(s, child.value);
        }
      }
    }
  }

  /** palle_burn: so many are gone, exactly when he is not on the road and has them. */
  lemma PalleBurnExactly(s: State, player: string, amount: int)
    ensures var t := BurnPalle(s, player, amount);
            if !IsOut(s, player) && 0 < amount <= Counter(s.scores, player) then
              && t == s.(scores := t.scores, told := s.told + [Spent(player, amount)])
              && forall q :: Counter(t.scores, q) == Counter(s.scores, q) - if q == player then amount else 0
            else t == s
  {
    hide RideOf; hide IsOut;
    WhereItIs(s, player);
  }
}
