/** src/game.cpp, conquister_claim: who gets into the place, on what terms, and what it pays, told from what he shows and what is drawn. */
module Conquests {
  import opened Basics
  import opened Powers
  import opened Ledger
  import opened Places
  import opened World
  import opened Laws
  import opened Rides
  import opened Holds
  import opened Claims
  import opened Facts
  import opened Runs
  import Naming
  import Robberies
  import Tenures

  // ---------------------------------------------------------------- may he, and does he

  /** He is neither on the road nor in already, nor frozen, and no penalty holds him. */
  ghost predicate MayClaim(s: State, player: string, now: int) {
    && !IsOut(s, player) && !(player in s.cooldowns && s.cooldowns[player] > now)
    && !IsIn(s, player) && Counter(s.frozen, player) <= now
  }

  ghost predicate SomebodyIn(s: State) {
    s.current.Some? && s.current.value.username != ""
  }

  /** On his first day, the first time in. */
  ghost predicate IsFirstTime(s: State, player: string, now: int) {
    player in s.joined && now - s.joined[player] < 86_400 && Counter(s.entered, player) == 0
  }

  /** His ninja try when a balloon guards the place: so many in a hundred. */
  ghost function SneakTry(s: State, player: string, holder: string, now: int, rules: ClaimRules): int {
    if !IsFirstTime(s, player, now) && GuardsPlace(s, holder, now)
    then Percent(ShownOf(s.current, s.gear, player, Ninja), rules.ninja) else 0
  }

  ghost predicate Slips(s: State, player: string, holder: string, now: int, rules: ClaimRules) {
    || IsFirstTime(s, player, now)
    || (SneakTry(s, player, holder, now, rules) > 0 && Draw(s, 0, 100) < SneakTry(s, player, holder, now, rules))
  }

  ghost function DrawnBySneak(s: State, player: string, holder: string, now: int, rules: ClaimRules): nat {
    if SneakTry(s, player, holder, now, rules) > 0 then 1 else 0
  }

  /** The holder's balloon stops him: the first three times in four, and never the fourth. */
  ghost predicate Stops(s: State, player: string, holder: string, now: int, rules: ClaimRules) {
    && !Slips(s, player, holder, now, rules) && GuardsPlace(s, holder, now)
    && Draw(s, DrawnBySneak(s, player, holder, now, rules), 4) > Counter(s.balloons, holder)
  }

  lemma SneakIs(s: State, player: string, holder: string, now: int, rules: ClaimRules)
    ensures TriesToSneak(s, player, holder, now, rules) <==> SneakTry(s, player, holder, now, rules) > 0
    ensures SlipsPast(s, player, holder, now, rules) <==> Slips(s, player, holder, now, rules)
    ensures AfterNinja(s, player, holder, now, rules) == s.(luck := LuckAfter(s, DrawnBySneak(s, player, holder, now, rules)))
  {
    hide CarriedCopies; hide ShownOf; hide BalloonThere; hide GuardsPlace; hide Share; hide Percent;
    CarriedCounted(s, player, Ninja);
    PercentIs(CarriedCopies(s, player, Ninja), rules.ninja);
    GuardedPlace(s, holder, now);
  }

  lemma StopIs(s: State, player: string, holder: string, now: int, rules: ClaimRules)
    ensures IsStopped(s, player, holder, now, rules) <==> Stops(s, player, holder, now, rules)
  {
    hide SlipsPast; hide Slips; hide AfterNinja; hide SneakTry; hide Attempt; hide BalloonThere; hide GuardsPlace; hide Draw; hide Roll;
    SneakIs(s, player, holder, now, rules);
    var t := AfterNinja(s, player, holder, now, rules);
    Robberies.AttemptIs(t, holder, AtPlace, now);
    Drawn(s, t, DrawnBySneak(s, player, holder, now, rules), 4);
    SameGuard(s, t, holder, now);
    GuardedPlace(s, holder, now);
  }

  lemma SameGuard(s: State, t: State, player: string, now: int)
    requires t == s.(luck := t.luck)
    ensures BalloonThere(t, player, AtPlace, now) == BalloonThere(s, player, AtPlace, now)
  {
    hide CountPower;
  }

  lemma AwayIs(s: State, player: string, now: int)
    ensures SentAway(s, player, now).None? <==> MayClaim(s, player, now)
  {
    hide RideOf; hide HoldsPlace; hide IsOut; hide IsIn;
    WhereItIs(s, player);
  }

  /** What is on file of him changes none of it. */
  lemma ReadyStops(s: State, userId: int, player: string, holder: string, now: int, rules: ClaimRules)
    ensures Stops(Ready(s, userId, player), player, holder, now, rules) <==> Stops(s, player, holder, now, rules)
  {
    hide ShownOf; hide Naming.Remembered;
  }

  /** conquister_claim is answered as taken exactly when he may claim and no balloon stops him. */
  lemma TakenExactly(s: State, userId: int, player: string, now: int, rules: ClaimRules)
    ensures ClaimAnswer(s, userId, player, now, rules) == ClaimStatus.Taken <==>
              && MayClaim(s, player, now)
              && !(SomebodyIn(s) && Stops(s, player, s.current.value.username, now, rules))
  {
    hide SentAway; hide MayClaim; hide IsStopped; hide Stops; hide Ready;
    AwayIs(s, player, now);
    var t := Ready(s, userId, player);
    if SentAway(s, player, now).None? {
      if HolderThere(t) {
        StopIs(t, player, t.current.value.username, now, rules);
        ReadyStops(s, userId, player, t.current.value.username, now, rules);
      }
    } else {
      NeverSentIn(s, player, now);
    }
  }

  // ---------------------------------------------------------------- on what terms

  /** Where he has a lobster, the emoji of the one he kicks out that is no lobster. */
  function CopiedAt(gear: Place, player: string, kicked: string, k: nat): string
    requires k < |SlotsIn(gear, player)|
  {
    var mine, theirs := SlotsIn(gear, player), SlotsIn(gear, kicked);
    if kicked != "" && mine[k] != "" && PowerOf(mine[k]) == Some(Lobster) && k < |theirs| && theirs[k] != ""
       && PowerOf(theirs[k]) != Some(Lobster) then theirs[k] else mine[k]
  }

  ghost function BoltsWith(gear: Place, player: string, kicked: string): nat {
    |set k: nat | k < |SlotsIn(gear, player)| && Shows(CopiedAt(gear, player, kicked, k), Bolt)|
  }

  /** He comes in with the bolts he shows, each worth its share over the full pay; with none, at the plain one. */
  ghost predicate HoldsFrom(hold: Holder, gear: Place, userId: int, player: string, kicked: string, now: int, rules: ClaimRules) {
    && hold.userId == userId && hold.username == player && hold.since == now && hold.banked == 0 && hold.countedFrom == 0
    && hold.bolts == (if rules.lightning > 0 then BoltsWith(gear, player, kicked) else 0)
    && hold.percent == (if hold.bolts > 0 then 100 + hold.bolts * rules.lightning else 0)
    && forall k: nat | k < |SlotsIn(gear, player)| :: LooksAs(Some(hold), gear, player, k) == CopiedAt(gear, player, kicked, k)
  }

  lemma LooksCopied(gear: Place, player: string, kicked: string, hold: Holder, k: nat)
    requires hold.username == player && k < |SlotsIn(gear, player)|
    requires hold.lobsters == if kicked == "" then map[] else LobstersCopying(gear, player, kicked)
    ensures LooksAs(Some(hold), gear, player, k) == CopiedAt(gear, player, kicked, k)
  {
    hide PowerOf;
    assert PowerOf("").None? by { NothingPower(); }
  }

  lemma FreshIs(gear: Place, userId: int, player: string, kicked: string, now: int, rules: ClaimRules)
    ensures HoldsFrom(FreshHold(gear, userId, player, kicked, now, rules), gear, userId, player, kicked, now, rules)
  {
    hide PowerOf; hide LooksAs; hide CopiedAt; hide LobstersCopying; hide CountPower; hide ShownGear; hide Shows;
    var lobsters := if kicked == "" then map[] else LobstersCopying(gear, player, kicked);
    var bare := Holder(userId, player, now, 0, 0, 0, 0, lobsters);
    ShownCounted(Some(bare), gear, player, Bolt);
    var hold := FreshHold(gear, userId, player, kicked, now, rules);
    forall k: nat | k < |SlotsIn(gear, player)|
      ensures LooksAs(Some(hold), gear, player, k) == CopiedAt(gear, player, kicked, k)
      ensures LooksAs(Some(bare), gear, player, k) == CopiedAt(gear, player, kicked, k)
    {
      LooksCopied(gear, player, kicked, hold, k);
      LooksCopied(gear, player, kicked, bare, k);
    }
    assert (set k: nat | k < |SlotsIn(gear, player)| && Shows(LooksAs(Some(bare), gear, player, k), Bolt))
        == (set k: nat | k < |SlotsIn(gear, player)| && Shows(CopiedAt(gear, player, kicked, k), Bolt));
  }

  // ---------------------------------------------------------------- what it pays

  /** A palla a second, or so many percent of one. */
  function PaidFor(seconds: int, percent: int): int {
    if percent > 100 then seconds * percent / 100 else seconds
  }

  /** What the hold made since it was last counted, and what was put aside. */
  function PayOf(hold: Holder, now: int): int {
    var from := if hold.countedFrom > hold.since then hold.countedFrom else hold.since;
    PaidFor(if now > from then now - from else 0, hold.percent) + hold.banked
  }

  lemma EarnedIs(hold: Holder, now: int)
    ensures Earned(hold, now).Done? ==> Earned(hold, now).value + hold.banked == PayOf(hold, now)
  {
  }

  /** Whoever is out of the place is paid for it. */
  ghost predicate IsPaidOff(s: State, t: State, now: int)
    requires s.current.Some?
  {
    var hold := s.current.value;
    && t.told == s.told + [Paid(hold.username, PayOf(hold, now))]
    && forall q :: Counter(t.scores, q) == Counter(s.scores, q) + if q == hold.username then PayOf(hold, now) else 0
  }

  lemma SettledIs(s: State, t: State, now: int)
    requires s.current.Some? && t.scores == s.scores && t.told == s.told
    ensures var u := SettledHold(t, s.current.value, now); u.Done? ==> IsPaidOff(s, u.value, now)
  {
    hide Earned; hide PayOf;
    EarnedIs(s.current.value, now);
  }

  /** Whoever is in and is meant for home leaves the place, paid; anybody else changes nothing. */
  lemma GoesHome(s: State, player: string, now: int)
    ensures var t := GoneHome(s, player, now);
            t.Done? ==> if IsIn(s, player) then t.value.current.None? && IsPaidOff(s, t.value, now) else t.value == s
  {
    hide SettledHold; hide IsPaidOff; hide RideOf;
    WhereItIs(s, player);
    if IsIn(s, player) {
      SettledIs(s, s.(current := None), now);
    }
  }

  // ---------------------------------------------------------------- the claim

  /** He is in, on the terms of what he shows; whoever was in is out and paid, and his balloon as good as new unless the other one slipped
      past it. */
  ghost predicate ComesIn(s: State, t: State, userId: int, player: string, now: int, rules: ClaimRules) {
    var kicked := if SomebodyIn(s) then s.current.value.username else "";
    && t == s.(current := t.current, scores := t.scores, told := t.told, entered := t.entered, names := t.names,
               cooldowns := s.cooldowns - {player}, balloons := t.balloons, luck := t.luck)
    && t.current.Some? && HoldsFrom(t.current.value, s.gear, userId, player, kicked, now, rules)
    && t.entered == (if player in s.joined then s.entered[player := 1] else s.entered)
    && if SomebodyIn(s) then
         && IsPaidOff(s, t, now)
         && t.balloons == if Slips(s, player, kicked, now, rules) then s.balloons else s.balloons - {kicked}
       else t.scores == s.scores && t.told == s.told && t.balloons == s.balloons
  }

  /** He waits, less a share for each hourglass he shows, and the balloon has stood one attempt more. */
  ghost predicate IsRepelled(s: State, t: State, player: string, now: int, rules: ClaimRules)
    requires s.current.Some?
  {
    var wait := rules.cooldownSeconds * (100 - Percent(ShownOf(s.current, s.gear, player, Hourglass), rules.hourglass)) / 100;
    && t == s.(names := t.names, cooldowns := t.cooldowns, balloons := t.balloons, luck := t.luck)
    && t.cooldowns == (if wait > 0 then (s.cooldowns - {player})[player := now + wait] else s.cooldowns - {player})
    && t.balloons == s.balloons[s.current.value.username := Counter(s.balloons, s.current.value.username) + 1]
  }

  lemma PenaltyIs(s: State, t: State, player: string, rules: ClaimRules)
    requires t.current == s.current && t.gear == s.gear
    ensures Penalty(t, player, rules)
         == rules.cooldownSeconds * (100 - Percent(ShownOf(s.current, s.gear, player, Hourglass), rules.hourglass)) / 100
  {
    hide CarriedCopies; hide ShownOf; hide Share; hide Percent;
    CarriedCounted(t, player, Hourglass);
    PercentIs(CarriedCopies(t, player, Hourglass), rules.hourglass);
  }

  /** What the claim leaves of the balloon. */
  lemma BalloonIs(s: State, player: string, holder: string, now: int, rules: ClaimRules)
    ensures var t := AfterBalloon(s, player, holder, now, rules);
            t.balloons == if Slips(s, player, holder, now, rules) then s.balloons
                          else if Stops(s, player, holder, now, rules) then s.balloons[holder := Counter(s.balloons, holder) + 1]
                          else s.balloons - {holder}
  {
    hide SlipsPast; hide Slips; hide AfterNinja; hide Attempt; hide Attempted; hide BalloonThere; hide IsStopped; hide Stops; hide LuckAfter;
    SneakIs(s, player, holder, now, rules);
    StopIs(s, player, holder, now, rules);
    var t := AfterNinja(s, player, holder, now, rules);
    Robberies.AttemptIs(t, holder, AtPlace, now);
    if IsStopped(s, player, holder, now, rules) {
      StoppedAttempt(s, player, holder, now, rules);
    } else if !SlipsPast(s, player, holder, now, rules) {
      assert s.balloons - {holder} - {holder} == s.balloons - {holder};
      NotStoppedAttempt(s, player, holder, now, rules);
    }
  }

  lemma StoppedAttempt(s: State, player: string, holder: string, now: int, rules: ClaimRules)
    requires IsStopped(s, player, holder, now, rules)
    ensures !SlipsPast(s, player, holder, now, rules) && Attempt(AfterNinja(s, player, holder, now, rules), holder, AtPlace, now) == Held
  {
    hide SlipsPast; hide AfterNinja; hide Attempt;
  }

  lemma NotStoppedAttempt(s: State, player: string, holder: string, now: int, rules: ClaimRules)
    requires !IsStopped(s, player, holder, now, rules) && !SlipsPast(s, player, holder, now, rules)
    ensures Attempt(AfterNinja(s, player, holder, now, rules), holder, AtPlace, now) != Held
  {
    hide SlipsPast; hide AfterNinja; hide Attempt;
  }

  lemma MetComesIn(s: State, userId: int, player: string, now: int, rules: ClaimRules)
    requires SomebodyIn(s) && !Stops(s, player, s.current.value.username, now, rules)
    ensures var t := Met(s, userId, player, now, rules);
            t.Done? ==> ComesIn(s, t.value.(cooldowns := s.cooldowns - {player}), userId, player, now, rules)
  {
    hide IsStopped; hide Stops; hide AfterBalloon; hide Slips; hide SettledHold; hide HoldsFrom; hide IsPaidOff; hide FreshHold;
    var holder := s.current.value.username;
    StopIs(s, player, holder, now, rules);
    BalloonIs(s, player, holder, now, rules);
    var u := AfterBalloon(s, player, holder, now, rules);
    SettledIs(s, u, now);
    FreshIs(s.gear, userId, player, holder, now, rules);
    var paid := SettledHold(u, s.current.value, now);
    if paid.Done? {
      PaidStill(s, paid.value, MovedIn(paid.value, userId, player, holder, now, rules).(cooldowns := s.cooldowns - {player}), now);
    }
  }

  lemma PaidStill(s: State, t: State, u: State, now: int)
    requires s.current.Some? && IsPaidOff(s, t, now) && u.scores == t.scores && u.told == t.told
    ensures IsPaidOff(s, u, now)
  {
    hide PayOf;
  }

  lemma MetRepelled(s: State, userId: int, player: string, now: int, rules: ClaimRules)
    requires SomebodyIn(s) && Stops(s, player, s.current.value.username, now, rules) && player !in s.cooldowns
    ensures var t := Met(s, userId, player, now, rules); t.Done? && IsRepelled(s, t.value, player, now, rules)
  {
    hide IsStopped; hide AfterBalloon; hide Slips; hide Penalty; hide ShownOf; hide Percent; hide Ousted; hide GuardsPlace; hide Draw;
    var holder := s.current.value.username;
    StopIs(s, player, holder, now, rules);
    BalloonIs(s, player, holder, now, rules);
    PenaltyIs(s, AfterBalloon(s, player, holder, now, rules), player, rules);
    assert s.cooldowns - {player} == s.cooldowns;
  }

  lemma ClaimMeets(s: State, userId: int, player: string, now: int, rules: ClaimRules)
    ensures var t, u := Claim(s, userId, player, now, rules), Ready(s, userId, player);
            && (SentAway(s, player, now).Some? ==> t.Done? && t.value == s.(names := t.value.names, cooldowns := t.value.cooldowns))
            && (SentAway(s, player, now).None? && HolderThere(u) ==> t == Met(u, userId, player, now, rules))
            && (SentAway(s, player, now).None? && !HolderThere(u) ==> t == Done(MovedIn(u, userId, player, "", now, rules)))
  {
    hide SentAway; hide Met; hide MovedIn; hide Ready;
  }

  lemma ClaimMet(s: State, userId: int, player: string, now: int, rules: ClaimRules)
    requires SomebodyIn(s)
    ensures var t := Met(Ready(s, userId, player), userId, player, now, rules);
            t.Done? ==>
              if Stops(s, player, s.current.value.username, now, rules) then IsRepelled(s, t.value, player, now, rules)
              else ComesIn(s, t.value, userId, player, now, rules)
  {
    hide Stops; hide Met; hide Ready; hide ComesIn; hide IsRepelled;
    var t := Ready(s, userId, player);
    ReadyStops(s, userId, player, s.current.value.username, now, rules);
    var u := Met(t, userId, player, now, rules);
    if Stops(s, player, s.current.value.username, now, rules) {
      MetRepelled(t, userId, player, now, rules);
      RepelledSame(s, t, u.value, player, now, rules);
    } else {
      MetComesIn(t, userId, player, now, rules);
      ReadyMet(t, userId, player, now, rules);
      if u.Done? {
        ComesInSame(s, t, u.value, userId, player, now, rules);
      }
    }
  }

  /** conquister_claim, in full: sent away with nothing changed but what is on file of him, stopped by the balloon, or in. */
  lemma ClaimGoes(s: State, userId: int, player: string, now: int, rules: ClaimRules)
    ensures var t := Claim(s, userId, player, now, rules);
            t.Done? ==>
              if !MayClaim(s, player, now) then t.value == s.(names := t.value.names, cooldowns := t.value.cooldowns)
              else if SomebodyIn(s) && Stops(s, player, s.current.value.username, now, rules) then
                IsRepelled(s, t.value, player, now, rules)
              else ComesIn(s, t.value, userId, player, now, rules)
  {
    hide SentAway; hide MayClaim; hide Stops; hide Met; hide MovedIn; hide Ready; hide ComesIn; hide IsRepelled; hide Claim;
    AwayIs(s, player, now);
    ClaimMeets(s, userId, player, now, rules);
    var t := Ready(s, userId, player);
    if SomebodyIn(s) {
      ClaimMet(s, userId, player, now, rules);
    } else {
      EmptyComesIn(t, userId, player, now, rules);
      ComesInSame(s, t, MovedIn(t, userId, player, "", now, rules), userId, player, now, rules);
    }
  }

  /** Who is sent away in or frozen has no penalty left to wait for; on the road or before it is over he still waits. */
  lemma SentAwayWaits(s: State, userId: int, player: string, now: int, rules: ClaimRules)
    requires !MayClaim(s, player, now)
    ensures var t := Claim(s, userId, player, now, rules);
            && t.Done?
            && t.value.cooldowns == if IsOut(s, player) || (player in s.cooldowns && s.cooldowns[player] > now) then s.cooldowns
                                    else s.cooldowns - {player}
  {
    hide Ready; hide RideOf; hide HoldsPlace; hide IsOut; hide IsIn; hide Met; hide MovedIn;
    WhereItIs(s, player);
  }

  lemma EmptyComesIn(s: State, userId: int, player: string, now: int, rules: ClaimRules)
    requires !SomebodyIn(s) && player !in s.cooldowns
    ensures ComesIn(s, MovedIn(s, userId, player, "", now, rules), userId, player, now, rules)
  {
    hide HoldsFrom; hide FreshHold; hide Slips; hide IsPaidOff;
    FreshIs(s.gear, userId, player, "", now, rules);
    assert s.cooldowns - {player} == s.cooldowns;
  }

  lemma ReadyMet(s: State, userId: int, player: string, now: int, rules: ClaimRules)
    requires SomebodyIn(s) && player !in s.cooldowns && !Stops(s, player, s.current.value.username, now, rules)
    ensures var t := Met(s, userId, player, now, rules); t.Done? ==> t.value.cooldowns == s.cooldowns - {player}
  {
    hide IsStopped; hide Stops; hide AfterBalloon; hide SettledHold; hide FreshHold;
    StopIs(s, player, s.current.value.username, now, rules);
    assert s.cooldowns - {player} == s.cooldowns;
  }

  /** Before he is met only what is on file of him changes. */
  ghost predicate OnFile(s: State, t: State, player: string) {
    t == s.(names := t.names, cooldowns := s.cooldowns - {player})
  }

  lemma RepelledSame(s: State, t: State, u: State, player: string, now: int, rules: ClaimRules)
    requires OnFile(s, t, player) && s.current.Some? && IsRepelled(t, u, player, now, rules)
    ensures IsRepelled(s, u, player, now, rules)
  {
    hide ShownOf; hide Percent;
    assert t.cooldowns - {player} == s.cooldowns - {player};
  }

  lemma ComesInSame(s: State, t: State, u: State, userId: int, player: string, now: int, rules: ClaimRules)
    requires OnFile(s, t, player) && ComesIn(t, u, userId, player, now, rules)
    ensures ComesIn(s, u, userId, player, now, rules)
  {
    hide HoldsFrom; hide PayOf; hide ShownOf; hide Percent;
    assert t.cooldowns - {player} == s.cooldowns - {player};
  }

  // ---------------------------------------------------------------- from the claim to the pay

  /** What a hold with so many bolts makes, from one fire to the next. */
  ghost function PaidThrough(bolts: nat, lightning: int, losses: seq<Loss>, from: int, to: int): int
    decreases |losses|
  {
    if losses == [] then PaidFor(to - from, if bolts > 0 then 100 + bolts * lightning else 0)
    else if losses[0].left >= bolts then PaidThrough(bolts, lightning, losses[1..], from, to)
    else PaidFor(losses[0].at - from, if bolts > 0 then 100 + bolts * lightning else 0)
           + PaidThrough(losses[0].left, lightning, losses[1..], losses[0].at, to)
  }

  lemma {:induction false} StretchesPaid(bolts: nat, lightning: int, losses: seq<Loss>, from: int, to: int)
    ensures Stretches(bolts, lightning, losses, from, to) == PaidThrough(bolts, lightning, losses, from, to)
    decreases |losses|
  {
    if losses != [] {
      StretchesPaid(if losses[0].left >= bolts then bolts else losses[0].left, lightning, losses[1..],
                    if losses[0].left >= bolts then from else losses[0].at, to);
    }
  }

  /** Over any run from a claim that was taken to the end of the hold: the pay told is that of the bolts he showed as he came in, each worth
      its percent, until a fire leaves fewer of them. */
  lemma ClaimPaid(s: State, claim: Command, commands: seq<Command>, last: Command, palle: int)
    requires Sound(s) && claim.ClaimPlace? && claim.now >= 0 && Claim(s, claim.userId, claim.player, claim.now, claim.claims).Done?
    requires ClaimAnswer(s, claim.userId, claim.player, claim.now, claim.claims) == ClaimStatus.Taken
    requires var t := Next(s, claim);
             && Tenures.StaysIn(t, commands, claim.player) && (forall k | 0 <= k < |commands| :: IsSensible(commands[k]))
             && Tenures.CanEnd(last) && InTime(Tenures.Losses(t, commands), claim.now, Tenures.Ends(last))
             && Tenures.IsToldPaid(Run(t, commands).told, Next(Run(t, commands), last).told, claim.player, palle)
    ensures var bolts := BoltsWith(s.gear, claim.player, if SomebodyIn(s) then s.current.value.username else "");
            palle == PaidThrough(if claim.claims.lightning > 0 then bolts else 0, claim.claims.lightning,
                                 Tenures.Losses(Next(s, claim), commands), claim.now, Tenures.Ends(last))
  {
    hide Sound; hide Run; hide Next; hide Claim; hide ClaimAnswer; hide Tenures.StaysIn; hide IsSensible; hide Tenures.Losses; hide InTime;
    hide Tenures.IsToldPaid; hide BoltsWith; hide Stretches; hide PaidThrough; hide MayClaim; hide Stops; hide Plays; hide FreshHold;
    hide Tenures.CanEnd;
    var t := Next(s, claim);
    var kicked := if SomebodyIn(s) then s.current.value.username else "";
    assert Claim(s, claim.userId, claim.player, claim.now, claim.claims) == Done(t) by { ClaimIsNext(s, claim); }
    ClaimPlays(s, claim.userId, claim.player, claim.now, claim.claims, "");
    PlayedSound(s, t, "");
    TakenExactly(s, claim.userId, claim.player, claim.now, claim.claims);
    ClaimGoes(s, claim.userId, claim.player, claim.now, claim.claims);
    HeldFresh(s, claim, kicked);
    Tenures.TenurePaid(t, commands, last, s.gear, kicked, claim.claims, claim.player, palle);
    var hold := t.current.value;
    StretchesPaid(hold.bolts, if claim.claims.lightning > 1 then claim.claims.lightning else 1, Tenures.Losses(t, commands), claim.now, Tenures.Ends(last));
    if claim.claims.lightning <= 0 {
      NoBoltsPaid(1, claim.claims.lightning, Tenures.Losses(t, commands), claim.now, Tenures.Ends(last));
    }
  }

  lemma ClaimIsNext(s: State, claim: Command)
    requires claim.ClaimPlace? && Claim(s, claim.userId, claim.player, claim.now, claim.claims).Done?
    ensures Claim(s, claim.userId, claim.player, claim.now, claim.claims) == Done(Next(s, claim))
  {
    hide Claim;
  }

  /** Without bolts the share does not matter. */
  lemma {:induction false} NoBoltsPaid(one: int, other: int, losses: seq<Loss>, from: int, to: int)
    ensures PaidThrough(0, one, losses, from, to) == PaidThrough(0, other, losses, from, to)
    decreases |losses|
  {
    if losses != [] {
      NoBoltsPaid(one, other, losses[1..], from, to);
    }
  }

  /** The hold a claim leaves is the one its holder came in with. */
  lemma HeldFresh(s: State, claim: Command, kicked: string)
    requires claim.ClaimPlace? && claim.now >= 0 && Claim(s, claim.userId, claim.player, claim.now, claim.claims).Done?
    requires ClaimAnswer(s, claim.userId, claim.player, claim.now, claim.claims) == ClaimStatus.Taken
    requires kicked == if SomebodyIn(s) then s.current.value.username else ""
    ensures var t := Next(s, claim);
            t.current.Some? && Tenures.IsFresh(t.current.value, s.gear, kicked, claim.claims)
  {
    hide SentAway; hide IsStopped; hide Met; hide Ready; hide FreshHold; hide Claim; hide Next;
    var u := Ready(s, claim.userId, claim.player);
    ClaimIsNext(s, claim);
    ClaimMeets(s, claim.userId, claim.player, claim.now, claim.claims);
    NeverSentIn(s, claim.player, claim.now);
    FreshNamed(s.gear, claim.userId, claim.player, kicked, claim.now, claim.claims);
    if HolderThere(u) {
      FreshMet(u, claim.userId, claim.player, claim.now, claim.claims);
    }
  }

  lemma FreshNamed(gear: Place, userId: int, player: string, kicked: string, now: int, rules: ClaimRules)
    ensures var hold := FreshHold(gear, userId, player, kicked, now, rules);
            hold.userId == userId && hold.username == player && hold.since == now
  {
    hide CountPower; hide ShownGear; hide LobstersCopying;
  }

  lemma FreshMet(s: State, userId: int, player: string, now: int, rules: ClaimRules)
    requires s.current.Some? && !IsStopped(s, player, s.current.value.username, now, rules)
    ensures var t := Met(s, userId, player, now, rules);
            t.Done? ==> t.value.current == Some(FreshHold(s.gear, userId, player, s.current.value.username, now, rules))
  {
    hide IsStopped; hide AfterBalloon; hide SettledHold; hide FreshHold;
  }
}
