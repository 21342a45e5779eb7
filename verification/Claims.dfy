/** src/game.cpp, conquister_claim: somebody comes for @TheConquister37. */
module Claims {
  import opened Basics
  import opened Powers
  import opened Ledger
  import opened Places
  import opened World
  import opened Laws
  import opened Rides
  import opened Holds
  import opened Naming
  import Settling

  const NEWCOMER_SECONDS := 24 * 60 * 60

  datatype ClaimRules = ClaimRules(cooldownSeconds: int, lightning: int, ninja: int, hourglass: int)

  datatype ClaimStatus = Taken | AlreadyHeld | Defended | Cooldown | Travelling | Frozen

  /** A newcomer is spared for his first day. */
  predicate IsNewcomer(s: State, player: string, now: int) {
    player in s.joined && now - s.joined[player] < NEWCOMER_SECONDS
  }

  /** Why he is sent away before he meets anybody, if he is. */
  function SentAway(s: State, player: string, now: int): Option<ClaimStatus> {
    if RideOf(s.raids, player).Some? then Some(Travelling)
    else if player in s.cooldowns && s.cooldowns[player] > now then Some(Cooldown)
    else if HoldsPlace(s, player) then Some(AlreadyHeld)
    else if FrozenFor(s, player, now) > 0 then Some(ClaimStatus.Frozen)
    else None
  }

  // ---------------------------------------------------------------- past the holder

  /** A newcomer's first time in, no balloon stops him. */
  predicate FirstEntry(s: State, player: string, now: int) {
    IsNewcomer(s, player, now) && Counter(s.entered, player) == 0
  }

  function Stealth(s: State, player: string, rules: ClaimRules): int {
    Share(CarriedCopies(s, player, Ninja), rules.ninja)
  }

  /** Whether his ninja try to get past a balloon. */
  predicate TriesToSneak(s: State, player: string, holder: string, now: int, rules: ClaimRules) {
    !FirstEntry(s, player, now) && Stealth(s, player, rules) > 0 && BalloonThere(s, holder, AtPlace, now)
  }

  predicate SneaksIn(s: State, player: string, holder: string, now: int, rules: ClaimRules) {
    TriesToSneak(s, player, holder, now, rules) && Roll(s, 100) < Stealth(s, player, rules)
  }

  function AfterNinja(s: State, player: string, holder: string, now: int, rules: ClaimRules): (t: State)
    ensures t == s.(luck := t.luck)
  {
    if TriesToSneak(s, player, holder, now, rules) then Rolled(s) else s
  }

  predicate SlipsPast(s: State, player: string, holder: string, now: int, rules: ClaimRules) {
    FirstEntry(s, player, now) || SneaksIn(s, player, holder, now, rules)
  }

  /** Whether the holder's balloon stops him. */
  predicate IsStopped(s: State, player: string, holder: string, now: int, rules: ClaimRules) {
    && !SlipsPast(s, player, holder, now, rules)
    && Attempt(AfterNinja(s, player, holder, now, rules), holder, AtPlace, now) == Held
  }

  /** What is left of the balloon: as worn as it was for one who slipped past it, fresh again for one who is kicked out. */
  function AfterBalloon(s: State, player: string, holder: string, now: int, rules: ClaimRules): (t: State)
    ensures t == s.(balloons := t.balloons, luck := t.luck)
  {
    hide *;
    var t := AfterNinja(s, player, holder, now, rules);
    if SlipsPast(s, player, holder, now, rules) then t else
    var u := Attempted(t, holder, AtPlace, now);
    if IsStopped(s, player, holder, now, rules) then u else u.(balloons := u.balloons - {holder})
  }

  /** How long he has to wait after a balloon stopped him: each hourglass takes its share off. */
  function Penalty(s: State, player: string, rules: ClaimRules): int {
    rules.cooldownSeconds * (100 - Share(CarriedCopies(s, player, Hourglass), rules.hourglass)) / 100
  }

  function Penalized(s: State, player: string, now: int, rules: ClaimRules): (t: State)
    ensures t == s.(cooldowns := t.cooldowns)
  {
    hide *;
    var wait := Penalty(s, player, rules);
    if wait > 0 then s.(cooldowns := s.cooldowns[player := now + wait]) else s
  }

  // ---------------------------------------------------------------- in the place

  /** lobsters_copying: in each slot where he has a lobster, what the kicked holder has there. */
  function LobstersCopying(gear: Place, player: string, kicked: string): map<nat, string> {
    var mine, theirs := SlotsIn(gear, player), SlotsIn(gear, kicked);
    map slot: nat | slot < |mine| && slot < |theirs| && IsLobster(mine[slot]) && theirs[slot] != "" && !IsLobster(theirs[slot]) ::
      theirs[slot]
  }

  /** The hold of one who just came in, on the bolts he shows as he does. */
  function FreshHold(gear: Place, userId: int, player: string, kicked: string, now: int, rules: ClaimRules): Holder {
    var lobsters := if kicked == "" then map[] else LobstersCopying(gear, player, kicked);
    var hold := Holder(userId, player, now, 0, 0, 0, 0, lobsters);
    var bolts := CountPower(ShownGear(Some(hold), gear, player), Bolt);
    if bolts > 0 && rules.lightning > 0 then hold.(percent := 100 + bolts * rules.lightning, bolts := bolts) else hold
  }

  function MovedIn(s: State, userId: int, player: string, kicked: string, now: int, rules: ClaimRules): (t: State)
    ensures t == s.(current := t.current, entered := t.entered) && IsHolder(t.current, player)
  {
    s.(current := Some(FreshHold(s.gear, userId, player, kicked, now, rules)),
       entered := if player in s.joined then s.entered[player := 1] else s.entered)
  }

  /** Whoever holds the place is paid for it and out, and the other one is in. */
  function Ousted(s: State, userId: int, player: string, now: int, rules: ClaimRules): (t: Result<State>)
    requires s.current.Some?
    ensures t.Done? ==> t.value.names == s.names
  {
    hide *;
    var u :- SettledHold(s, s.current.value, now);
    Done(MovedIn(u, userId, player, s.current.value.username, now, rules))
  }

  /** He meets whoever holds the place. */
  function Met(s: State, userId: int, player: string, now: int, rules: ClaimRules): (t: Result<State>)
    requires s.current.Some?
    ensures t.Done? ==> t.value.names == s.names
  {
    hide *;
    var holder := s.current.value.username;
    var u := AfterBalloon(s, player, holder, now, rules);
    if IsStopped(s, player, holder, now, rules) then Done(Penalized(u, player, now, rules))
    else Ousted(u, userId, player, now, rules)
  }

  predicate HolderThere(s: State)
    ensures HolderThere(s) ==> s.current.Some?
  {
    s.current.Some? && s.current.value.username != ""
  }

  /** He is on file, and no penalty holds him any more. */
  function Ready(s: State, userId: int, player: string): (t: State)
    ensures t == s.(names := t.names, cooldowns := s.cooldowns - {player})
    ensures t.names.accounts == s.names.accounts
  {
    hide *;
    s.(names := Remembered(s.names, player, userId), cooldowns := s.cooldowns - {player})
  }

  /** conquister_claim. */
  function Claim(s: State, userId: int, player: string, now: int, rules: ClaimRules): (t: Result<State>)
    ensures t.Done? ==> t.value.names.accounts == s.names.accounts
  {
    hide *;
    var u := Ready(s, userId, player);
    match SentAway(s, player, now)
    case Some(Travelling) => Done(u.(cooldowns := s.cooldowns))
    case Some(Cooldown) => Done(u.(cooldowns := s.cooldowns))
    case Some(_) => Done(u)
    case None =>
      if HolderThere(u) then Met(u, userId, player, now, rules) else Done(MovedIn(u, userId, player, "", now, rules))
  }

  function ClaimAnswer(s: State, userId: int, player: string, now: int, rules: ClaimRules): ClaimStatus {
    var t := Ready(s, userId, player);
    match SentAway(s, player, now)
    case Some(why) => why
    case None => if HolderThere(t) && IsStopped(t, player, t.current.value.username, now, rules) then Defended else Taken
  }

  // ---------------------------------------------------------------- what it keeps

  /** An attempt at a balloon never finds more than three before it: the fourth is certain. */
  lemma BalloonPops(s: State, player: string, site: Whereabouts, now: int)
    ensures Attempt(s, player, site, now) == Held ==>
              && BalloonThere(s, player, site, now)
              && Counter(s.balloons, player) < 3
              && Counter(Attempted(s, player, site, now).balloons, player) == Counter(s.balloons, player) + 1 <= 3
    ensures Attempt(s, player, site, now) == Popped ==> Counter(Attempted(s, player, site, now).balloons, player) == 0
    ensures Attempt(s, player, site, now) == NoBalloon ==> Attempted(s, player, site, now) == s
  {
    hide BalloonThere;
  }

  lemma HoldPaysIn(hold: Holder, now: int)
    requires HoldSound(hold)
    ensures Earned(hold, now).Done? ==> Earned(hold, now).value >= 0
  {
    var seconds := Max(now - CountedTo(hold), 0);
    assert hold.percent > 100 ==> seconds * hold.percent >= 0;
  }

  lemma CurrentSound(s: State)
    requires Sound(s) && s.current.Some?
    ensures HoldSound(s.current.value) && Solvent(s.scores)
  {
  }

  lemma ScoresPlay(s: State, t: State, event: Event, face: string)
    requires Sound(s) && t == s.(scores := t.scores, told := s.told + [event])
    requires Solvent(t.scores) && Total(t.scores, ITSELF) == Total(s.scores, ITSELF) + PalleTold(event)
    requires EmojiTold(event, face) == 0
    ensures Plays(s, t, face)
  {
    hide RidesSound; hide OnePlace; hide Mapped; hide Housed; hide Raised; hide Holding; hide OnTheRoad; hide Total;
    hide Solvent; hide PalleMade; hide EmojiMade; hide PalleTold; hide EmojiTold;
    ToldOne(s.told, event, face);
  }

  lemma SettledPlays(s: State, now: int, face: string)
    requires Sound(s) && s.current.Some?
    ensures SettledHold(s, s.current.value, now).Done? ==> Plays(s, SettledHold(s, s.current.value, now).value, face)
  {
    hide Sound; hide Plays; hide Solvent; hide Total; hide Earned; hide HoldSound;
    var hold := s.current.value;
    var t := SettledHold(s, hold, now);
    CurrentSound(s);
    HoldPaysIn(hold, now);
    if t.Done? {
      var pay := Earned(hold, now).value + hold.banked;
      assert pay >= 0 by { Banked(hold); }
      Settling.Owes(s.scores, hold.username);
      Settling.PaidIn(s.scores, hold.username, pay);
      ScoresPlay(s, t.value, Paid(hold.username, pay), face);
    }
  }

  lemma Banked(hold: Holder)
    requires HoldSound(hold)
    ensures hold.banked >= 0
  {
  }

  /** Whoever holds the place may leave it. */
  lemma EmptyPlace(s: State, face: string)
    requires Sound(s)
    ensures Plays(s, s.(current := None), face)
  {
    hide RidesSound; hide Mapped; hide Housed; hide Raised; hide Books; hide EmojiBooks; hide Solvent;
    var t := s.(current := None);
    assert Books(t, 0, 0) == Books(s, 0, 0) && EmojiBooks(t, 0, 0, face) == EmojiBooks(s, 0, 0, face) by { SameBooks(s, t, face); }
  }

  lemma SameBooks(s: State, t: State, face: string)
    requires t.scores == s.scores && t.raids == s.raids && t.house == s.house && t.gear == s.gear && t.told == s.told
    ensures Books(t, 0, 0) == Books(s, 0, 0) && EmojiBooks(t, 0, 0, face) == EmojiBooks(s, 0, 0, face)
  {
  }

  lemma FreshHoldSound(gear: Place, userId: int, player: string, kicked: string, now: int, rules: ClaimRules)
    ensures Holding(Some(FreshHold(gear, userId, player, kicked, now, rules)), gear)
  {
    hide CountPower; hide LobstersCopying;
    var hold := FreshHold(gear, userId, player, kicked, now, rules);
    var before := hold.(percent := 0, bolts := 0);
    assert ShownGear(Some(hold), gear, player) == ShownGear(Some(before), gear, player);
    if hold.bolts > 0 {
      Multiple(hold.bolts, rules.lightning);
    }
  }

  lemma Multiple(bolts: int, share: int)
    requires bolts > 0 && share > 0
    ensures bolts * share > 0 && (bolts * share) % bolts == 0
  {
    Exactly(share, bolts);
  }

  lemma MovedInPlays(s: State, userId: int, player: string, kicked: string, now: int, rules: ClaimRules, face: string)
    requires Sound(s) && !IsRiding(s.raids, player)
    ensures Plays(s, MovedIn(s, userId, player, kicked, now, rules), face)
  {
    hide RidesSound; hide Mapped; hide Housed; hide Raised; hide Books; hide EmojiBooks; hide Solvent; hide Holding;
    hide FreshHold;
    var t := MovedIn(s, userId, player, kicked, now, rules);
    FreshHoldSound(s.gear, userId, player, kicked, now, rules);
    SameBooks(s, t, face);
  }

  lemma OustedPlays(s: State, userId: int, player: string, now: int, rules: ClaimRules, face: string)
    requires Sound(s) && s.current.Some? && !IsRiding(s.raids, player)
    ensures var t := Ousted(s, userId, player, now, rules); t.Done? ==> Plays(s, t.value, face)
  {
    hide Sound; hide Plays; hide IsRiding; hide SettledHold; hide MovedIn;
    var t := SettledHold(s, s.current.value, now);
    if t.Done? {
      SettledPlays(s, now, face);
      PlayedSound(s, t.value, face);
      MovedInPlays(t.value, userId, player, s.current.value.username, now, rules, face);
      PlaysOn(s, t.value, MovedIn(t.value, userId, player, s.current.value.username, now, rules), face);
    }
  }

  lemma MetPlays(s: State, userId: int, player: string, now: int, rules: ClaimRules, face: string)
    requires Sound(s) && s.current.Some? && !IsRiding(s.raids, player)
    ensures var t := Met(s, userId, player, now, rules); t.Done? ==> Plays(s, t.value, face)
  {
    hide Sound; hide Plays; hide IsRiding; hide IsStopped; hide AfterBalloon; hide Penalized; hide Ousted;
    var holder := s.current.value.username;
    var t := AfterBalloon(s, player, holder, now, rules);
    QuietPlay(s, t, face);
    PlayedSound(s, t, face);
    if IsStopped(s, player, holder, now, rules) {
      QuietPlay(s, Penalized(t, player, now, rules), face);
    } else if Ousted(t, userId, player, now, rules).Done? {
      OustedPlays(t, userId, player, now, rules, face);
      PlaysOn(s, t, Ousted(t, userId, player, now, rules).value, face);
    }
  }

  lemma ClaimPlays(s: State, userId: int, player: string, now: int, rules: ClaimRules, face: string)
    requires Sound(s)
    ensures var t := Claim(s, userId, player, now, rules); t.Done? ==> Plays(s, t.value, face)
  {
    hide Sound; hide Plays; hide IsRiding; hide Met; hide MovedIn; hide Ready; hide HoldsPlace; hide FrozenFor;
    var t := Ready(s, userId, player);
    QuietPlay(s, t, face);
    QuietPlay(s, t.(cooldowns := s.cooldowns), face);
    PlayedSound(s, t, face);
    if SentAway(s, player, now).None? {
      if HolderThere(t) {
        MetPlays(t, userId, player, now, rules, face);
        if Met(t, userId, player, now, rules).Done? {
          PlaysOn(s, t, Met(t, userId, player, now, rules).value, face);
        }
      } else {
        MovedInPlays(t, userId, player, "", now, rules, face);
        PlaysOn(s, t, MovedIn(t, userId, player, "", now, rules), face);
      }
    }
  }

  /** Nothing but names, penalties and the wear of balloons has changed. */
  ghost predicate Repelled(s: State, t: State) {
    t == s.(names := t.names, cooldowns := t.cooldowns, balloons := t.balloons, luck := t.luck)
  }

  lemma ReadyRepelled(s: State, userId: int, player: string)
    ensures Repelled(s, Ready(s, userId, player)) && Repelled(s, Ready(s, userId, player).(cooldowns := s.cooldowns))
  {
    hide Ready;
  }

  lemma RepelledOn(s: State, t: State, u: State)
    requires Repelled(s, t) && Repelled(t, u)
    ensures Repelled(s, u)
  {
  }

  lemma MetAnswered(s: State, userId: int, player: string, now: int, rules: ClaimRules)
    requires s.current.Some?
    ensures var t := Met(s, userId, player, now, rules);
            t.Done? ==> if IsStopped(s, player, s.current.value.username, now, rules) then Repelled(s, t.value)
                        else IsHolder(t.value.current, player) && t.value.current.value.since == now
  {
    hide Met; hide IsStopped;
    if IsStopped(s, player, s.current.value.username, now, rules) {
      StoppedSpares(s, userId, player, now, rules);
    } else {
      PlaceTaken(s, userId, player, now, rules);
    }
  }

  lemma MovedInNow(s: State, userId: int, player: string, now: int, rules: ClaimRules)
    ensures var t := MovedIn(s, userId, player, "", now, rules); IsHolder(t.current, player) && t.current.value.since == now
  {
    hide CountPower; hide ShownGear;
  }

  /** The place is the claimer's from now on exactly when the claim is answered as taken; any other answer leaves the
      place, every palla and every emoji as they were. */
  lemma ClaimAnswered(s: State, userId: int, player: string, now: int, rules: ClaimRules)
    requires Claim(s, userId, player, now, rules).Done?
    ensures var t := Claim(s, userId, player, now, rules).value;
            if ClaimAnswer(s, userId, player, now, rules) == Taken then IsHolder(t.current, player) && t.current.value.since == now
            else Repelled(s, t)
  {
    hide SentAway; hide Met; hide Ready; hide MovedIn; hide IsStopped; hide Repelled;
    var t := Ready(s, userId, player);
    ReadyRepelled(s, userId, player);
    if SentAway(s, player, now).None? {
      if HolderThere(t) {
        MetAnswered(t, userId, player, now, rules);
        if IsStopped(t, player, t.current.value.username, now, rules) {
          RepelledOn(s, t, Met(t, userId, player, now, rules).value);
        }
      } else {
        MovedInNow(t, userId, player, now, rules);
      }
    } else {
      assert SentAway(s, player, now) != Some(Taken) by { NeverSentIn(s, player, now); }
    }
  }

  lemma NeverSentIn(s: State, player: string, now: int)
    ensures SentAway(s, player, now) != Some(Taken)
  {
    hide RideOf; hide HoldsPlace; hide FrozenFor;
  }

  lemma PlaceTaken(s: State, userId: int, player: string, now: int, rules: ClaimRules)
    requires s.current.Some? && !IsStopped(s, player, s.current.value.username, now, rules)
    ensures var t := Met(s, userId, player, now, rules);
            t.Done? ==> IsHolder(t.value.current, player) && t.value.current.value.since == now
  {
    hide IsStopped; hide AfterBalloon; hide Penalized; hide Ousted;
    OustedPaid(AfterBalloon(s, player, s.current.value.username, now, rules), userId, player, now, rules);
  }

  /** Whoever is kicked out is told to be paid what the hold made, and the other one is in from now on. */
  lemma OustedPaid(s: State, userId: int, player: string, now: int, rules: ClaimRules)
    requires s.current.Some?
    ensures var t := Ousted(s, userId, player, now, rules);
            t.Done? ==>
              && IsHolder(t.value.current, player) && t.value.current.value.since == now
              && Earned(s.current.value, now).Done?
              && t.value.told == s.told + [Paid(s.current.value.username, Earned(s.current.value, now).value + s.current.value.banked)]
  {
    hide Earned; hide LobstersCopying; hide CountPower; hide ShownGear;
  }

  /** Whoever is stopped by a balloon leaves the place, every palla and every emoji as they were. */
  lemma StoppedSpares(s: State, userId: int, player: string, now: int, rules: ClaimRules)
    requires s.current.Some? && IsStopped(s, player, s.current.value.username, now, rules)
    ensures var t := Met(s, userId, player, now, rules);
            t.Done? && t.value == s.(balloons := t.value.balloons, luck := t.value.luck, cooldowns := t.value.cooldowns)
  {
    hide IsStopped; hide AfterBalloon; hide Penalized; hide Ousted;
  }
}
