/** src/game.cpp, player_link: exactly when two accounts become one player, which of the two stays, and what he keeps. */
module Joining {
  import opened Basics
  import opened Powers
  import opened Ledger
  import opened Places
  import opened World
  import opened Naming
  import opened Linking

  // ---------------------------------------------------------------- something to keep

  ghost function Filled(slots: seq<string>): set<nat> {
    set k: nat | k < |slots| && slots[k] != ""
  }

  /** He has nothing in his house or on him, or one emoji, a balloon. */
  ghost predicate HasAtMostABalloon(s: State, key: string) {
    var house, gear := SlotsIn(s.house, key), SlotsIn(s.gear, key);
    || (Filled(house) == {} && Filled(gear) == {})
    || (|Filled(house)| + |Filled(gear)| == 1
        && (forall k | k in Filled(house) :: PowerOf(house[k]) == Some(Balloon))
        && (forall k | k in Filled(gear) :: PowerOf(gear[k]) == Some(Balloon)))
  }

  /** Palle, quotes, the place, a ride there or to him, or emoji beyond a balloon. */
  ghost predicate HasSomething(s: State, key: string) {
    || Counter(s.scores, key) > 0 || Counter(s.quotes.added, key) > 0
    || (s.current.Some? && s.current.value.username == key)
    || (exists raid :: raid in s.raids && (raid.raider == key || raid.target == key))
    || (exists quote :: quote in s.quotes.authors && s.quotes.authors[quote] == key)
    || !HasAtMostABalloon(s, key)
  }

  lemma {:induction false} NonEmptyCounted(slots: seq<string>)
    ensures |NonEmpty(slots)| == |Filled(slots)|
  {
    if slots == [] {
      assert Filled(slots) == {};
    } else {
      var last, front := |slots| - 1, slots[..|slots| - 1];
      NonEmptyCounted(front);
      var before: set<nat> := Filled(front);
      assert last !in before;
      assert Filled(slots) == if slots[last] != "" then before + {last} else before;
    }
  }

  lemma {:induction false} NonEmptyJoins(front: seq<string>, back: seq<string>)
    ensures NonEmpty(front + back) == NonEmpty(front) + NonEmpty(back)
  {
    if back == [] {
      assert front + back == front;
    } else {
      assert (front + back)[..|front + back| - 1] == front + back[..|back| - 1];
      NonEmptyJoins(front, back[..|back| - 1]);
    }
  }

  lemma SomeFilled(slots: seq<string>)
    ensures Filled(slots) == {} <==> |Filled(slots)| == 0
    ensures forall k | k in Filled(slots) :: slots[k] in NonEmpty(slots)
    ensures forall emoji | emoji in NonEmpty(slots) :: exists k :: k in Filled(slots) && slots[k] == emoji
  {
    forall emoji | emoji in NonEmpty(slots)
      ensures exists k :: k in Filled(slots) && slots[k] == emoji
    {
      var k :| 0 <= k < |slots| && slots[k] == emoji;
      assert k in Filled(slots);
    }
  }

  lemma OnlyWelcomeIs(s: State, key: string)
    ensures OnlyWelcome(Owned(s, key)) <==> HasAtMostABalloon(s, key)
  {
    hide NonEmpty; hide PowerOf; hide Filled;
    var house, gear := SlotsIn(s.house, key), SlotsIn(s.gear, key);
    NonEmptyCounted(house);
    NonEmptyCounted(gear);
    NonEmptyJoins(house, gear);
    SomeFilled(house);
    SomeFilled(gear);
    var owned := NonEmpty(house) + NonEmpty(gear);
    if |owned| == 1 {
      OneOwned(house, gear);
    }
  }

  lemma OneOwned(house: seq<string>, gear: seq<string>)
    requires |NonEmpty(house) + NonEmpty(gear)| == 1
    ensures var owned := NonEmpty(house) + NonEmpty(gear);
            PowerOf(owned[0]) == Some(Balloon) <==>
              && (forall k | k in Filled(house) :: PowerOf(house[k]) == Some(Balloon))
              && (forall k | k in Filled(gear) :: PowerOf(gear[k]) == Some(Balloon))
  {
    hide NonEmpty; hide PowerOf; hide Filled;
    SomeFilled(house);
    SomeFilled(gear);
    var owned := NonEmpty(house) + NonEmpty(gear);
    assert forall emoji | emoji in owned :: emoji == owned[0];
    assert owned[0] in NonEmpty(house) || owned[0] in NonEmpty(gear);
  }

  lemma AssetsAre(s: State, key: string)
    ensures HasAssets(s, key) <==> HasSomething(s, key)
  {
    hide OnlyWelcome; hide Owned; hide HasAtMostABalloon;
    OnlyWelcomeIs(s, key);
  }

  // ---------------------------------------------------------------- becoming one

  /** Somebody else's account is one of the two players already. */
  ghost predicate IsTakenBy(accounts: map<string, string>, mine: string, theirs: string)
    requires mine in accounts && theirs in accounts
  {
    exists a :: a in accounts && a != mine && a != theirs && (accounts[a] == accounts[mine] || accounts[a] == accounts[theirs])
  }

  lemma AnotherIs(accounts: map<string, string>, mine: string, theirs: string, userId: int)
    requires Bound(accounts) && mine in accounts && theirs in accounts && accounts[mine] != accounts[theirs]
    requires OfPlatform(mine, Mine(userId)) && OfPlatform(theirs, Theirs(userId))
    ensures AnotherLinked(accounts, mine, theirs, userId) <==> IsTakenBy(accounts, mine, theirs)
  {
    hide OfPlatform;
    if IsTakenBy(accounts, mine, theirs) {
      var a :| a in accounts && a != mine && a != theirs && (accounts[a] == accounts[mine] || accounts[a] == accounts[theirs]);
      assert OfPlatform(a, TELEGRAM) || OfPlatform(a, IRC);
    }
  }

  /** With one account on each platform, theirs is the only one it can be. */
  lemma NamedIs(s: State, userId: int, other: string, theirs: string)
    requires Bound(s.names.accounts) && IsTheirs(s.names.accounts, theirs, other, Theirs(userId))
    ensures Named(s, userId, Some(other)) == Some(theirs)
  {
    hide OfPlatform;
  }

  /** The two accounts may become one player: they agreed, nobody else is either of them, and one of them has nothing to keep. */
  ghost predicate MayJoin(s: State, mine: string, theirs: string)
    requires mine in s.names.accounts && theirs in s.names.accounts
  {
    && theirs in s.names.linkRequests && s.names.linkRequests[theirs] == mine
    && !IsTakenBy(s.names.accounts, mine, theirs)
    && !(HasSomething(s, s.names.accounts[mine]) && HasSomething(s, s.names.accounts[theirs]))
  }

  /** The one who stays keeps all he has; of the other one nothing is left, and his accounts are the other's. */
  ghost predicate Joins(s: State, t: State, mine: string, theirs: string, stays: string, goes: string) {
    && t == s.(names := t.names, scores := s.scores - {goes}, quotes := s.quotes.(added := s.quotes.added - {goes}),
               balloons := s.balloons - {goes}, cooldowns := s.cooldowns - {goes}, ids := s.ids - {goes},
               welcomed := s.welcomed - {goes}, smeared := s.smeared - {goes}, frozen := s.frozen - {goes},
               house := s.house - {goes}, gear := s.gear - {goes}, told := t.told)
    && t.names.accounts.Keys == s.names.accounts.Keys
    && (forall a | a in s.names.accounts :: t.names.accounts[a] == if s.names.accounts[a] == goes then stays else s.names.accounts[a])
    && t.names.linkRequests == s.names.linkRequests - {mine, theirs}
  }

  /** What both were called and known as is his. */
  ghost predicate SharesNames(names: Names, names': Names, stays: string, goes: string) {
    && names'.telegramNames.Keys == names.telegramNames.Keys && names'.ircNicks.Keys == names.ircNicks.Keys
    && (forall name | name in names.telegramNames ::
          names'.telegramNames[name] == if names.telegramNames[name] == goes then stays else names.telegramNames[name])
    && (forall name | name in names.ircNicks ::
          names'.ircNicks[name] == if names.ircNicks[name] == goes then stays else names.ircNicks[name])
    && (forall q :: q in names'.telegramIds <==> q != goes && (q in names.telegramIds || (q == stays && goes in names.telegramIds)))
    && (forall q | q in names'.telegramIds ::
          names'.telegramIds[q] == if q == stays && goes in names.telegramIds then names.telegramIds[goes] else names.telegramIds[q])
    && (forall q :: q in names'.ircNames <==> q != goes && (q in names.ircNames || (q == stays && goes in names.ircNames)))
    && (forall q | q in names'.displayNames && q != stays :: q in names.displayNames && names'.displayNames[q] == names.displayNames[q])
    && (forall q | q in names.displayNames && q != goes :: q in names'.displayNames)
    && goes !in names'.displayNames
    && ShowsAs(names, names', stays, goes)
  }

  /** He is shown as he was on Telegram, else as the other one was there, else as before. */
  ghost predicate ShowsAs(names: Names, names': Names, stays: string, goes: string) {
    if Counter(names.telegramIds, stays) != 0 && CalledOn(names, stays) != "" then
      stays in names'.displayNames && names'.displayNames[stays] == CalledOn(names, stays)
    else if Counter(names.telegramIds, stays) == 0 && Counter(names.telegramIds, goes) != 0 && CalledOn(names, goes) != "" then
      stays in names'.displayNames && names'.displayNames[stays] == CalledOn(names, goes)
    else (stays in names'.displayNames <==> stays in names.displayNames)
         && (stays in names.displayNames ==> names'.displayNames[stays] == names.displayNames[stays])
  }

  /** The name on file of him; his key if there is none. */
  function CalledOn(names: Names, key: string): string {
    if key in names.displayNames then names.displayNames[key] else key
  }

  lemma MergedShares(names: Names, mine: string, theirs: string, stays: string, goes: string)
    requires stays != goes
    ensures SharesNames(names, MergedNames(names, mine, theirs, stays, goes), stays, goes)
  {
    hide TelegramShown; hide CalledOn; hide Counter;
    ShownWhen(names, stays, goes);
  }

  lemma ShownWhen(names: Names, stays: string, goes: string)
    ensures TelegramShown(names, stays, goes) ==
              if Counter(names.telegramIds, stays) != 0 then CalledOn(names, stays)
              else if Counter(names.telegramIds, goes) != 0 then CalledOn(names, goes) else ""
  {
  }

  lemma MergedIs(s: State, names: Names, goes: string)
    ensures var t := Merged(s, names, goes);
            t == s.(names := names, scores := s.scores - {goes}, quotes := s.quotes.(added := s.quotes.added - {goes}),
                    balloons := s.balloons - {goes}, cooldowns := s.cooldowns - {goes}, ids := s.ids - {goes},
                    welcomed := s.welcomed - {goes}, smeared := s.smeared - {goes}, frozen := s.frozen - {goes},
                    house := s.house - {goes}, gear := s.gear - {goes}, told := t.told)
  {
  }

  lemma MadeOneJoins(s: State, mine: string, theirs: string)
    requires mine in s.names.accounts && theirs in s.names.accounts
    ensures var myKey, otherKey := s.names.accounts[mine], s.names.accounts[theirs];
            var stays, goes := if HasSomething(s, otherKey) then otherKey else myKey, if HasSomething(s, otherKey) then myKey else otherKey;
            Joins(s, MadeOne(s, mine, theirs), mine, theirs, stays, goes)
  {
    hide HasAssets; hide HasSomething; hide MergedNames; hide Merged;
    var myKey, otherKey := s.names.accounts[mine], s.names.accounts[theirs];
    AssetsAre(s, otherKey);
    MadeOneNames(s, mine, theirs);
    var stays, goes := Primary(s, myKey, otherKey), Secondary(s, myKey, otherKey);
    MergedIs(s, MergedNames(s.names, mine, theirs, stays, goes), goes);
  }

  lemma MadeOneShares(s: State, mine: string, theirs: string)
    requires mine in s.names.accounts && theirs in s.names.accounts && s.names.accounts[mine] != s.names.accounts[theirs]
    ensures var myKey, otherKey := s.names.accounts[mine], s.names.accounts[theirs];
            var stays, goes := if HasSomething(s, otherKey) then otherKey else myKey, if HasSomething(s, otherKey) then myKey else otherKey;
            SharesNames(s.names, MadeOne(s, mine, theirs).names, stays, goes)
  {
    hide HasAssets; hide HasSomething; hide MergedNames; hide Merged; hide SharesNames;
    var myKey, otherKey := s.names.accounts[mine], s.names.accounts[theirs];
    AssetsAre(s, otherKey);
    var stays, goes := Primary(s, myKey, otherKey), Secondary(s, myKey, otherKey);
    MergedIs(s, MergedNames(s.names, mine, theirs, stays, goes), goes);
    MergedShares(s.names, mine, theirs, stays, goes);
  }

  lemma AnswerIs(s: State, mine: string, userId: int, theirs: string)
    requires Bound(s.names.accounts) && mine in s.names.accounts && theirs in s.names.accounts
    requires OfPlatform(mine, Mine(userId)) && OfPlatform(theirs, Theirs(userId))
    ensures var one := s.names.accounts[mine] == s.names.accounts[theirs];
            var answer := LinkAnswer(s, mine, userId, Some(theirs));
            && (answer == Linked <==> !one && MayJoin(s, mine, theirs))
            && (answer == Pending <==> !one && !(theirs in s.names.linkRequests && s.names.linkRequests[theirs] == mine))
  {
    hide Bound; hide OfPlatform; hide AnotherLinked; hide IsTakenBy; hide HasAssets; hide HasSomething;
    AssetsAre(s, s.names.accounts[mine]);
    AssetsAre(s, s.names.accounts[theirs]);
    if s.names.accounts[mine] != s.names.accounts[theirs] {
      AnotherIs(s.names.accounts, mine, theirs, userId);
    }
  }

  /** What player_link makes of it: one player, a request on file, or nothing. */
  lemma LinkIs(s: State, mine: string, userId: int, other: string, theirs: string)
    requires Bound(s.names.accounts) && mine in s.names.accounts && OfPlatform(mine, Mine(userId))
    requires IsTheirs(s.names.accounts, theirs, other, Theirs(userId))
    ensures var t := Link(s, mine, userId, Some(other));
            var one := s.names.accounts[mine] == s.names.accounts[theirs];
            t.Done? &&
            if one then t.value == s
            else if MayJoin(s, mine, theirs) then t == Done(MadeOne(s, mine, theirs))
            else if theirs in s.names.linkRequests && s.names.linkRequests[theirs] == mine then t.value == s
            else t.value == s.(names := s.names.(linkRequests := s.names.linkRequests[mine := theirs]))
  {
    hide Bound; hide OfPlatform; hide LinkAnswer; hide MayJoin; hide Named; hide MadeOne;
    NamedIs(s, userId, other, theirs);
    AnswerIs(s, mine, userId, theirs);
    if s.names.accounts[mine] == s.names.accounts[theirs] {
      SelfIs(s, mine, userId, theirs);
    }
  }

  lemma SelfIs(s: State, mine: string, userId: int, theirs: string)
    requires mine in s.names.accounts && theirs in s.names.accounts && s.names.accounts[mine] == s.names.accounts[theirs]
    ensures LinkAnswer(s, mine, userId, Some(theirs)) == Self
  {
  }

  /** The one with something to keep stays, the other one if he has something, and he keeps it all. */
  ghost predicate BecomesOne(s: State, t: State, mine: string, theirs: string)
    requires mine in s.names.accounts && theirs in s.names.accounts
  {
    var myKey, otherKey := s.names.accounts[mine], s.names.accounts[theirs];
    if HasSomething(s, otherKey) then
      !HasSomething(s, myKey) && Joins(s, t, mine, theirs, otherKey, myKey) && SharesNames(s.names, t.names, otherKey, myKey)
    else
      Joins(s, t, mine, theirs, myKey, otherKey) && SharesNames(s.names, t.names, myKey, otherKey)
  }

  lemma MadeOneBecomes(s: State, mine: string, theirs: string)
    requires mine in s.names.accounts && theirs in s.names.accounts && s.names.accounts[mine] != s.names.accounts[theirs]
    requires MayJoin(s, mine, theirs)
    ensures BecomesOne(s, MadeOne(s, mine, theirs), mine, theirs)
  {
    hide HasSomething; hide MadeOne; hide IsTakenBy; hide SharesNames; hide Joins;
    MadeOneJoins(s, mine, theirs);
    MadeOneShares(s, mine, theirs);
  }

  lemma OneAfterwards(s: State, t: State, mine: string, theirs: string)
    requires mine in s.names.accounts && theirs in s.names.accounts && BecomesOne(s, t, mine, theirs)
    ensures mine in t.names.accounts && theirs in t.names.accounts && t.names.accounts[mine] == t.names.accounts[theirs]
  {
    hide HasSomething; hide SharesNames;
  }

  /** The two accounts are one player afterwards exactly when they were one before or may become one; and then the one with something to
      keep stays, with all of it. */
  lemma JoinsExactly(s: State, mine: string, userId: int, other: string, theirs: string)
    requires Bound(s.names.accounts) && mine in s.names.accounts && OfPlatform(mine, Mine(userId))
    requires IsTheirs(s.names.accounts, theirs, other, Theirs(userId))
    ensures var t := Link(s, mine, userId, Some(other));
            var one := s.names.accounts[mine] == s.names.accounts[theirs];
            && t.Done? && mine in t.value.names.accounts && theirs in t.value.names.accounts
            && (t.value.names.accounts[mine] == t.value.names.accounts[theirs] <==> one || MayJoin(s, mine, theirs))
            && (!one && MayJoin(s, mine, theirs) ==> BecomesOne(s, t.value, mine, theirs))
  {
    hide Bound; hide OfPlatform; hide Link; hide MayJoin; hide MadeOne; hide BecomesOne;
    LinkIs(s, mine, userId, other, theirs);
    if s.names.accounts[mine] != s.names.accounts[theirs] && MayJoin(s, mine, theirs) {
      MadeOneBecomes(s, mine, theirs);
      OneAfterwards(s, MadeOne(s, mine, theirs), mine, theirs);
    }
  }
}
