/** src/game.cpp: what the slot of a child shows. The keeper shows each child at its age; nothing else changes what is there. */
module Ages {
  import opened Basics
  import opened Powers
  import opened Places
  import opened World
  import opened Laws
  import opened Rides
  import opened Family
  import opened Holds
  import opened Naming
  import opened Belongings
  import opened Claims
  import opened Journeys
  import opened Household
  import opened Linking
  import opened Runs
  import opened Children
  import Burning
  import Keeping
  import Settling
  import Quoting

  /** A child looks its age. */
  predicate ShowsAge(house: Place, child: Child, now: int, rules: Rules) {
    FaceOf(house, child) == ChildEmoji(child.male, Age(child, now, rules))
  }

  ghost predicate Aged(s: State, now: int, rules: Rules) {
    forall child | child in s.children :: ShowsAge(s.house, child, now, rules)
  }

  ghost predicate AgedUpTo(s: State, k: nat, now: int, rules: Rules) {
    forall j: nat | j < k && j < |s.children| :: ShowsAge(s.house, s.children[j], now, rules)
  }

  // ---------------------------------------------------------------- growing up

  lemma ChildAgedHouse(s: State, child: Child, now: int, rules: Rules)
    ensures var here, looks := At(s.house, child.owner, child.slot), ChildEmoji(child.male, Age(child, now, rules));
            ChildAged(s, child, now, rules).house
              == if here == "" || here == looks then s.house else Put(s.house, child.owner, child.slot, looks)
  {
    hide Put; hide At; hide ChildEmoji; hide Age;
  }

  lemma ChildAgedAt(s: State, child: Child, now: int, rules: Rules)
    requires FaceOf(s.house, child) != ""
    ensures forall q: string, k: nat :: At(ChildAged(s, child, now, rules).house, q, k) ==
              if q == child.owner && k == child.slot then ChildEmoji(child.male, Age(child, now, rules)) else At(s.house, q, k)
  {
    hide Put; hide ChildEmoji; hide Age; hide At; hide ChildAged;
    ChildAgedHouse(s, child, now, rules);
    PutAt(s.house, child.owner, child.slot, ChildEmoji(child.male, Age(child, now, rules)));
  }

  lemma AfterChildHouse(s: State, k: nat, now: int, rules: Rules)
    requires k < |s.children|
    ensures Keeping.AfterChild(s, k, now, rules).house == ChildAged(s, s.children[k], now, rules).house
  {
    hide ChildAged; hide Family.Stays; hide Dropped;
  }

  lemma AgedOne(s: State, k: nat, now: int, rules: Rules)
    requires Raised(s.house, s.children) && k < |s.children| && FaceOf(s.house, s.children[k]) != "" && AgedUpTo(s, k, now, rules)
    ensures var house := ChildAged(s, s.children[k], now, rules).house;
            forall j: nat | j <= k :: ShowsAge(house, s.children[j], now, rules)
  {
    hide IsChildFace; hide ChildAged; hide ChildEmoji; hide Age; hide At;
    ChildAgedAt(s, s.children[k], now, rules);
  }

  lemma StandingRaised(s: State)
    requires Standing(s)
    ensures Raised(s.house, s.children)
  {
  }

  lemma AgedNext(s: State, k: nat, now: int, rules: Rules)
    requires Standing(s) && k < |s.children| && AgedUpTo(s, k, now, rules)
    ensures var next := if Family.Stays(s, s.children[k], now, rules) then k + 1 else k;
            AgedUpTo(Keeping.AfterChild(s, k, now, rules), next, now, rules)
  {
    hide Standing; hide ChildAged; hide Family.Stays; hide Keeping.AfterChild; hide Raised; hide ShowsAge;
    ThereInHouse(s, k);
    StandingRaised(s);
    AgedOne(s, k, now, rules);
    AfterChildHouse(s, k, now, rules);
    AfterChildLeaves(s, k, now, rules);
  }

  lemma {:induction false} GrownAges(s: State, k: nat, now: int, rules: Rules)
    requires Standing(s) && k <= |s.children| && AgedUpTo(s, k, now, rules)
    ensures Aged(GrownFrom(s, k, now, rules), now, rules)
    decreases |s.children| - k
  {
    hide Standing; hide Settling.Step; hide ChildAged; hide Family.Stays; hide ShowsAge;
    if k == |s.children| {
      AgedAll(s, now, rules);
    } else {
      var u := Keeping.AfterChild(s, k, now, rules);
      Keeping.ChildSteps(s, k, now, rules, "");
      Settling.StandsAfter(s, u, true, 0, now, "");
      AgedNext(s, k, now, rules);
      GrownAges(u, if Family.Stays(s, s.children[k], now, rules) then k + 1 else k, now, rules);
    }
  }

  lemma AgedAll(s: State, now: int, rules: Rules)
    requires AgedUpTo(s, |s.children|, now, rules)
    ensures Aged(s, now, rules)
  {
    hide ShowsAge;
    forall child | child in s.children
      ensures ShowsAge(s.house, child, now, rules)
    {
      var j :| 0 <= j < |s.children| && s.children[j] == child;
    }
  }

  lemma {:induction false} CourtedHouse(s: State, k: nat, now: int, rules: Rules)
    requires k <= |s.children|
    ensures CourtedFrom(s, k, now, rules).house == s.house
    decreases |s.children| - k
  {
    hide Courted; hide Courts;
    if k < |s.children| {
      CourtedHouse(if Courts(s.children, s.children[k], now, rules) then Courted(s, k, now, rules) else s, k + 1, now, rules);
    }
  }

  lemma CourtedAges(s: State, now: int, rules: Rules)
    requires Aged(s, now, rules)
    ensures Aged(CourtedFrom(s, 0, now, rules), now, rules)
  {
    hide CourtedFrom; hide ChildEmoji; hide At;
    var t := CourtedFrom(s, 0, now, rules);
    CourtedHouse(s, 0, now, rules);
    CourtedSame(s, 0, now, rules);
    forall child | child in t.children
      ensures ShowsAge(t.house, child, now, rules)
    {
      var j :| 0 <= j < |t.children| && t.children[j] == child;
      assert ShowsAge(s.house, s.children[j], now, rules);
    }
  }

  // ---------------------------------------------------------------- births

  lemma BornInAges(s: State, mother: string, slot: nat, male: bool, now: int, rules: Rules)
    requires Aged(s, now, rules) && !IsChild(s.children, mother, slot)
    ensures Aged(BornIn(s, mother, slot, male, now), now, rules)
  {
    hide Put; hide ChildEmoji;
    PutAt(s.house, mother, slot, ChildEmoji(male, 0));
    var t := BornIn(s, mother, slot, male, now);
    forall child | child in t.children
      ensures ShowsAge(t.house, child, now, rules)
    {
      if child in s.children {
        assert ShowsAge(s.house, child, now, rules);
      } else {
        assert child == Child(mother, slot, male, now, false);
      }
    }
  }

  lemma BirthAges(s: State, mother: string, now: int, rules: Rules)
    requires Standing(s) && Aged(s, now, rules)
    ensures Aged(Birth(s, mother, now, rules), now, rules)
  {
    hide Standing; hide FreeSlot; hide Replaceable; hide Rolled; hide SlotsIn; hide BornIn; hide Roll; hide IsChild; hide ShowsAge;
    var t, male := Rolled(s), Roll(s, 2) == 0;
    AgedSame(s, t, now, rules);
    AgedSame(s, Rolled(t), now, rules);
    var free := FreeSlot(HouseSlots(t, mother), rules.furnitureLimit);
    var others := Replaceable(t, mother, |HouseSlots(t, mother)|);
    if free.Some? {
      Keeping.FreeSlotNoChild(s, mother, rules.furnitureLimit);
      BornInAges(t, mother, free.value, male, now, rules);
    } else if others != [] {
      var slot := others[Roll(t, |others|)];
      assert CanReplace(t, mother, slot);
      BornInAges(Rolled(t), mother, slot, male, now, rules);
    }
  }

  lemma AgedSame(s: State, t: State, now: int, rules: Rules)
    requires Aged(s, now, rules) && t.house == s.house && t.children == s.children
    ensures Aged(t, now, rules)
  {
    hide ShowsAge;
  }

  lemma {:induction false} BirthsAge(s: State, k: nat, now: int, rules: Rules)
    requires Standing(s) && k <= |s.pregnancies| && Aged(s, now, rules)
    ensures Aged(BirthsFrom(s, k, now, rules), now, rules)
    decreases |s.pregnancies| - k
  {
    hide Standing; hide Birth; hide Aged; hide Dropped; hide Settling.Step;
    if k < |s.pregnancies| {
      if s.pregnancies[k].due > now {
        BirthsAge(s, k + 1, now, rules);
      } else {
        var mother := s.pregnancies[k].mother;
        var t := Birth(s, mother, now, rules);
        var u := t.(pregnancies := Dropped(s.pregnancies, k));
        BirthAges(s, mother, now, rules);
        AgedSame(t, u, now, rules);
        Keeping.BirthSteps(s, mother, now, rules, "");
        Settling.StandsAfter(s, t, true, 0, now, "");
        Settling.QuietStep(t, u, 0, now, "");
        Settling.StandsAfter(t, u, true, 0, now, "");
        BirthsAge(u, k, now, rules);
      }
    }
  }

  // ---------------------------------------------------------------- the round

  lemma BeforeTheWalkAges(s: State, now: int, rules: Rules)
    requires Sound(s)
    ensures Aged(BeforeTheWalk(s, now, rules), now, rules)
  {
    hide Sound; hide Standing; hide Washed; hide LaidEggs; hide GrownFrom; hide CourtedFrom; hide BirthsFrom; hide Aged; hide Settling.Step;
    var a := LaidEggs(Washed(s, now), now, rules);
    EggsStand(s, now, rules);
    var b := GrownFrom(a, 0, now, rules);
    Keeping.GrownSteps(a, 0, now, rules, "");
    Settling.StandsAfter(a, b, true, 0, now, "");
    GrownAges(a, 0, now, rules);
    var c := CourtedFrom(b, 0, now, rules);
    Keeping.CourtedSteps(b, 0, now, rules, "");
    Settling.StandsAfter(b, c, true, 0, now, "");
    CourtedAges(b, now, rules);
    BirthsAge(c, 0, now, rules);
  }

  lemma SiftedAges(s: State, t: State, now: int, rules: Rules)
    requires Aged(s, now, rules) && Sifted(s, t)
    ensures Aged(t, now, rules)
  {
    hide ChildEmoji; hide FaceOf; hide Age;
    forall child | child in t.children
      ensures ShowsAge(t.house, child, now, rules)
    {
      assert ShowsAge(s.house, child, now, rules);
    }
  }

  /** After the keeper's round every child looks exactly its age, whatever landed, was boarded or was delivered in it. */
  lemma RoundAges(s: State, now: int, rules: Rules)
    requires Sound(s)
    ensures Aged(Round(s, now, rules), now, rules)
  {
    hide Sound; hide BeforeTheWalk; hide Walk; hide UnderWay; hide AllShown; hide Settling.Walked; hide Aged; hide Sifted;
    var t := BeforeTheWalk(s, now, rules);
    BeforeTheWalkAges(s, now, rules);
    Keeping.BeforeTheWalkKeeps(s, now, rules, "");
    SoundShown(t);
    var u := Walk(t, 0, now, rules);
    WalkSifts(t, 0, now, rules);
    SiftedAges(t, u, now, rules);
    AgedSame(u, Round(s, now, rules), now, rules);
  }

  // ---------------------------------------------------------------- any other transaction

  lemma FacesOn(s: State, t: State, u: State)
    requires SameFaces(s, t) && SameFaces(t, u) && t.children == s.children
    ensures SameFaces(s, u)
  {
    hide FaceOf;
  }

  lemma BuyFaces(s: State, player: string, emoji: string, position: int, cost: int, limit: nat, now: int, inflation: int)
    ensures var t := Buy(s, player, emoji, position, cost, limit, now, inflation); t.Done? ==> SameFaces(s, t.value)
  {
    hide GoneHome; hide BuyAnswer; hide SpotFor; hide Price; hide SameFaces; hide IsChild; hide Paying;
    SameHouseFaces(s, s);
    var u := GoneHome(s, player, now);
    if u.Done? {
      SameHouseFaces(s, u.value);
      if BuyAnswer(u.value, player, emoji, position, cost, limit, inflation) == Bought {
        var spot := SpotFor(u.value, player, emoji, position, limit);
        assert !spot.Refused? by { BoughtSpot(u.value, player, emoji, position, cost, limit, inflation); }
        PayingFaces(u.value, player, spot, emoji, Price(u.value, emoji, cost, inflation));
        FacesOn(s, u.value, Paying(u.value, player, spot, emoji, Price(u.value, emoji, cost, inflation)));
      }
    }
  }

  lemma BoughtSpot(s: State, player: string, emoji: string, position: int, cost: int, limit: nat, inflation: int)
    requires BuyAnswer(s, player, emoji, position, cost, limit, inflation) == Bought
    ensures !SpotFor(s, player, emoji, position, limit).Refused?
  {
    hide SpotFor; hide Price; hide WhereIs;
  }

  lemma PayingFaces(s: State, player: string, spot: Spot, emoji: string, price: int)
    requires !spot.Refused? && (spot.ToKeep? ==> !IsChild(s.children, player, spot.slot))
    ensures SameFaces(s, Paying(s, player, spot, emoji, price))
  {
    hide SameFaces; hide Replaced; hide IsChild; hide InHouse; hide OnHim;
    if spot.ToKeep? {
      OtherSlot(s, player, spot.slot, emoji);
      FacesOf(s, InHouse(s, player, spot.slot, emoji), Paying(s, player, spot, emoji, price));
    } else {
      SameHouseFaces(s, Paying(s, player, spot, emoji, price));
    }
  }

  lemma PutAcrossFaces(s: State, player: string, from: nat, to: nat)
    requires !IsChild(s.children, player, from)
    ensures SameFaces(s, PutAcross(s, player, from, to))
  {
    hide Put; hide At; hide SameFaces; hide IsChild;
    OtherSlot(s, player, from, At(s.gear, player, to));
    FacesOf(s, InHouse(s, player, from, At(s.gear, player, to)), PutAcross(s, player, from, to));
  }

  lemma TakeFaces(s: State, player: string, emoji: string, swap: string, now: int)
    ensures var t := Take(s, player, emoji, swap, now); t.Done? ==> SameFaces(s, t.value)
  {
    hide GoneHome; hide WhereIs; hide PutAcross; hide HouseLike; hide RoomOnHim; hide NamesChild; hide FirstLike; hide SameFaces;
    hide IsChild; hide Looks;
    var u := GoneHome(s, player, now);
    if u.Done? {
      SameHouseFaces(s, u.value);
      if TakeAnswer(u.value, player, emoji, swap) == GearStatus.Taken {
        var from, to := HouseLike(u.value, player, emoji, 0).value, RoomOnHim(u.value, player, swap).value;
        assert CanPart(u.value, player, from, emoji);
        PutAcrossFaces(u.value, player, from, to);
        FacesOn(s, u.value, PutAcross(u.value, player, from, to));
      }
    }
  }

  lemma StoreFaces(s: State, player: string, emoji: string, limit: nat, now: int)
    requires AllShown(s)
    ensures var t := Store(s, player, emoji, limit, now); t.Done? ==> SameFaces(s, t.value)
  {
    hide GoneHome; hide WhereIs; hide PutAcross; hide FreeSlot; hide FirstLike; hide SameFaces; hide AllShown; hide IsChild;
    var u := GoneHome(s, player, now);
    if u.Done? {
      SameHouseFaces(s, u.value);
      if StoreAnswer(u.value, player, emoji, limit) == Stored {
        var from, to := FreeSlot(HouseSlots(u.value, player), limit).value, FirstLike(GearSlots(u.value, player), emoji).value;
        FreeNoChild(s, u.value, player, from);
        PutAcrossFaces(u.value, player, from, to);
        FacesOn(s, u.value, PutAcross(u.value, player, from, to));
      }
    }
  }

  lemma FreeNoChild(s: State, t: State, player: string, slot: nat)
    requires AllShown(s) && t.house == s.house && t.children == s.children
    requires slot < |HouseSlots(t, player)| ==> HouseSlots(t, player)[slot] == ""
    ensures !IsChild(t.children, player, slot)
  {
    hide ChildEmoji;
    Faces();
    forall j | 0 <= j < |t.children| && t.children[j].owner == player
      ensures t.children[j].slot != slot
    {
      assert IsChildFace(FaceOf(s.house, t.children[j]));
    }
  }

  lemma SetOffFaces(s: State, player: string, target: string, load: Load, now: int, rules: Rules)
    ensures var t := SetOff(s, player, target, load, now, rules); t.Done? ==> SameFaces(s, t.value)
  {
    hide SameFaces; hide TakenFrom; hide OnMap; hide TravelTime;
    var a := Unhung(s, player, load.emoji);
    SameHouseFaces(s, s);
    TakenFaces(s, player, load.emoji);
    var b := OnMap(a, player);
    if b.Done? {
      var c := OnMap(b.value, target);
      if c.Done? {
        FacesOf(s, a, SetOff(s, player, target, load, now, rules).value);
      }
    }
  }

  lemma RaidStartFaces(s: State, userId: int, player: string, known: Option<string>, homewards: bool, load: Load, now: int,
                       rules: Rules)
    ensures var t := RaidStart(s, userId, player, known, homewards, load, now, rules); t.Done? ==> SameFaces(s, t.value)
  {
    hide Remembered; hide RaidAnswer; hide Homewards; hide SetOff; hide PickedUp; hide IsLate; hide SameFaces;
    var u := s.(names := Remembered(s.names, player, userId));
    var t := PickedUp(u, player, load.gift);
    SameHouseFaces(s, u);
    assert t.house == s.house && t.children == s.children by { PickedUpHouse(u, player, load.gift); }
    SameHouseFaces(s, t);
    if homewards {
      HomewardsFaces(u, player, now);
      if Homewards(u, player, now).Done? {
        FacesOn(s, u, Homewards(u, player, now).value);
      }
    } else if RaidAnswer(s, player, known, homewards, load, now, rules) == Started {
      SetOffFaces(t, player, known.value, load, now, rules);
      if SetOff(t, player, known.value, load, now, rules).Done? {
        FacesOn(s, t, SetOff(t, player, known.value, load, now, rules).value);
      }
    }
  }

  lemma PickedUpHouse(s: State, player: string, gift: int)
    ensures var t := PickedUp(s, player, gift); t.house == s.house && t.children == s.children
  {
    hide PickedUp;
  }

  lemma HomewardsFaces(s: State, player: string, now: int)
    ensures var t := Homewards(s, player, now); t.Done? ==> SameFaces(s, t.value)
  {
    hide Homewards;
  }

  lemma ClaimFaces(s: State, userId: int, player: string, now: int, rules: ClaimRules)
    ensures var t := Claim(s, userId, player, now, rules); t.Done? ==> t.value.house == s.house
  {
    hide Ready; hide SentAway; hide Met; hide MovedIn;
    var t := Ready(s, userId, player);
    if HolderThere(t) {
      MetFaces(t, userId, player, now, rules);
    }
  }

  lemma MetFaces(s: State, userId: int, player: string, now: int, rules: ClaimRules)
    requires s.current.Some?
    ensures var t := Met(s, userId, player, now, rules); t.Done? ==> t.value.house == s.house
  {
    hide IsStopped; hide AfterBalloon; hide Penalized; hide SettledHold; hide MovedIn;
  }

  lemma HandedFaces(s: State, player: string, limit: nat)
    requires AllShown(s)
    ensures var t := BalloonHanded(s, player, limit); t.Some? ==> SameFaces(s, t.value) && t.value.children == s.children
  {
    hide PutOn; hide PutInHouse; hide SameFaces; hide AllShown; hide Sifted;
    PutOnSifts(s, player, BALLOON);
    PutInHouseSifts(s, player, BALLOON, limit);
    var t := BalloonHanded(s, player, limit);
    if t.Some? {
      SiftedFaces(s, t.value);
    }
  }

  lemma GreetedFaces(s: State, player: string, limit: nat)
    requires AllShown(s)
    ensures SameFaces(s, Greeted(s, player, limit))
  {
    hide HasBalloon; hide BalloonHanded; hide SameFaces; hide AllShown; hide Tell;
    var t := s.(welcomed := s.welcomed[player := 1]);
    SameHouseFaces(s, s);
    SameHouseFaces(s, t);
    ShownStill(s, t);
    HandedFaces(t, player, limit);
    var handed := BalloonHanded(t, player, limit);
    if handed.Some? {
      FacesOf(t, handed.value, Tell(handed.value, Came(BALLOON)));
      FacesOn(s, t, Tell(handed.value, Came(BALLOON)));
    }
  }

  lemma SiftedFaces(s: State, t: State)
    requires Sifted(s, t) && t.children == s.children
    ensures SameFaces(s, t)
  {
    hide FaceOf;
  }

  lemma SeenFaces(s: State, userId: int, username: string, account: string, candidate: Option<string>, limit: nat, now: int,
                  today: int)
    requires AllShown(s)
    ensures SameFaces(s, Seen(s, userId, username, account, candidate, limit, now, today))
  {
    hide PlatformKey; hide BoundTo; hide Called; hide FirstSeen; hide Greeted; hide DayCounted; hide AllShown; hide SameFaces; hide Sifted;
    var mine := PlatformKey(userId, username, account);
    var accounts := BoundTo(s, mine, candidate);
    var key := accounts[mine];
    var t := FirstSeen(s.(names := Called(s.names.(accounts := accounts), key, userId, username)), key, now);
    SameHouseSifts(s, t);
    SiftedShown(s, t);
    SameHouseFaces(s, t);
    GreetedFaces(t, key, limit);
    FacesOf(t, Greeted(t, key, limit), DayCounted(Greeted(t, key, limit), key, now, today));
    FacesOn(s, t, DayCounted(Greeted(t, key, limit), key, now, today));
  }

  lemma {:induction false} HandedOutFaces(s: State, players: seq<string>, limit: nat)
    requires AllShown(s)
    ensures SameFaces(s, HandedOut(s, players, limit))
  {
    hide Greeted; hide SameFaces; hide AllShown;
    if players == [] {
      SameHouseFaces(s, s);
    } else {
      var t := HandedOut(s, players[..|players| - 1], limit);
      HandedOutFaces(s, players[..|players| - 1], limit);
      HandedOutSpares(s, players[..|players| - 1], limit);
      ShownStill(s, t);
      GreetedFaces(t, players[|players| - 1], limit);
      FacesOn(s, t, HandedOut(s, players, limit));
    }
  }

  lemma ShownStill(s: State, t: State)
    requires AllShown(s) && SameFaces(s, t) && t.children == s.children
    ensures AllShown(t)
  {
    hide IsChildFace; hide FaceOf;
  }

  lemma MergedFaces(s: State, names: Names, secondary: string)
    requires forall child | child in s.children :: child.owner != secondary
    ensures SameFaces(s, Merged(s, names, secondary))
  {
  }

  lemma MadeOneFaces(s: State, mine: string, theirs: string)
    requires Sound(s) && mine in s.names.accounts && theirs in s.names.accounts
    requires !(HasAssets(s, s.names.accounts[mine]) && HasAssets(s, s.names.accounts[theirs]))
    ensures SameFaces(s, MadeOne(s, mine, theirs))
  {
    hide Sound; hide MergedNames; hide HasAssets; hide Merged; hide SameFaces;
    var myKey, otherKey := s.names.accounts[mine], s.names.accounts[theirs];
    var primary, secondary := Primary(s, myKey, otherKey), Secondary(s, myKey, otherKey);
    NobodyThere(s, secondary);
    MergedFaces(s, MergedNames(s.names, mine, theirs, primary, secondary), secondary);
  }

  lemma NobodyThere(s: State, key: string)
    requires Sound(s) && !HasAssets(s, key)
    ensures forall child | child in s.children :: child.owner != key
  {
    hide Sound; hide Owned; hide OnlyWelcome; hide RidesFor;
    NoChildren(s, key);
  }

  lemma LinkFaces(s: State, mine: string, userId: int, other: Option<string>)
    requires Sound(s)
    ensures var t := Linking.Link(s, mine, userId, other); t.Done? ==> SameFaces(s, t.value)
  {
    hide *;
    var t, theirs := Linking.Link(s, mine, userId, other), Named(s, userId, other);
    SameHouseFaces(s, s);
    if mine !in s.names.accounts {
      NotSeen(s, mine, userId, other);
    } else {
      LinkDoes(s, mine, userId, other);
      if t == Done(s) {
      } else if theirs.Some? && t == Done(Asked(s, mine, theirs.value)) {
        SameHouseFaces(s, Asked(s, mine, theirs.value));
      } else if theirs.Some? && theirs.value in s.names.accounts {
        OneHasNothing(s, mine, userId, theirs.value);
        MadeOneFaces(s, mine, theirs.value);
      }
    }
  }

  lemma OneHasNothing(s: State, mine: string, userId: int, theirs: string)
    requires mine in s.names.accounts && theirs in s.names.accounts && LinkAnswer(s, mine, userId, Some(theirs)) == Linked
    ensures !(HasAssets(s, s.names.accounts[mine]) && HasAssets(s, s.names.accounts[theirs]))
  {
    hide HasAssets; hide AnotherLinked;
  }

  lemma MovedFaces(s: State, player: string, from: int, to: int, limit: nat, now: int, child: Child)
    ensures var t := Move(s, player, from, to, limit, now);
            t.Done? ==> FaceOf(t.value.house, Children.Placed(s, player, from, to, limit, now, child)) == FaceOf(s.house, child)
  {
    hide GoneHome; hide MoveAnswer; hide Rearranged; hide Move; hide At;
    var t := GoneHome(s, player, now);
    MoveMeans(s, player, from, to, limit, now);
    HomeHouse(s, player, now);
    if from != to && t.Done? && MoveAnswer(t.value, player, from, to, limit) == Moved {
      RearrangedAt(t.value, player, from - 1, to - 1);
    }
  }

  lemma HomeHouse(s: State, player: string, now: int)
    ensures var t := GoneHome(s, player, now); t.Done? ==> t.value.house == s.house
  {
    hide GoneHome;
  }

  lemma SiftedFace(s: State, t: State, child: Child)
    requires Sifted(s, t) && IsAmong(t.children, child)
    ensures FaceOf(t.house, child) == FaceOf(s.house, child)
  {
    hide At;
    var j :| 0 <= j < |t.children| && IsSame(child, t.children[j]);
    assert t.children[j] in t.children;
  }

  lemma AmongFace(s: State, t: State, child: Child)
    requires SameFaces(s, t) && IsAmong(s.children, child)
    ensures FaceOf(t.house, child) == FaceOf(s.house, child)
  {
    hide At;
    var j :| 0 <= j < |s.children| && IsSame(child, s.children[j]);
    assert s.children[j] in s.children;
  }

  lemma ThrownFace(s: State, player: string, emoji: string, now: int, rules: Rules, child: Child)
    requires AllShown(s)
    ensures var t := Burning.ThrownAtPlace(Burning.Gone(s, player, emoji), player, emoji, now, rules);
            IsAmong(t.children, child) ==> FaceOf(t.house, child) == FaceOf(s.house, child)
  {
    hide Burning.Gone; hide Burning.ThrownAtPlace; hide Sifted; hide IsAmong; hide AllShown; hide FaceOf; hide NoOver;
    var t := Burning.Gone(s, player, emoji);
    var u := Burning.ThrownAtPlace(t, player, emoji, now, rules);
    GoneSifts(s, player, emoji);
    SiftedShown(s, t);
    ThrownAtPlaceSifts(t, player, emoji, now, rules);
    SiftedOn(s, t, u);
    if IsAmong(u.children, child) {
      SiftedFace(s, u, child);
    }
  }

  lemma BurntFace(s: State, k: nat, child: Child)
    requires Raised(s.house, s.children) && k < |s.children|
    ensures var t := Burning.BurntChild(s, k); IsAmong(t.children, child) ==> FaceOf(t.house, child) == FaceOf(s.house, child)
  {
    hide Put; hide IsChildFace;
    PutAt(s.house, s.children[k].owner, s.children[k].slot, "");
    var t := Burning.BurntChild(s, k);
    if IsAmong(t.children, child) {
      var j :| 0 <= j < |t.children| && IsSame(child, t.children[j]);
      assert t.children[j] == if j < k then s.children[j] else s.children[j + 1];
    }
  }

  lemma BurnFace(s: State, player: string, emoji: string, now: int, rules: Rules, destroy: bool, child: Child)
    requires Sound(s) && IsAmong(s.children, child)
    ensures var t := Burning.Burn(s, player, emoji, now, rules, destroy);
            t.Done? && IsAmong(t.value.children, child) ==> FaceOf(t.value.house, child) == FaceOf(s.house, child)
  {
    hide Sound; hide IsAmong; hide Burning.Gone; hide Finding; hide LostBolts; hide Burning.FirstChildLike; hide Burning.BurntChild;
    hide Burning.ThrownAtPlace; hide Burning.StartedAgain; hide IsPower; hide Burning.BurnAnswer; hide AllShown; hide SameFaces; hide FaceOf;
    hide NoOver; hide Raised; hide Sifted;
    var burned := Burning.FirstChildLike(s, player, emoji, 0);
    if Finding(s, player, emoji) == Nowhere {
      if burned.Some? {
        RaisedThere(s);
        BurntFace(s, burned.value, child);
      }
    } else {
      var t := Burning.Gone(s, player, emoji);
      SoundShown(s);
      GoneSifts(s, player, emoji);
      GoneStays(s, player, emoji);
      SiftedFaces(s, t);
      AmongFace(s, t, child);
      ThrownFace(s, player, emoji, now, rules, child);
      AgainTold(s, player, emoji);
      NoneAmong(child);
    }
  }

  lemma GoneStays(s: State, player: string, emoji: string)
    ensures Burning.Gone(s, player, emoji).children == s.children
  {
    hide Burning.Gone;
  }

  lemma PaperFaces(s: State, command: Command)
    requires command.DestroyPalle? || command.RecordInvite? || command.SettleInvite? || command.AddQuote? || command.DeleteQuote?
    ensures Next(s, command).house == s.house
  {
    hide Burning.BurnPalle; hide InviteDue; hide Linking.RecordInvite; hide Quoting.AddQuote; hide Quoting.DeleteQuote;
  }

  lemma RoundFace(s: State, now: int, rules: Rules, child: Child)
    requires Sound(s)
    ensures var t := Round(s, now, rules); IsAmong(t.children, child) ==> ShowsAge(t.house, child, now, rules)
  {
    hide Sound; hide Round; hide ChildEmoji; hide At;
    RoundAges(s, now, rules);
    var t := Round(s, now, rules);
    if IsAmong(t.children, child) {
      var j :| 0 <= j < |t.children| && IsSame(child, t.children[j]);
      assert ShowsAge(t.house, t.children[j], now, rules);
    }
  }

  /** Whatever the transaction, a child that is not lost shows what it showed, where it is now; after the keeper's round it shows
      its age. */
  lemma NextFace(s: State, command: Command, child: Child)
    requires Sound(s) && IsAmong(s.children, child) && !IsLost(s, command, child)
    ensures var t, moved := Next(s, command), Follows(s, command, child);
            && IsAmong(t.children, moved)
            && if command.KeepRound? then ShowsAge(t.house, moved, command.now, command.rules)
               else FaceOf(t.house, moved) == FaceOf(s.house, child)
  {
    hide Sound; hide IsAmong; hide Claim; hide RaidStart; hide Buy; hide Move; hide Take; hide Store; hide Burning.Burn; hide Burning.BurnPalle;
    hide Seen; hide Linking.Link; hide InviteDue; hide Family.Round; hide Linking.RecordInvite; hide HandedOut; hide IsLost;
    hide Quoting.AddQuote; hide Quoting.DeleteQuote; hide FaceOf; hide SameFaces; hide AllShown; hide ShowsAge; hide Children.Placed;
    NextChildren(s, command, child);
    SoundShown(s);
    SameHouseFaces(s, s);
    AmongFace(s, s, child);
    var t := Next(s, command);
    match command
    case KeepRound(now, rules) => RoundFace(s, now, rules, child);
    case MoveEmoji(player, from, to, limit, now) =>
      MovedFaces(s, player, from, to, limit, now, child);
      MoveAbandoned(s, player, from, to, limit, now, child);
    case BurnEmoji(player, emoji, now, rules, destroy) => BurnFace(s, player, emoji, now, rules, destroy, child);
    case _ =>
      NextFaces(s, command);
      AmongFace(s, t, child);
  }

  lemma MoveAbandoned(s: State, player: string, from: int, to: int, limit: nat, now: int, child: Child)
    requires IsAmong(s.children, child)
    ensures Move(s, player, from, to, limit, now).Abandoned? ==> Children.Placed(s, player, from, to, limit, now, child) == child
  {
    hide Move; hide Children.Placed; hide IsAmong;
    MovedChildren(s, player, from, to, limit, now, child);
  }

  lemma NextFaces(s: State, command: Command)
    requires Sound(s) && !command.KeepRound? && !command.MoveEmoji? && !command.BurnEmoji?
    ensures SameFaces(s, Next(s, command))
  {
    hide Sound; hide Claim; hide RaidStart; hide Buy; hide Take; hide Store; hide Burning.BurnPalle;
    hide Seen; hide Linking.Link; hide InviteDue; hide Linking.RecordInvite; hide HandedOut;
    hide Quoting.AddQuote; hide Quoting.DeleteQuote; hide SameFaces; hide AllShown;
    SoundShown(s);
    SameHouseFaces(s, s);
    match command
    case ClaimPlace(userId, player, now, claims) =>
      ClaimFaces(s, userId, player, now, claims);
      SameHouseFaces(s, Next(s, command));
    case StartRaid(userId, player, known, homewards, load, now, rules) =>
      RaidStartFaces(s, userId, player, known, homewards, load, now, rules);
    case BuyEmoji(player, emoji, position, cost, limit, now, inflation) =>
      BuyFaces(s, player, emoji, position, cost, limit, now, inflation);
    case TakeGear(player, emoji, swap, now) => TakeFaces(s, player, emoji, swap, now);
    case StoreGear(player, emoji, limit, now) => StoreFaces(s, player, emoji, limit, now);
    case BeSeen(userId, username, account, candidate, limit, now, today) =>
      SeenFaces(s, userId, username, account, candidate, limit, now, today);
    case LinkAccounts(mine, userId, other) => LinkFaces(s, mine, userId, other);
    case HandOutBalloons(players, limit) => HandedOutFaces(s, players, limit);
    case _ =>
      PaperFaces(s, command);
      SameHouseFaces(s, Next(s, command));
  }
}
