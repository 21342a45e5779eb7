/** src/game.cpp: exactly which emoji can be bought without two slots ever becoming one. */
module Merging {
  import opened Basics
  import opened Emoji
  import opened Slots
  import opened Powers
  import opened Ledger
  import opened Places
  import opened World
  import opened Laws
  import opened Holds
  import opened Household
  import Runs
  import Filing
  import Neighbours

  // ---------------------------------------------------------------- the slots as they are on file

  /** Every player's slots, read from the string they are stored as. */
  function OnFile(place: Place): Place {
    map player | player in place :: Read(Slots.Stored(place[player]))
  }

  function Reread(s: State): State {
    s.(house := OnFile(s.house), gear := OnFile(s.gear))
  }

  /** A run that keeps nothing but the strings from one transaction to the next. */
  ghost function RunOnFile(s: State, commands: seq<Runs.Command>): State {
    if commands == [] then s
    else Reread(Runs.Next(RunOnFile(s, commands[..|commands| - 1]), commands[|commands| - 1]))
  }

  lemma RereadSame(s: State)
    requires Filing.Filed(s) && Sound(s)
    ensures Reread(s) == s
  {
    hide Sound; hide Read; hide Slots.Stored; hide Filing.Clean; hide Tidy;
    SoundTidy(s);
    Filing.FiledClean(s);
    SamePlaceOnFile(s.house);
    SamePlaceOnFile(s.gear);
  }

  lemma SamePlaceOnFile(place: Place)
    requires Filing.Clean(place) && Tidy(place)
    ensures OnFile(place) == place
  {
    hide Read; hide Slots.Stored; hide Filing.Clean; hide Tidy;
    forall player | player in place
      ensures Read(Slots.Stored(place[player])) == place[player]
    {
      Filing.CleanReads(place, player);
    }
  }

  /** From any lawful state whose strings read back, as long as the emoji that are bought and carried are closed, it does not matter
      that the game keeps only strings. */
  lemma {:induction false} RunsTheSame(s: State, commands: seq<Runs.Command>)
    requires Sound(s) && Filing.Filed(s) && forall k | 0 <= k < |commands| :: Runs.IsSensible(commands[k])
    ensures RunOnFile(s, commands) == Runs.Run(s, commands)
  {
    hide Sound; hide Runs.Next; hide Runs.IsSensible; hide Filing.Filed; hide Reread; hide Plays;
    if commands != [] {
      RunsTheSame(s, commands[..|commands| - 1]);
      Filing.RunFiled(s, commands);
      Runs.RunKeeps(s, commands, "");
      PlayedSound(s, Runs.Run(s, commands), "");
      RereadSame(Runs.Run(s, commands));
    }
  }

  /** From the first day on. */
  lemma RunsTheSameFromNothing(luck: seq<nat>, commands: seq<Runs.Command>)
    requires forall k | 0 <= k < |commands| :: Runs.IsSensible(commands[k])
    ensures RunOnFile(Unplayed(luck), commands) == Runs.Run(Unplayed(luck), commands)
  {
    hide Sound; hide Filing.Filed; hide Runs.IsSensible; hide RunOnFile; hide Runs.Run;
    Filing.NothingFiled(luck);
    UnplayedSound(luck);
    RunsTheSame(Unplayed(luck), commands);
  }

  // ---------------------------------------------------------------- a run that breaks

  function Buying(emoji: string, position: int): Runs.Command {
    Runs.BuyEmoji("a", emoji, position, 0, 4, 0, 0)
  }

  ghost predicate Idle(s: State) {
    s.current.None? && s.raids == [] && s.children == [] && Counter(s.scores, "a") == 0
  }

  lemma AtHomeIdle(s: State)
    requires Idle(s)
    ensures WhereIs(s, "a") == AtHome && GoneHome(s, "a", 0) == Done(s)
  {
  }

  lemma FreeForAll(s: State, emoji: string)
    ensures Price(s, emoji, 0, 0) == 0
  {
    hide Stock;
  }

  lemma BoughtSpot(s: State, emoji: string, position: int)
    requires Idle(s) && 1 <= position <= 4 && |HouseSlots(s, "a")| == position - 1
    ensures SpotFor(s, "a", emoji, position, 4) == ToKeep(position - 1)
  {
    hide SameEmoji;
  }

  lemma BuyingPuts(s: State, emoji: string, position: int)
    requires Idle(s) && 1 <= position <= 4 && |HouseSlots(s, "a")| == position - 1
    ensures var t := Runs.Next(s, Buying(emoji, position)); Idle(t) && t.house == Put(s.house, "a", position - 1, emoji)
  {
    hide SpotFor; hide GoneHome; hide Price; hide WhereIs; hide Put; hide Replaced;
    AtHomeIdle(s);
    FreeForAll(s, emoji);
    BoughtSpot(s, emoji, position);
  }

  /** The emoji are bought one after the other, each for the slot after the one before. */
  function BuyingAll(slots: seq<string>): (commands: seq<Runs.Command>)
    ensures |commands| == |slots|
  {
    if slots == [] then [] else BuyingAll(slots[..|slots| - 1]) + [Buying(slots[|slots| - 1], |slots|)]
  }

  function HouseOf(slots: seq<string>): Place {
    if slots == [] then map[] else map["a" := slots]
  }

  lemma PutNext(slots: seq<string>, emoji: string)
    requires emoji != ""
    ensures Put(HouseOf(slots), "a", |slots|, emoji) == HouseOf(slots + [emoji])
  {
    var grown := Grown(SlotsIn(HouseOf(slots), "a"), |slots| + 1);
    assert grown[|slots| := emoji] == slots + [emoji];
    assert Stripped(slots + [emoji]) == slots + [emoji];
  }

  lemma {:induction false} AllThere(luck: seq<nat>, slots: seq<string>)
    requires |slots| <= 4 && NoneEmpty(slots)
    ensures var t := Runs.Run(Unplayed(luck), BuyingAll(slots)); Idle(t) && t.house == HouseOf(slots)
  {
    hide Runs.Next; hide Put; hide Buying;
    if slots != [] {
      var front, last := slots[..|slots| - 1], slots[|slots| - 1];
      AllThere(luck, front);
      var commands := BuyingAll(slots);
      assert commands[..|commands| - 1] == BuyingAll(front);
      var t := Runs.Run(Unplayed(luck), BuyingAll(front));
      BuyingPuts(t, last, |slots|);
      PutNext(front, last);
      assert front + [last] == slots;
    }
  }

  lemma HouseFilled(slots: seq<string>)
    ensures SlotsIn(HouseOf(slots), "a") == slots
  {
  }

  /** Half a flag is bought, then the other half beside it: two slots that are read back as one. */
  lemma HalvesMerge(luck: seq<nat>)
    ensures exists one: string, other: string ::
              && Split(one) == Some([one]) && Split(other) == Some([other])
              && var slots := HouseSlots(Runs.Run(Unplayed(luck), BuyingAll([one, other])), "a");
                 |slots| == 2 && |Read(Slots.Stored(slots))| == 1
  {
    hide Read; hide Slots.Stored; hide Split; hide Runs.Run; hide BuyingAll; hide HouseOf;
    Neighbours.HalvesMeet();
    var one, other :| Split(one) == Some([one]) && Split(other) == Some([other]) && Read(Slots.Stored([one, other])) == [one + other];
    Neighbours.SingleUnbroken(one);
    Neighbours.SingleUnbroken(other);
    AllThere(luck, [one, other]);
    HouseFilled([one, other]);
  }

  // ---------------------------------------------------------------- exactly the closed ones

  /** Besides the emoji in question, only closed ones are bought and carried. */
  predicate Allows(emoji: string, command: Runs.Command) {
    Runs.IsModest(command) && (Runs.IsPlain(command) || (command.BuyEmoji? && command.emoji == emoji))
  }

  ghost predicate ReadsBack(s: State, player: string) {
    Read(Slots.Stored(HouseSlots(s, player))) == HouseSlots(s, player)
  }

  ghost predicate AllAllowed(emoji: string, commands: seq<Runs.Command>) {
    forall k | 0 <= k < |commands| :: Allows(emoji, commands[k])
  }

  /** A single emoji can be bought in any run, and every house is still read back, exactly when it is closed. */
  lemma SafeToBuy(luck: seq<nat>, emoji: string)
    requires Split(emoji) == Some([emoji])
    ensures Closed(emoji) <==>
              forall commands: seq<Runs.Command>, player: string | AllAllowed(emoji, commands) ::
                ReadsBack(Runs.Run(Unplayed(luck), commands), player)
  {
    hide Closed; hide Split; hide Runs.Run; hide ReadsBack; hide AllAllowed;
    if Closed(emoji) {
      forall commands: seq<Runs.Command>, player: string | AllAllowed(emoji, commands)
        ensures ReadsBack(Runs.Run(Unplayed(luck), commands), player)
      {
        AllSafe(luck, emoji, commands, player);
      }
    } else {
      var commands := SomeMerge(luck, emoji);
      assert AllAllowed(emoji, commands) && !ReadsBack(Runs.Run(Unplayed(luck), commands), "a");
    }
  }

  lemma AllSafe(luck: seq<nat>, emoji: string, commands: seq<Runs.Command>, player: string)
    requires Closed(emoji) && AllAllowed(emoji, commands)
    ensures ReadsBack(Runs.Run(Unplayed(luck), commands), player)
  {
    hide Closed; hide Runs.Run; hide Read; hide Slots.Stored; hide Runs.IsModest;
    Filing.AlwaysReadsBack(luck, commands, player);
  }

  lemma {:induction false} BuyingAllowed(emoji: string, slots: seq<string>)
    requires Neighbours.ClosedBut(slots, emoji)
    ensures AllAllowed(emoji, BuyingAll(slots))
  {
    hide Fits;
    if slots != [] {
      BuyingAllowed(emoji, slots[..|slots| - 1]);
    }
  }

  lemma SomeMerge(luck: seq<nat>, emoji: string) returns (commands: seq<Runs.Command>)
    requires Split(emoji) == Some([emoji]) && !Closed(emoji)
    ensures AllAllowed(emoji, commands) && !ReadsBack(Runs.Run(Unplayed(luck), commands), "a")
  {
    hide Split; hide Closed; hide Read; hide Slots.Stored; hide Runs.Run; hide BuyingAll; hide AllAllowed; hide HouseOf;
    var slots := Neighbours.SomeBreak(emoji);
    commands := BuyingAll(slots);
    BuyingAllowed(emoji, slots);
    AllThere(luck, slots);
    HouseFilled(slots);
  }
}
