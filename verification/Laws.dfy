/** What every transaction keeps: the laws of the game, on the whole state. */
module Laws {
  import opened Basics
  import opened Powers
  import opened Places
  import opened World
  import Position

  /** Nobody owes palle. */
  ghost predicate Solvent(scores: map<string, int>) {
    forall player | player in scores :: scores[player] >= 0
  }

  /** A ride brings back no less than nothing, and its road home is as long as it takes at the least. */
  ghost predicate RideSound(raid: Raid) {
    && raid.loot >= 0 && raid.gift >= 0
    && (!raid.arrived ==> raid.loot == 0 && raid.back - raid.arrive >= Position.SHORTEST)
  }

  ghost predicate RidesSound(raids: seq<Raid>) {
    forall j | 0 <= j < |raids| :: RideSound(raids[j])
  }

  /** Everybody is in one place only: he rides once, and whoever holds the place does not ride. */
  ghost predicate OnePlace(raids: seq<Raid>, current: Option<Holder>) {
    && (forall j, k | 0 <= j < k < |raids| :: raids[j].raider != raids[k].raider)
    && (current.Some? ==> !IsRiding(raids, current.value.username))
  }

  /** Everybody on the map lives at a point of his own, and whoever rides is on the map, as is where he rides to. */
  ghost predicate Mapped(ids: map<string, int>, raids: seq<Raid>) {
    && (forall player | player in ids :: 0 <= ids[player] < Position.IDS)
    && (forall p, q | p in ids && q in ids && p != q :: ids[p] != ids[q])
    && (forall j | 0 <= j < |raids| :: raids[j].raider in ids && raids[j].target in ids)
  }

  /** Nobody has more than five slots on him. */
  ghost predicate Housed(house: Place, gear: Place) {
    && Tidy(house) && Tidy(gear)
    && forall player :: |SlotsIn(gear, player)| <= CARRIED_LIMIT
  }

  /** Each child has a slot of its own, which holds a child. */
  ghost predicate Raised(house: Place, children: seq<Child>) {
    && (forall j | 0 <= j < |children| :: IsChildFace(At(house, children[j].owner, children[j].slot)))
    && (forall j, k | 0 <= j < k < |children| ::
          children[j].owner != children[k].owner || children[j].slot != children[k].slot)
  }

  /** The percent of a hold is made of as many equal shares as it has bolts. */
  ghost predicate HoldSound(hold: Holder) {
    && hold.bolts >= 0 && hold.banked >= 0
    && (hold.bolts == 0 ==> hold.percent == 0)
    && (hold.bolts > 0 ==> hold.percent > 100 && (hold.percent - 100) % hold.bolts == 0)
  }

  /** The bolts a hold is paid for are the ones the holder shows. */
  ghost predicate Holding(current: Option<Holder>, gear: Place) {
    current.Some? ==>
      && HoldSound(current.value)
      && (current.value.bolts > 0 ==> current.value.bolts == CountPower(ShownGear(current, gear, current.value.username), Bolt))
  }

  /** Every law but the one on bolts, which is mended last. */
  ghost predicate Standing(s: State) {
    && Solvent(s.scores)
    && RidesSound(s.raids) && OnePlace(s.raids, s.current) && Mapped(s.ids, s.raids)
    && Housed(s.house, s.gear)
    && Raised(s.house, s.children)
  }

  ghost predicate Sound(s: State) {
    Standing(s) && Holding(s.current, s.gear)
  }

  predicate IsHolder(current: Option<Holder>, player: string) {
    current.Some? && current.value.username == player
  }

  // ---------------------------------------------------------------- what small changes keep

  /** A holder shows the same bolts as long as he has the same on him. */
  lemma HoldingSame(current: Option<Holder>, gear: Place, gear': Place)
    requires Holding(current, gear)
    requires current.Some? ==> SlotsIn(gear', current.value.username) == SlotsIn(gear, current.value.username)
    ensures Holding(current, gear')
  {
    hide CountPower;
    hide IsLobster;
    if current.Some? {
      assert ShownGear(current, gear', current.value.username) == ShownGear(current, gear, current.value.username);
    }
  }

  /** A slot of a house that is no child's may hold anything else. */
  lemma HousePut(house: Place, gear: Place, children: seq<Child>, player: string, slot: nat, emoji: string)
    requires Housed(house, gear) && Raised(house, children)
    requires !IsChild(children, player, slot)
    ensures Housed(Put(house, player, slot, emoji), gear)
    ensures Raised(Put(house, player, slot, emoji), children)
  {
    hide IsChildFace;
    PutAt(house, player, slot, emoji);
  }

  /** One of the five slots on somebody may hold anything else; if he holds the place, his bolts are counted anew. */
  lemma GearPut(house: Place, gear: Place, current: Option<Holder>, player: string, slot: nat, emoji: string)
    requires Housed(house, gear) && slot < CARRIED_LIMIT
    ensures Housed(house, Put(gear, player, slot, emoji))
    ensures Holding(current, gear) && !IsHolder(current, player) ==> Holding(current, Put(gear, player, slot, emoji))
  {
    PutAt(gear, player, slot, emoji);
    if Holding(current, gear) && !IsHolder(current, player) {
      HoldingSame(current, gear, Put(gear, player, slot, emoji));
    }
    forall q
      ensures |SlotsIn(Put(gear, player, slot, emoji), q)| <= CARRIED_LIMIT
    {
      assert |SlotsIn(gear, q)| <= CARRIED_LIMIT;
    }
  }

  /** What is empty, or has a power, is no child's. */
  lemma NoChildThere(house: Place, children: seq<Child>, player: string, slot: nat)
    requires Raised(house, children)
    requires At(house, player, slot) == "" || PowerOf(At(house, player, slot)).Some?
    ensures !IsChild(children, player, slot)
  {
    hide PowerOf;
    hide ChildEmoji;
    Faces();
  }

  // ---------------------------------------------------------------- what a transaction keeps

  /** A transaction keeps the laws, and tells whatever comes into the game or leaves it. */
  ghost predicate Plays(s: State, t: State, face: string) {
    Sound(t) && Accounted(s, t, 0, 0, face)
  }

  lemma PlaysOn(s: State, t: State, u: State, face: string)
    requires Plays(s, t, face) && Plays(t, u, face)
    ensures Plays(s, u, face)
  {
    hide Sound; hide Books; hide EmojiBooks;
  }

  /** Whatever the ledgers and the laws do not speak of may change. */
  lemma QuietPlay(s: State, t: State, face: string)
    requires Sound(s)
    requires t == s.(balloons := t.balloons, cooldowns := t.cooldowns, smeared := t.smeared, frozen := t.frozen,
                     pregnancies := t.pregnancies, eggsAt := t.eggsAt, knocks := t.knocks, welcomed := t.welcomed,
                     joined := t.joined, entered := t.entered, names := t.names, invites := t.invites,
                     quotes := t.quotes, luck := t.luck)
    ensures Plays(s, t, face)
  {
    hide Solvent; hide RidesSound; hide OnePlace; hide Mapped; hide Housed; hide Raised; hide Holding; hide Palle; hide Stock;
  }

  lemma PlayedSound(s: State, t: State, face: string)
    requires Plays(s, t, face)
    ensures Sound(t)
  {
  }

  lemma SoundSolvent(s: State)
    requires Sound(s)
    ensures Solvent(s.scores)
  {
  }

  lemma SoundTidy(s: State)
    requires Sound(s)
    ensures Tidy(s.house) && Tidy(s.gear)
  {
  }

  lemma UnplayedSound(luck: seq<nat>)
    ensures Sound(Unplayed(luck))
  {
  }
}
