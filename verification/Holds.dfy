/** src/game.cpp: what holding @TheConquister37 is worth, paid when the hold ends. */
module Holds {
  import opened Basics
  import opened Powers
  import opened Ledger
  import opened World

  // ---------------------------------------------------------------- a hold

  /** The instant a hold was last counted up to. */
  function CountedTo(hold: Holder): int {
    Max(hold.since, hold.countedFrom)
  }

  /** So many seconds at so many percent; no percent is a palla a second. */
  function Worth(seconds: int, percent: int): int {
    if percent > 100 then seconds * percent / 100 else seconds
  }

  /** hold_value: what the hold made since it was last counted. More than the machine can multiply is refused. */
  function Earned(hold: Holder, now: int): Result<int> {
    var seconds := Max(now - CountedTo(hold), 0);
    if hold.percent > 100 && seconds > MOST / hold.percent then Abandoned
    else Done(Worth(seconds, hold.percent))
  }

  /** lose_bolts, seen from the hold: what it made so far is put aside, and the bolts that are left count from now on. */
  function LosingBolts(hold: Holder, left: nat, now: int): Result<Holder> {
    if hold.bolts <= 0 || left >= hold.bolts then Done(hold) else
    var earned :- Earned(hold, now);
    var share := (hold.percent - 100) / hold.bolts;
    Done(hold.(banked := hold.banked + earned, countedFrom := Max(now, hold.since), bolts := left,
               percent := if left > 0 then 100 + left * share else 0))
  }

  // ---------------------------------------------------------------- on the whole state

  /** settle_hold. A score more than the machine can count is refused. */
  function SettledHold(s: State, hold: Holder, now: int): (t: Result<State>)
    ensures t.Done? ==> t.value == s.(scores := t.value.scores, told := t.value.told)
  {
    var earned :- Earned(hold, now);
    var pay, score := earned + hold.banked, Counter(s.scores, hold.username);
    if score > 0 && pay > MOST - score then Abandoned
    else Done(s.(scores := s.scores[hold.username := score + pay], told := s.told + [Paid(hold.username, pay)]))
  }

  /** leave_place. */
  function LeftPlace(s: State, now: int): (t: Result<State>)
    ensures t.Done? ==> t.value == s.(current := None, scores := t.value.scores, told := t.value.told)
  {
    hide *;
    if s.current.None? then Done(s) else SettledHold(s.(current := None), s.current.value, now)
  }

  /** go_home: a line meant for home takes whoever holds the place there first. */
  function GoneHome(s: State, player: string, now: int): (t: Result<State>)
    ensures t.Done? ==> t.value == s.(current := t.value.current, scores := t.value.scores, told := t.value.told)
  {
    if WhereIs(s, player) == AtPlace then LeftPlace(s, now) else Done(s)
  }

  /** lose_bolts. */
  function LostBolts(s: State, now: int): (t: Result<State>)
    ensures t.Done? ==> t.value == s.(current := t.value.current)
  {
    if s.current.None? then Done(s) else
    var hold :- LosingBolts(s.current.value, CarriedCopies(s, s.current.value.username, Bolt), now);
    Done(s.(current := Some(hold)))
  }

  // ---------------------------------------------------------------- what a hold comes to

  /** Some bolts are gone at an instant, and so many are left. */
  datatype Loss = Loss(at: int, left: nat)

  ghost predicate InTime(losses: seq<Loss>, from: int, to: int)
    decreases |losses|
  {
    && from <= to
    && (losses != [] ==> from <= losses[0].at && InTime(losses[1..], losses[0].at, to))
  }

  /** A hold through every loss. */
  function Through(hold: Holder, losses: seq<Loss>): Result<Holder>
    decreases |losses|
  {
    if losses == [] then Done(hold) else
    var after :- LosingBolts(hold, losses[0].left, losses[0].at);
    Through(after, losses[1..])
  }

  function PercentOf(bolts: nat, share: int): int {
    if bolts == 0 then 0 else 100 + bolts * share
  }

  /** What a hold is worth between two instants, stretch by stretch, each at the bolts it has then. */
  function Stretches(bolts: nat, share: int, losses: seq<Loss>, from: int, to: int): int
    decreases |losses|
  {
    if losses == [] then Worth(to - from, PercentOf(bolts, share))
    else if losses[0].left >= bolts then Stretches(bolts, share, losses[1..], from, to)
    else Worth(losses[0].at - from, PercentOf(bolts, share))
           + Stretches(losses[0].left, share, losses[1..], losses[0].at, to)
  }

  /** What settle_hold pays at the end. */
  function Pay(hold: Holder, losses: seq<Loss>, to: int): Result<int> {
    var after :- Through(hold, losses);
    var earned :- Earned(after, to);
    Done(after.banked + earned)
  }

  /** The pay is the sum of the stretches: each loss counts from its own instant, and none of what was made before. */
  lemma {:induction false} PaidByStretches(hold: Holder, share: int, losses: seq<Loss>, to: int)
    requires hold.bolts >= 0 && share > 0 && hold.percent == PercentOf(hold.bolts, share)
    requires InTime(losses, CountedTo(hold), to)
    decreases |losses|
    ensures Pay(hold, losses, to).Done? ==>
              Pay(hold, losses, to).value == hold.banked + Stretches(hold.bolts, share, losses, CountedTo(hold), to)
  {
    if losses != [] {
      var loss := losses[0];
      var after := LosingBolts(hold, loss.left, loss.at);
      if loss.left >= hold.bolts {
        Sooner(losses, CountedTo(hold), to);
        PaidByStretches(hold, share, losses[1..], to);
      } else if after.Done? {
        ShareKept(hold, share);
        PaidByStretches(after.value, share, losses[1..], to);
      }
    }
  }

  lemma Sooner(losses: seq<Loss>, from: int, to: int)
    requires losses != [] && InTime(losses, from, to)
    ensures InTime(losses[1..], from, to)
  {
  }

  lemma ShareKept(hold: Holder, share: int)
    requires hold.bolts > 0 && hold.percent == 100 + hold.bolts * share
    ensures (hold.percent - 100) / hold.bolts == share
  {
    Exactly(share, hold.bolts);
  }

  lemma Exactly(share: int, bolts: int)
    requires bolts > 0
    ensures bolts * share / bolts == share
  {
    Quotient(bolts * share, bolts);
    Nothing(share - bolts * share / bolts, bolts);
  }

  lemma Quotient(n: int, d: int)
    requires d > 0
    ensures d * (n / d) <= n < d * (n / d) + d
  {
  }

  lemma Nothing(times: int, d: int)
    requires d > 0 && -d < times * d < d
    ensures times == 0
  {
  }

  /** A palla a second at the least; at the most, what it would have been had no bolt been lost. */
  lemma {:induction false} PayBounds(bolts: nat, share: int, losses: seq<Loss>, from: int, to: int, entry: int)
    requires share > 0 && InTime(losses, from, to) && entry >= 100 && entry >= PercentOf(bolts, share)
    ensures to - from <= Stretches(bolts, share, losses, from, to) <= (to - from) * entry / 100
    decreases |losses|
  {
    if losses == [] {
      WorthBounds(to - from, PercentOf(bolts, share), entry);
    } else {
      var loss := losses[0];
      if loss.left >= bolts {
        Sooner(losses, from, to);
        PayBounds(bolts, share, losses[1..], from, to, entry);
      } else {
        assert loss.left * share <= bolts * share;
        WorthBounds(loss.at - from, PercentOf(bolts, share), entry);
        PayBounds(loss.left, share, losses[1..], loss.at, to, entry);
        FloorsAdd((loss.at - from) * entry, (to - loss.at) * entry);
        assert (loss.at - from) * entry + (to - loss.at) * entry == (to - from) * entry;
      }
    }
  }

  lemma WorthBounds(seconds: nat, percent: int, entry: int)
    requires entry >= 100 && entry >= percent
    ensures seconds <= Worth(seconds, percent) <= seconds * entry / 100
  {
    assert seconds * 100 <= seconds * entry;
    if percent > 100 {
      assert seconds * 100 <= seconds * percent <= seconds * entry;
    }
  }

  lemma FloorsAdd(a: nat, b: nat)
    ensures a / 100 + b / 100 <= (a + b) / 100
  {
  }

  /** A hold from the claim on, through any losses in time: what it is paid is the sum of its stretches, at least a palla a
      second and at most its seconds at the percent it came in with. */
  lemma HoldPays(hold: Holder, share: int, losses: seq<Loss>, to: int)
    requires hold.bolts >= 0 && share > 0 && hold.percent == PercentOf(hold.bolts, share)
    requires hold.banked == 0 && hold.countedFrom <= hold.since && InTime(losses, hold.since, to)
    ensures Pay(hold, losses, to).Done? ==>
              && Pay(hold, losses, to).value == Stretches(hold.bolts, share, losses, hold.since, to)
              && to - hold.since <= Pay(hold, losses, to).value <= (to - hold.since) * Max(hold.percent, 100) / 100
  {
    hide Pay; hide Stretches;
    PaidByStretches(hold, share, losses, to);
    PayBounds(hold.bolts, share, losses, hold.since, to, Max(hold.percent, 100));
  }
}
