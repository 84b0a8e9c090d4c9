/** How the numbers handed out for one receiver relate to its counter. */
module Numbers {
  import opened Messages
  import opened Pipeline
  import Cache
  import Consumer

  /** How many handlings were numbered for a receiver. */
  function CountOf(ns: seq<Consumer.Numbering>, user: string): nat {
    if ns == [] then 0 else CountOf(ns[..|ns| - 1], user) + if ns[|ns| - 1].user == user then 1 else 0
  }

  /** How many of a receiver's increments had their reply lost. */
  function LostOf(lost: seq<string>, user: string): nat {
    if lost == [] then 0 else LostOf(lost[..|lost| - 1], user) + if lost[|lost| - 1] == user then 1 else 0
  }

  /** A number is the handling's rank among the receiver's handlings plus at most the increments lost. */
  ghost predicate RankOk(b: Consumer.State, h: nat)
    requires h < |b.numbered|
  {
    var n := b.numbered[h];
    var rank := CountOf(b.numbered[..h + 1], n.user);
    rank <= n.number <= rank + LostOf(b.lost, n.user)
  }

  ghost predicate TotalsInv(b: Consumer.State) {
    forall u :: Cache.CounterOf(b.counters, u) == CountOf(b.numbered, u) + LostOf(b.lost, u)
  }

  ghost predicate RanksInv(b: Consumer.State) {
    forall h :: 0 <= h < |b.numbered| ==> RankOk(b, h)
  }

  ghost predicate CountersMove(b: Consumer.State, c: Consumer.State, bumped: string) {
    forall u :: Cache.CounterOf(c.counters, u) == Cache.CounterOf(b.counters, u) + if u == bumped then 1 else 0
  }

  ghost predicate Recounts(b: Consumer.State, c: Consumer.State) {
    && |c.numbered| == |b.numbered| + 1 && c.lost == b.lost
    && var n := c.numbered[|b.numbered|];
       && c.numbered == b.numbered + [n] && CountersMove(b, c, n.user)
       && n.number == Cache.CounterOf(c.counters, n.user)
  }

  ghost predicate Loses(b: Consumer.State, c: Consumer.State) {
    && c.numbered == b.numbered && |c.lost| == |b.lost| + 1
    && c.lost == b.lost + [c.lost[|b.lost|]] && CountersMove(b, c, c.lost[|b.lost|])
  }

  /** A step leaves the counters alone, or bumps one and records a handling or a loss. */
  ghost predicate Counts(b: Consumer.State, c: Consumer.State) {
    || (c.counters == b.counters && c.numbered == b.numbered && c.lost == b.lost)
    || Recounts(b, c)
    || Loses(b, c)
  }

  lemma {:induction false} NextCounts(log: seq<Msg>, b: Consumer.State, step: Consumer.Step)
    ensures Counts(b, Consumer.Next(log, b, step))
  {
  }

  lemma {:induction false} KeepsTotals(b: Consumer.State, c: Consumer.State)
    requires TotalsInv(b) && Counts(b, c)
    ensures TotalsInv(c)
  {
  }

  lemma {:induction false} KeepsRanks(b: Consumer.State, c: Consumer.State)
    requires TotalsInv(b) && RanksInv(b) && Counts(b, c) && TotalsInv(c)
    ensures RanksInv(c)
  {
    if Loses(b, c) {
      assert c.lost[..|b.lost|] == b.lost;
    }
    forall h | 0 <= h < |c.numbered|
      ensures RankOk(c, h)
    {
      if h < |b.numbered| {
        assert RankOk(b, h) && c.numbered[..h + 1] == b.numbered[..h + 1];
      } else {
        assert c.numbered[..h + 1] == c.numbered;
      }
    }
  }

  lemma {:induction false} RunGap(nodes: nat, steps: seq<Step>)
    ensures TotalsInv(Run(nodes, steps).back) && RanksInv(Run(nodes, steps).back)
  {
    if steps != [] {
      var s := Run(nodes, steps[..|steps| - 1]);
      RunGap(nodes, steps[..|steps| - 1]);
      var step := steps[|steps| - 1];
      if step.Consume? && Allowed(s, step) {
        NextCounts(Topic(s), s.back, step.consume);
        KeepsTotals(s.back, Run(nodes, steps).back);
        KeepsRanks(s.back, Run(nodes, steps).back);
      }
    }
  }

  ghost predicate Assigned(b: Consumer.State, hs: set<nat>, v: int) {
    exists h :: h in hs && h < |b.numbered| && b.numbered[h].number == v
  }

  /** A receiver's numbers are exactly 1..counter if and only if no increment reply of that receiver
      was lost. */
  lemma {:induction false} NumbersExactIffNoneLost(nodes: nat, steps: seq<Step>, user: string)
    ensures var b := Run(nodes, steps).back;
            (forall v :: 1 <= v <= Cache.CounterOf(b.counters, user) ==> Assigned(b, Indices(b.numbered, user), v)) <==>
            LostOf(b.lost, user) == 0
  {
    RunGap(nodes, steps);
    var b := Run(nodes, steps).back;
    var counter, hs := Cache.CounterOf(b.counters, user), Indices(b.numbered, user);
    if LostOf(b.lost, user) == 0 {
      forall v | 1 <= v <= counter
        ensures Assigned(b, hs, v)
      {
        var h := RankAttained(b.numbered, user, v);
        NumberIsRank(nodes, steps, h);
      }
    } else if forall v :: 1 <= v <= counter ==> Assigned(b, hs, v) {
      IndicesOf(b.numbered, user);
      Pigeonhole(b, counter, hs);
    }
  }

  /** A handling's number is its rank among its receiver's handlings, plus at most the receiver's
      lost increments. */
  lemma {:induction false} NumberIsRank(nodes: nat, steps: seq<Step>, h: nat)
    requires h < |Run(nodes, steps).back.numbered|
    ensures var b := Run(nodes, steps).back;
            var n := b.numbered[h];
            var rank := CountOf(b.numbered[..h + 1], n.user);
            rank <= n.number <= rank + LostOf(b.lost, n.user)
  {
    RunGap(nodes, steps);
    assert RankOk(Run(nodes, steps).back, h);
  }

  /** Every rank up to the count is some handling's. */
  lemma {:induction false} RankAttained(ns: seq<Consumer.Numbering>, user: string, v: int) returns (h: nat)
    requires 1 <= v <= CountOf(ns, user)
    ensures h < |ns| && ns[h].user == user && CountOf(ns[..h + 1], user) == v
  {
    var init := ns[..|ns| - 1];
    if v <= CountOf(init, user) {
      h := RankAttained(init, user, v);
      assert init[..h + 1] == ns[..h + 1];
    } else {
      h := |ns| - 1;
      assert ns[..h + 1] == ns;
    }
  }

  ghost function Indices(ns: seq<Consumer.Numbering>, user: string): set<nat> {
    set h: nat | h < |ns| && ns[h].user == user
  }

  lemma {:induction false} IndicesOf(ns: seq<Consumer.Numbering>, user: string)
    ensures |Indices(ns, user)| == CountOf(ns, user)
  {
    if ns != [] {
      var init := ns[..|ns| - 1];
      IndicesOf(init, user);
      assert Indices(ns, user) - {|ns| - 1} == Indices(init, user);
      assert |ns| - 1 in Indices(ns, user) <==> ns[|ns| - 1].user == user;
    }
  }

  /** As many handlings as distinct numbers. */
  lemma {:induction false} Pigeonhole(b: Consumer.State, top: nat, hs: set<nat>)
    requires forall v :: 1 <= v <= top ==> Assigned(b, hs, v)
    ensures top <= |hs|
  {
    if top > 0 {
      assert Assigned(b, hs, top);
      var h :| h in hs && h < |b.numbered| && b.numbered[h].number == top;
      forall v | 1 <= v <= top - 1
        ensures Assigned(b, hs - {h}, v)
      {
        assert Assigned(b, hs, v);
        var g :| g in hs && g < |b.numbered| && b.numbered[g].number == v;
        assert g in hs - {h};
      }
      Pigeonhole(b, top - 1, hs - {h});
    }
  }
}
