/** What an interval of the bootstrap is made of: blocks of one league and week, two thousand replicas, and the
    places of its limits among them. */
module BootstrapReading {
  import opened Sequences
  import opened Reals
  import opened BlockBootstrap

  // ---------- Blocks ----------

  predicate NoBar(s: string) {
    '|' !in s
  }

  lemma BarAt(a: string, b: string)
    ensures (a + "|" + b)[|a|] == '|' && forall i :: 0 <= i < |a| ==> (a + "|" + b)[i] == a[i]
  {
  }

  lemma SplitAtBar(a: string, b: string, c: string, d: string)
    requires NoBar(a) && NoBar(c) && a + "|" + b == c + "|" + d
    ensures a == c && b == d
  {
    var s, t := a + "|" + b, c + "|" + d;
    BarAt(a, b);
    BarAt(c, d);
    assert a == s[..|a|] && c == t[..|c|] && b == s[|a| + 1..] && d == t[|c| + 1..];
  }

  /** Two observations share a block exactly when league and week agree, if no league has a bar in its name. */
  lemma SameBlockIff(x: Obs, y: Obs)
    requires NoBar(x.league) && NoBar(y.league)
    ensures x.Key() == y.Key() <==> x.league == y.league && x.week == y.week
  {
    if x.Key() == y.Key() {
      SplitAtBar(x.league, x.week, y.league, y.week);
    }
  }

  /** The totals of a block are those of the observations of its league and week. */
  lemma BlockReads(obs: seq<Obs>, x: Obs)
    requires x in obs && forall o :: o in obs ==> NoBar(o.league)
    ensures var same := Filter(obs, (o: Obs) => o.league == x.league && o.week == x.week);
            BlockOf(obs, x.Key())
            == Block(|same|, SumBy(same, (o: Obs) => o.brier), SumBy(same, (o: Obs) => o.logLoss))
  {
    var p := (o: Obs) => o.league == x.league && o.week == x.week;
    forall o | o in obs ensures OfKey(x.Key())(o) == p(o) {
      SameBlockIff(o, x);
    }
    hide Obs.Key;
    FilterCong(obs, OfKey(x.Key()), p);
    SumByCong(Filter(obs, p), Brier(), (o: Obs) => o.brier);
    SumByCong(Filter(obs, p), LogLoss(), (o: Obs) => o.logLoss);
    hide Filter;
    hide SumBy;
  }

  // ---------- Draws ----------

  /** Of k blocks the i-th is drawn for the numbers from i / k up to (i + 1) / k. */
  lemma PickReads(blocks: seq<Block>, x: real, i: nat)
    requires blocks != [] && 0.0 <= x < 1.0 && i < |blocks|
    requires i as real <= x * |blocks| as real < (i + 1) as real
    ensures Pick(blocks, x) == blocks[i]
  {
  }

  /** A replica times the observations of its draws is the sum of their scores. */
  lemma ReplicaReads(blocks: seq<Block>, random: (nat, nat) -> real, m: Measure, r: nat)
    requires blocks != [] && Unit(random) && r < 2000
    ensures |Replicas(blocks, random, m, REPLICAS)| == 2000
    ensures var b := Drawn(blocks, random, r, |blocks|);
            b.count > 0 ==> Replicas(blocks, random, m, REPLICAS)[r] * b.count as real
                            == if m == OfBrier then b.brier else b.logLoss
  {
    var b := Drawn(blocks, random, r, |blocks|);
    hide Drawn;
    if b.count > 0 {
      DivTimes(b.Value(m), b.count as real);
    }
  }

  // ---------- Limits ----------

  /** The limits of two thousand replicas lie at the places 49.975 and 1949.025 of their sorted list. */
  lemma IntervalReads(sample: seq<real>)
    requires |sample| == 2000
    ensures var s := SortBy(RealLe(), sample);
            && multiset(s) == multiset(sample) && |s| == 2000
            && (forall i, j :: 0 <= i <= j < 2000 ==> s[i] <= s[j])
            && Interval(sample).0 == s[49] + 0.975 * (s[50] - s[49])
            && Interval(sample).1 == s[1949] + 0.025 * (s[1950] - s[1949])
  {
    SortLength(sample);
    assert TotalPreorder(RealLe());
    SortBySorted(RealLe(), sample);
    var s := SortBy(RealLe(), sample);
    hide SortBy;
    assert Position(1999, 0.025) == 49.975 && Position(1999, 0.975) == 1949.025;
    Limit(s, 49.975, 49);
    Limit(s, 1949.025, 1949);
    hide AtPosition;
  }

  lemma Limit(s: seq<real>, x: real, low: nat)
    requires low + 1 < |s| && low as real < x < (low + 1) as real
    ensures x <= (|s| - 1) as real
    ensures AtPosition(s, x) == s[low] + (x - low as real) * (s[low + 1] - s[low])
  {
    assert x.Floor == low;
    Blend(s[low], s[low + 1], x - low as real);
    Distribute(s[low + 1], s[low], x - low as real);
  }
}
