/** The league-week block bootstrap of paired score differences and its percentile intervals. */
module BlockBootstrap {
  import opened Wrappers
  import opened Sequences
  import opened Reals

  datatype Obs = Obs(league: string, week: string, brier: real, logLoss: real) {
    function Key(): string {
      league + "|" + week
    }
  }

  datatype Measure = OfBrier | OfLogLoss

  /** Totals of one league and week, or of the blocks drawn so far. */
  datatype Block = Block(count: nat, brier: real, logLoss: real) {
    function Plus(b: Block): Block {
      Block(count + b.count, brier + b.brier, logLoss + b.logLoss)
    }

    function Value(m: Measure): real {
      if m == OfBrier then brier else logLoss
    }
  }

  const REPLICAS: nat := 2000

  // ---------- Blocks ----------

  function Keys(obs: seq<Obs>): seq<string> {
    seq(|obs|, i requires 0 <= i < |obs| => obs[i].Key())
  }

  function OfKey(key: string): Obs -> bool {
    (o: Obs) => o.Key() == key
  }

  function Brier(): Obs -> real {
    (o: Obs) => o.brier
  }

  function LogLoss(): Obs -> real {
    (o: Obs) => o.logLoss
  }

  /** Totals of a cohort. */
  function Totals(obs: seq<Obs>): Block {
    Block(|obs|, SumBy(obs, Brier()), SumBy(obs, LogLoss()))
  }

  function BlockOf(obs: seq<Obs>, key: string): Block {
    Totals(Filter(obs, OfKey(key)))
  }

  function SortedKeys(obs: seq<Obs>): seq<string> {
    SortBy(TextLe, Distinct(Keys(obs)))
  }

  function BlocksFor(obs: seq<Obs>, keys: seq<string>): seq<Block> {
    seq(|keys|, i requires 0 <= i < |keys| => BlockOf(obs, keys[i]))
  }

  function Blocks(obs: seq<Obs>): seq<Block> {
    BlocksFor(obs, SortedKeys(obs))
  }

  lemma KeysStep(obs: seq<Obs>, i: nat)
    requires i < |obs|
    ensures Keys(obs[..i + 1]) == Keys(obs[..i]) + [obs[i].Key()]
  {
  }

  lemma BlockStep(obs: seq<Obs>, i: nat, key: string)
    requires i < |obs|
    ensures BlockOf(obs[..i + 1], key) ==
              if obs[i].Key() == key then BlockOf(obs[..i], key).Plus(Block(1, obs[i].brier, obs[i].logLoss))
              else BlockOf(obs[..i], key)
  {
    assert obs[..i + 1][..i] == obs[..i];
    var before := Filter(obs[..i], OfKey(key));
    assert (before + [obs[i]])[..|before|] == before;
  }

  lemma NoBlock(obs: seq<Obs>, key: string)
    requires key !in Keys(obs)
    ensures BlockOf(obs, key) == Block(0, 0.0, 0.0)
  {
    forall o | o in obs ensures !OfKey(key)(o) {
      var i :| 0 <= i < |obs| && obs[i] == o;
      assert Keys(obs)[i] == o.Key();
    }
    FilterNone(obs, OfKey(key));
  }

  lemma BlockCounted(obs: seq<Obs>, key: string)
    requires key in Keys(obs)
    ensures BlockOf(obs, key).count > 0
  {
    var i :| 0 <= i < |obs| && Keys(obs)[i] == key;
    FilterMembers(obs, OfKey(key));
    assert obs[i] in Filter(obs, OfKey(key));
  }

  /** No block is empty, so every block has a mean. */
  lemma BlocksCounted(obs: seq<Obs>)
    ensures forall i :: 0 <= i < |Blocks(obs)| ==> Blocks(obs)[i].count > 0
  {
    hide BlockOf;
    TextPreorder();
    SortBySorted(TextLe, Distinct(Keys(obs)));
    DistinctMembers(Keys(obs));
    forall i | 0 <= i < |SortedKeys(obs)| ensures BlockOf(obs, SortedKeys(obs)[i]).count > 0 {
      assert SortedKeys(obs)[i] in SortedKeys(obs);
      BlockCounted(obs, SortedKeys(obs)[i]);
    }
  }

  ghost predicate Grouped(obs: seq<Obs>, order: seq<string>, grouped: map<string, Block>) {
    && order == Distinct(Keys(obs)) && (forall k :: k in grouped <==> k in order)
    && forall k :: k in grouped ==> grouped[k] == BlockOf(obs, k)
  }

  lemma GroupedStep(obs: seq<Obs>, i: nat, order: seq<string>, grouped: map<string, Block>)
    requires i < |obs| && Grouped(obs[..i], order, grouped)
    ensures var row := obs[i]; var key := row.Key();
            var before := if key in grouped then grouped[key] else Block(0, 0.0, 0.0);
            Grouped(obs[..i + 1], if key in grouped then order else order + [key],
                    grouped[key := before.Plus(Block(1, row.brier, row.logLoss))])
  {
    hide BlockOf;
    hide Keys;
    var key := obs[i].Key();
    KeysStep(obs, i);
    var keys := Keys(obs[..i]);
    assert (keys + [key])[..|keys|] == keys;
    DistinctMembers(keys);
    hide Distinct;
    if key !in grouped {
      NoBlock(obs[..i], key);
    }
    forall k ensures BlockOf(obs[..i + 1], k) ==
        if key == k then BlockOf(obs[..i], k).Plus(Block(1, obs[i].brier, obs[i].logLoss)) else BlockOf(obs[..i], k)
    {
      BlockStep(obs, i, k);
    }
  }

  lemma NothingGrouped()
    ensures Grouped([], [], map[])
  {
  }

  method GroupBlocks(obs: seq<Obs>) returns (blocks: seq<Block>)
    ensures blocks == Blocks(obs)
  {
    hide *;
    var order: seq<string>, grouped: map<string, Block> := [], map[];
    NothingGrouped();
    for i := 0 to |obs|
      invariant Grouped(obs[..i], order, grouped)
    {
      var row := obs[i];
      var key := row.Key();
      GroupedStep(obs, i, order, grouped);
      var before := if key in grouped then grouped[key] else Block(0, 0.0, 0.0);
      if key !in grouped {
        order := order + [key];
      }
      grouped := grouped[key := before.Plus(Block(1, row.brier, row.logLoss))];
    }
    assert obs[..|obs|] == obs;
    GroupedKeys(obs, order, grouped);
    var keys := SortBy(TextLe, order);
    blocks := seq(|keys|, i requires 0 <= i < |keys| && keys[i] in grouped => grouped[keys[i]]);
    GroupedBlocks(obs, order, grouped, blocks);
  }

  lemma GroupedKeys(obs: seq<Obs>, order: seq<string>, grouped: map<string, Block>)
    requires Grouped(obs, order, grouped)
    ensures forall i :: 0 <= i < |SortBy(TextLe, order)| ==> SortBy(TextLe, order)[i] in grouped
  {
    hide BlockOf;
    TextPreorder();
    SortBySorted(TextLe, order);
    var keys := SortBy(TextLe, order);
    hide SortBy;
    assert forall i :: 0 <= i < |keys| ==> keys[i] in keys && keys[i] in order;
  }

  lemma GroupedBlocks(obs: seq<Obs>, order: seq<string>, grouped: map<string, Block>, blocks: seq<Block>)
    requires Grouped(obs, order, grouped) && |blocks| == |SortBy(TextLe, order)|
    requires forall i :: 0 <= i < |blocks| ==>
               SortBy(TextLe, order)[i] in grouped && blocks[i] == grouped[SortBy(TextLe, order)[i]]
    ensures blocks == Blocks(obs)
  {
    hide BlockOf;
    hide SortBy;
    hide Distinct;
    hide Keys;
  }

  // ---------- Replicas ----------

  /** The draws of one replica: `random(r, d)` in [0, 1) picks a block. */
  function Pick(blocks: seq<Block>, x: real): Block
    requires blocks != [] && 0.0 <= x < 1.0
  {
    PickInRange(x, |blocks|);
    blocks[(x * |blocks| as real).Floor]
  }

  lemma PickInRange(x: real, n: nat)
    requires n > 0 && 0.0 <= x < 1.0
    ensures 0 <= (x * n as real).Floor < n
  {
    ScaleLe(n as real, 0.0, x);
    ScaleLt(n as real, x, 1.0);
  }

  ghost predicate Unit(random: (nat, nat) -> real) {
    forall r, d :: 0.0 <= random(r, d) < 1.0
  }

  /** Totals of the first d draws of replica r. */
  ghost function Drawn(blocks: seq<Block>, random: (nat, nat) -> real, r: nat, d: nat): Block
    requires blocks != [] && Unit(random)
  {
    if d == 0 then Block(0, 0.0, 0.0) else Drawn(blocks, random, r, d - 1).Plus(Pick(blocks, random(r, d - 1)))
  }

  /** b / n, which is only taken of replicas with observations. */
  function Average(total: real, count: nat): real {
    if count == 0 then 0.0 else total / count as real
  }

  ghost function Replicas(blocks: seq<Block>, random: (nat, nat) -> real, m: Measure, n: nat): seq<real>
    requires blocks != [] && Unit(random)
  {
    seq(n, r requires 0 <= r < n => var b := Drawn(blocks, random, r, |blocks|); Average(b.Value(m), b.count))
  }

  // ---------- Percentiles ----------

  function RealLe(): (real, real) -> bool {
    (a: real, b: real) => a <= b
  }

  /** Linear interpolation at a position between two indices. */
  function AtPosition(s: seq<real>, x: real): real
    requires s != [] && 0.0 <= x <= (|s| - 1) as real
  {
    var low := x.Floor;
    var weight := x - low as real;
    var high := if weight == 0.0 then low else low + 1;
    s[low] * (1.0 - weight) + s[high] * weight
  }

  function Percentile(s: seq<real>, p: real): real
    requires s != [] && 0.0 <= p <= 1.0
  {
    PositionMonotone(|s| - 1, p, p);
    AtPosition(s, Position(|s| - 1, p))
  }

  function Position(n: nat, p: real): real {
    n as real * p
  }

  lemma PositionMonotone(n: nat, p: real, q: real)
    requires 0.0 <= p <= q <= 1.0
    ensures 0.0 <= Position(n, p) <= Position(n, q) <= n as real
  {
    ScaleLe(n as real, 0.0, p);
    ScaleLe(n as real, p, q);
    ScaleLe(n as real, q, 1.0);
  }

  ghost predicate Ascending(s: seq<real>) {
    forall i, j :: 0 <= i <= j < |s| ==> s[i] <= s[j]
  }

  lemma Blend(a: real, b: real, w: real)
    ensures a * (1.0 - w) + b * w == a + (b - a) * w
  {
    Distribute(1.0, w, a);
    Distribute(b, a, w);
  }

  lemma Convex(a: real, b: real, w: real)
    requires a <= b && 0.0 <= w <= 1.0
    ensures a <= a * (1.0 - w) + b * w <= b
  {
    Blend(a, b, w);
    ScaleLe(b - a, 0.0, w);
    ScaleLe(b - a, w, 1.0);
  }

  lemma ConvexMonotone(a: real, b: real, v: real, w: real)
    requires a <= b && v <= w
    ensures a * (1.0 - v) + b * v <= a * (1.0 - w) + b * w
  {
    Blend(a, b, v);
    Blend(a, b, w);
    ScaleLe(b - a, v, w);
  }

  lemma AtPositionBetween(s: seq<real>, x: real)
    requires s != [] && Ascending(s) && 0.0 <= x <= (|s| - 1) as real
    ensures s[x.Floor] <= AtPosition(s, x)
    ensures AtPosition(s, x) <= s[if x.Floor + 1 < |s| then x.Floor + 1 else x.Floor]
  {
    var low := x.Floor;
    var weight := x - low as real;
    var high := if weight == 0.0 then low else low + 1;
    Convex(s[low], s[high], weight);
  }

  lemma AtPositionMonotone(s: seq<real>, x: real, y: real)
    requires s != [] && Ascending(s) && 0.0 <= x <= y <= (|s| - 1) as real
    ensures AtPosition(s, x) <= AtPosition(s, y)
  {
    if x.Floor == y.Floor {
      var low := x.Floor;
      if y > low as real {
        var v, w := x - low as real, y - low as real;
        ConvexMonotone(s[low], s[low + 1], v, w);
        assert AtPosition(s, y) == s[low] * (1.0 - w) + s[low + 1] * w;
        if v == 0.0 {
          assert AtPosition(s, x) == s[low] * (1.0 - v) + s[low] * v;
          assert s[low] * (1.0 - v) + s[low + 1] * v == s[low];
        }
      }
    } else {
      AtPositionBetween(s, x);
      AtPositionBetween(s, y);
      assert x.Floor + 1 <= y.Floor;
    }
  }

  lemma AtPositionWithin(s: seq<real>, x: real, y: real)
    requires s != [] && Ascending(s) && 0.0 <= x <= y <= (|s| - 1) as real
    ensures s[0] <= AtPosition(s, x) <= AtPosition(s, y) <= s[|s| - 1]
  {
    AtPositionMonotone(s, x, y);
    AtPositionBetween(s, x);
    AtPositionBetween(s, y);
    hide AtPosition;
  }

  /** Percentiles stay within the sample and increase with the level. */
  lemma PercentileMonotone(s: seq<real>, p: real, q: real)
    requires s != [] && Ascending(s) && 0.0 <= p <= q <= 1.0
    ensures s[0] <= Percentile(s, p) <= Percentile(s, q) <= s[|s| - 1]
  {
    hide AtPosition;
    hide Ascending;
    var n := |s| - 1;
    hide Position;
    PositionMonotone(n, p, q);
    AtPositionWithin(s, Position(n, p), Position(n, q));
  }

  // ---------- The bootstrap ----------

  /** The 95% limits of a sample. */
  function Interval(sample: seq<real>): (real, real)
    requires sample != []
  {
    SortLength(sample);
    var sorted := SortBy(RealLe(), sample);
    (Percentile(sorted, 0.025), Percentile(sorted, 0.975))
  }

  lemma SortLength(sample: seq<real>)
    ensures |SortBy(RealLe(), sample)| == |sample| && Ascending(SortBy(RealLe(), sample))
    ensures forall x :: x in SortBy(RealLe(), sample) <==> x in sample
  {
    assert TotalPreorder(RealLe());
    SortBySorted(RealLe(), sample);
    var sorted := SortBy(RealLe(), sample);
    hide SortBy;
    forall i, j | 0 <= i <= j < |sorted| ensures sorted[i] <= sorted[j] {
      assert i == j || RealLe()(sorted[i], sorted[j]);
    }
  }

  datatype Bootstrap = Bootstrap(count: nat, blocks: nat, deltaBrier: Option<real>, deltaLogLoss: Option<real>,
                                 brier: Option<(real, real)>, logLoss: Option<(real, real)>)

  method BlockBootstrap(obs: seq<Obs>, random: (nat, nat) -> real) returns (result: Bootstrap)
    requires Unit(random)
    ensures result.count == |obs| && result.blocks == |Blocks(obs)|
    ensures result.deltaBrier == if obs == [] then None else Some(SumBy(obs, Brier()) / |obs| as real)
    ensures result.deltaLogLoss == if obs == [] then None else Some(SumBy(obs, LogLoss()) / |obs| as real)
    ensures |Blocks(obs)| < 2 ==> result.brier == None && result.logLoss == None
    ensures |Blocks(obs)| >= 2 ==>
              && result.brier == Some(Interval(Replicas(Blocks(obs), random, OfBrier, REPLICAS)))
              && result.logLoss == Some(Interval(Replicas(Blocks(obs), random, OfLogLoss, REPLICAS)))
  {
    hide Percentile;
    hide SortBy;
    var blocks := GroupBlocks(obs);
    result := Bootstrap(|obs|, |blocks|, if obs == [] then None else Some(SumBy(obs, Brier()) / |obs| as real),
                        if obs == [] then None else Some(SumBy(obs, LogLoss()) / |obs| as real), None, None);
    if |blocks| < 2 {
      return;
    }
    var brier: seq<real>, logLoss: seq<real> := [], [];
    for replica := 0 to REPLICAS
      invariant brier == Replicas(blocks, random, OfBrier, replica)
                && logLoss == Replicas(blocks, random, OfLogLoss, replica)
    {
      var total := Block(0, 0.0, 0.0);
      for draw := 0 to |blocks|
        invariant total == Drawn(blocks, random, replica, draw)
      {
        total := total.Plus(Pick(blocks, random(replica, draw)));
      }
      brier := brier + [Average(total.brier, total.count)];
      logLoss := logLoss + [Average(total.logLoss, total.count)];
    }
    result := result.(brier := Some(Interval(brier)), logLoss := Some(Interval(logLoss)));
  }

  // ---------- Bounds ----------

  /** The mean of a block lies between the limits. */
  ghost predicate MeanWithin(b: Block, m: Measure, lo: real, hi: real) {
    b.count > 0 && lo <= b.Value(m) / b.count as real <= hi
  }

  ghost predicate AllWithin(blocks: seq<Block>, m: Measure, lo: real, hi: real) {
    forall i :: 0 <= i < |blocks| ==> MeanWithin(blocks[i], m, lo, hi)
  }

  /** The same without a division: the total lies between count copies of the limits. */
  ghost predicate TotalWithin(b: Block, m: Measure, lo: real, hi: real) {
    Times(lo, b.count) <= b.Value(m) <= Times(hi, b.count)
  }

  lemma MeanIsTotal(b: Block, m: Measure, lo: real, hi: real)
    requires b.count > 0
    ensures MeanWithin(b, m, lo, hi) <==> TotalWithin(b, m, lo, hi)
  {
    var mean := b.Value(m) / b.count as real;
    TimesOfQuotient(b.Value(m), b.count);
    TimesCancel(lo, mean, b.count);
    TimesCancel(mean, hi, b.count);
  }

  lemma PlusWithin(a: Block, b: Block, m: Measure, lo: real, hi: real)
    requires TotalWithin(a, m, lo, hi) && TotalWithin(b, m, lo, hi)
    ensures TotalWithin(a.Plus(b), m, lo, hi)
  {
    TimesAdd(lo, a.count, b.count);
    TimesAdd(hi, a.count, b.count);
  }

  lemma {:induction false} DrawnWithin(blocks: seq<Block>, random: (nat, nat) -> real, r: nat, d: nat, m: Measure,
                                       lo: real, hi: real)
    requires blocks != [] && Unit(random) && AllWithin(blocks, m, lo, hi)
    ensures TotalWithin(Drawn(blocks, random, r, d), m, lo, hi)
    ensures d > 0 ==> Drawn(blocks, random, r, d).count > 0
  {
    if d > 0 {
      DrawnWithin(blocks, random, r, d - 1, m, lo, hi);
      DrawWithin(blocks, random, r, d - 1, m, lo, hi);
      hide AllWithin;
      hide Pick;
      hide TotalWithin;
      PlusWithin(Drawn(blocks, random, r, d - 1), Pick(blocks, random(r, d - 1)), m, lo, hi);
    }
  }

  lemma DrawWithin(blocks: seq<Block>, random: (nat, nat) -> real, r: nat, d: nat, m: Measure, lo: real, hi: real)
    requires blocks != [] && Unit(random) && AllWithin(blocks, m, lo, hi)
    ensures TotalWithin(Pick(blocks, random(r, d)), m, lo, hi) && Pick(blocks, random(r, d)).count > 0
  {
    var x := random(r, d);
    PickInRange(x, |blocks|);
    var b := Pick(blocks, x);
    assert MeanWithin(b, m, lo, hi);
    MeanIsTotal(b, m, lo, hi);
  }

  /** Every replica lies between the smallest and the largest block mean, for any draws. */
  lemma ReplicasWithin(blocks: seq<Block>, random: (nat, nat) -> real, m: Measure, n: nat, lo: real, hi: real)
    requires blocks != [] && Unit(random) && AllWithin(blocks, m, lo, hi)
    ensures forall r :: 0 <= r < n ==> lo <= Replicas(blocks, random, m, n)[r] <= hi
  {
    forall r: nat | r < n ensures lo <= Replicas(blocks, random, m, n)[r] <= hi {
      DrawnWithin(blocks, random, r, |blocks|, m, lo, hi);
      MeanIsTotal(Drawn(blocks, random, r, |blocks|), m, lo, hi);
      hide TotalWithin;
      hide AllWithin;
      hide Drawn;
    }
  }

  lemma IntervalWithin(sample: seq<real>, lo: real, hi: real)
    requires sample != [] && forall r :: 0 <= r < |sample| ==> lo <= sample[r] <= hi
    ensures lo <= Interval(sample).0 <= Interval(sample).1 <= hi
  {
    SortLength(sample);
    var sorted := SortBy(RealLe(), sample);
    assert sorted[0] in sorted && sorted[|sorted| - 1] in sorted;
    hide SortBy;
    PercentileMonotone(sorted, 0.025, 0.975);
    hide Percentile;
  }

  /** Both limits of the reported interval lie between the smallest and the largest block mean, in order. */
  lemma BootstrapWithin(blocks: seq<Block>, random: (nat, nat) -> real, m: Measure, lo: real, hi: real)
    requires blocks != [] && Unit(random) && AllWithin(blocks, m, lo, hi)
    ensures var limits := Interval(Replicas(blocks, random, m, REPLICAS));
            lo <= limits.0 <= limits.1 <= hi
  {
    ReplicasWithin(blocks, random, m, REPLICAS, lo, hi);
    hide Replicas;
    hide Interval;
    ReplicaCount(blocks, random, m);
    IntervalWithin(Replicas(blocks, random, m, REPLICAS), lo, hi);
  }

  lemma ReplicaCount(blocks: seq<Block>, random: (nat, nat) -> real, m: Measure)
    requires blocks != [] && Unit(random)
    ensures |Replicas(blocks, random, m, REPLICAS)| == REPLICAS && REPLICAS > 0
  {
  }

  // ---------- The blocks hold every observation once ----------

  function KeyIn(keys: seq<string>): Obs -> bool {
    (o: Obs) => o.Key() in keys
  }

  lemma {:induction false} TotalsSplit(obs: seq<Obs>, keys: seq<string>, key: string)
    requires key !in keys
    ensures Totals(Filter(obs, KeyIn(keys + [key]))) == Totals(Filter(obs, KeyIn(keys))).Plus(BlockOf(obs, key))
  {
    if obs != [] {
      var n := |obs| - 1;
      TotalsSplit(obs[..n], keys, key);
      TotalsStep(obs, KeyIn(keys + [key]));
      TotalsStep(obs, KeyIn(keys));
      TotalsStep(obs, OfKey(key));
      hide Totals;
      hide Filter;
    }
  }

  lemma TotalsStep(obs: seq<Obs>, p: Obs -> bool)
    requires obs != []
    ensures var n := |obs| - 1;
            Totals(Filter(obs, p)) ==
              if p(obs[n]) then Totals(Filter(obs[..n], p)).Plus(Block(1, obs[n].brier, obs[n].logLoss))
              else Totals(Filter(obs[..n], p))
  {
    var n := |obs| - 1;
    var before := Filter(obs[..n], p);
    assert Filter(obs, p) == if p(obs[n]) then before + [obs[n]] else before;
    hide Filter;
    TotalsAdd(before, obs[n]);
  }

  lemma TotalsAdd(before: seq<Obs>, o: Obs)
    ensures Totals(before + [o]) == Totals(before).Plus(Block(1, o.brier, o.logLoss))
  {
    assert (before + [o])[..|before|] == before;
  }

  lemma {:induction false} KeyedWithin(obs: seq<Obs>, keys: seq<string>, m: Measure, lo: real, hi: real)
    requires AllDistinct(keys) && AllWithin(BlocksFor(obs, keys), m, lo, hi)
    ensures TotalWithin(Totals(Filter(obs, KeyIn(keys))), m, lo, hi)
  {
    if keys == [] {
      FilterNone(obs, KeyIn(keys));
    } else {
      var n := |keys| - 1;
      assert keys == keys[..n] + [keys[n]];
      forall i | 0 <= i < n ensures MeanWithin(BlocksFor(obs, keys[..n])[i], m, lo, hi) {
        assert BlocksFor(obs, keys)[i] == BlocksFor(obs, keys[..n])[i];
      }
      assert MeanWithin(BlocksFor(obs, keys)[n], m, lo, hi);
      hide BlockOf;
      hide Totals;
      hide Filter;
      KeyedWithin(obs, keys[..n], m, lo, hi);
      MeanIsTotal(BlockOf(obs, keys[n]), m, lo, hi);
      hide TotalWithin;
      TotalsSplit(obs, keys[..n], keys[n]);
      PlusWithin(Totals(Filter(obs, KeyIn(keys[..n]))), BlockOf(obs, keys[n]), m, lo, hi);
    }
  }

  lemma SortedKeysFacts(obs: seq<Obs>)
    ensures AllDistinct(SortedKeys(obs)) && forall o :: o in obs ==> o.Key() in SortedKeys(obs)
  {
    TextPreorder();
    var keys := Distinct(Keys(obs));
    SortBySorted(TextLe, keys);
    DistinctMembers(Keys(obs));
    var same := (k: string) => k;
    assert DistinctKeys(keys, same);
    DistinctPermutation(keys, SortedKeys(obs), same);
    forall o | o in obs ensures o.Key() in SortedKeys(obs) {
      var i :| 0 <= i < |obs| && obs[i] == o;
      assert Keys(obs)[i] == o.Key();
    }
    hide SortBy;
    hide Distinct;
    var sorted := SortedKeys(obs);
    forall i, j | 0 <= i < j < |sorted| ensures sorted[i] != sorted[j] {
      assert same(sorted[i]) != same(sorted[j]);
    }
  }

  /** The reported mean difference lies between the same bounds as its interval. */
  lemma MeanWithinBlocks(obs: seq<Obs>, m: Measure, lo: real, hi: real)
    requires obs != [] && AllWithin(Blocks(obs), m, lo, hi)
    ensures MeanWithin(Totals(obs), m, lo, hi)
  {
    SortedKeysFacts(obs);
    hide SortedKeys;
    FilterAll(obs, KeyIn(SortedKeys(obs)));
    KeyedWithin(obs, SortedKeys(obs), m, lo, hi);
    MeanIsTotal(Totals(obs), m, lo, hi);
  }

  // ---------- The smallest and the largest block mean ----------

  function MeanOf(b: Block, m: Measure): real
    requires b.count > 0
  {
    b.Value(m) / b.count as real
  }

  /** Blocks i and j have the smallest and the largest mean. */
  ghost predicate Extremes(blocks: seq<Block>, m: Measure, i: nat, j: nat) {
    && i < |blocks| && j < |blocks| && (forall k :: 0 <= k < |blocks| ==> blocks[k].count > 0)
    && forall k :: 0 <= k < |blocks| ==> MeanOf(blocks[i], m) <= MeanOf(blocks[k], m) <= MeanOf(blocks[j], m)
  }

  lemma {:induction false} ExtremesExist(blocks: seq<Block>, m: Measure) returns (i: nat, j: nat)
    requires blocks != [] && forall k :: 0 <= k < |blocks| ==> blocks[k].count > 0
    ensures Extremes(blocks, m, i, j)
  {
    hide MeanOf;
    if |blocks| == 1 {
      i, j := 0, 0;
    } else {
      var n := |blocks| - 1;
      i, j := ExtremesExist(blocks[..n], m);
      assert forall k :: 0 <= k < n ==> blocks[..n][k] == blocks[k];
      if MeanOf(blocks[n], m) < MeanOf(blocks[i], m) {
        i := n;
      }
      if MeanOf(blocks[n], m) > MeanOf(blocks[j], m) {
        j := n;
      }
    }
  }

  lemma BlocksExist(obs: seq<Obs>)
    requires obs != []
    ensures Blocks(obs) != []
  {
    SortedKeysFacts(obs);
    assert obs[0] in obs;
    hide SortedKeys;
  }

  lemma ExtremesWithin(blocks: seq<Block>, m: Measure, i: nat, j: nat)
    requires Extremes(blocks, m, i, j)
    ensures AllWithin(blocks, m, MeanOf(blocks[i], m), MeanOf(blocks[j], m))
  {
  }

  /** Of any observations, every replica, both ends of the interval in order, and the reported mean difference
      lie between the smallest and the largest block mean, for any draws. */
  lemma BetweenBlockMeans(obs: seq<Obs>, random: (nat, nat) -> real, m: Measure) returns (i: nat, j: nat)
    requires obs != [] && Unit(random)
    ensures Blocks(obs) != [] && Extremes(Blocks(obs), m, i, j)
    ensures var lo, hi := MeanOf(Blocks(obs)[i], m), MeanOf(Blocks(obs)[j], m);
            var replicas := Replicas(Blocks(obs), random, m, REPLICAS);
            && (forall r :: 0 <= r < REPLICAS ==> lo <= replicas[r] <= hi)
            && lo <= Interval(replicas).0 <= Interval(replicas).1 <= hi
            && lo <= MeanOf(Totals(obs), m) <= hi
  {
    BlocksExist(obs);
    BlocksCounted(obs);
    var blocks := Blocks(obs);
    hide Blocks;
    i, j := ExtremesExist(blocks, m);
    ExtremesWithin(blocks, m, i, j);
    var lo, hi := MeanOf(blocks[i], m), MeanOf(blocks[j], m);
    ReplicasWithin(blocks, random, m, REPLICAS, lo, hi);
    BootstrapWithin(blocks, random, m, lo, hi);
    MeanWithinBlocks(obs, m, lo, hi);
    hide Replicas;
    hide Interval;
    hide AllWithin;
    hide Extremes;
    hide Totals;
    ReplicaCount(blocks, random, m);
  }
}
