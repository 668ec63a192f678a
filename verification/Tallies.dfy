/** Counters by label, as the loops of the audit keep them in objects. */
module Tallies {

  /** How many keys carry each label. */
  function Counts<K, L>(labels: map<K, L>): map<L, nat> {
    map s | s in labels.Values :: |set k | k in labels && labels[k] == s|
  }

  /** One more of a label. */
  function Bump<L>(counts: map<L, nat>, name: L): map<L, nat> {
    counts[name := (if name in counts then counts[name] else 0) + 1]
  }

  lemma CountsStep<K, L>(labels: map<K, L>, k: K, name: L)
    requires k !in labels
    ensures Counts(labels[k := name]) == Bump(Counts(labels), name)
  {
    var after := labels[k := name];
    var a, b := Counts(after), Bump(Counts(labels), name);
    forall s ensures (s in a <==> s in b) && (s in a ==> a[s] == b[s]) {
      BumpAt(Counts(labels), name, s);
      CountsAt(labels, s);
      CountsAt(after, s);
      LabelSeen(labels, k, name, s);
      LabelAdded(labels, k, name, s);
    }
    hide *;
    assert a.Keys == b.Keys;
  }

  ghost function Labelled<K, L>(labels: map<K, L>, s: L): set<K> {
    set q | q in labels && labels[q] == s
  }

  lemma CountsAt<K, L>(labels: map<K, L>, s: L)
    ensures s in Counts(labels) <==> Labelled(labels, s) != {}
    ensures s in Counts(labels) ==> Counts(labels)[s] == |Labelled(labels, s)|
  {
    if s in labels.Values {
      var q :| q in labels && labels[q] == s;
      assert q in Labelled(labels, s);
    }
  }

  lemma BumpAt<L>(counts: map<L, nat>, name: L, s: L)
    ensures s in Bump(counts, name) <==> s in counts || s == name
    ensures s in Bump(counts, name) ==>
              Bump(counts, name)[s] == (if s in counts then counts[s] else 0) + if s == name then 1 else 0
  {
  }

  lemma LabelSeen<K, L>(labels: map<K, L>, k: K, name: L, s: L)
    requires k !in labels
    ensures Labelled(labels[k := name], s) != {} <==> Labelled(labels, s) != {} || s == name
  {
    LabelAdded(labels, k, name, s);
  }

  lemma LabelAdded<K, L>(labels: map<K, L>, k: K, name: L, s: L)
    requires k !in labels
    ensures Labelled(labels[k := name], s) == if s == name then Labelled(labels, s) + {k} else Labelled(labels, s)
    ensures |Labelled(labels[k := name], s)| == |Labelled(labels, s)| + if s == name then 1 else 0
  {
    assert Labelled(labels[k := name], s) == if s == name then Labelled(labels, s) + {k} else Labelled(labels, s);
  }

  // ---------- Counting over a growing part ----------

  /** The part of a map over some of its keys. */
  function Restrict<K, V>(m: map<K, V>, keys: set<K>): map<K, V> {
    map k | k in m && k in keys :: m[k]
  }

  lemma RestrictAll<K, V>(m: map<K, V>, keys: set<K>)
    requires m.Keys <= keys
    ensures Restrict(m, keys) == m
  {
    assert Restrict(m, keys).Keys == m.Keys;
  }

  lemma RestrictStep<K, V>(m: map<K, V>, seen: set<K>, k: K)
    requires k in m && k !in seen
    ensures k !in Restrict(m, seen) && Restrict(m, seen + {k}) == Restrict(m, seen)[k := m[k]]
    ensures |Restrict(m, seen + {k})| == |Restrict(m, seen)| + 1
  {
    var before, after := Restrict(m, seen), Restrict(m, seen + {k});
    assert after == before[k := m[k]];
    assert after.Keys == before.Keys + {k};
    assert |before| == |before.Keys| && |after| == |after.Keys|;
  }

  lemma RestrictSkip<K, V>(m: map<K, V>, seen: set<K>, k: K)
    requires k !in m
    ensures Restrict(m, seen + {k}) == Restrict(m, seen)
  {
  }

  lemma ValuesAdd<K, V>(m: map<K, V>, k: K, v: V)
    requires k !in m
    ensures m[k := v].Values == m.Values + {v}
  {
    var after := m[k := v];
    assert k in after;
    forall x | x in m.Values ensures x in after.Values {
      var q :| q in m && m[q] == x;
      assert q in after && after[q] == x;
    }
  }

  // ---------- Totals ----------

  ghost function Total<L>(counts: map<L, nat>): nat {
    if counts == map[] then 0 else
      var s :| s in counts;
      counts[s] + Total(counts - {s})
  }

  lemma {:induction false} TotalRemove<L>(counts: map<L, nat>, s: L)
    requires s in counts
    ensures Total(counts) == counts[s] + Total(counts - {s})
    decreases |counts|
  {
    var t :| t in counts && Total(counts) == counts[t] + Total(counts - {t});
    if s != t {
      TotalRemove(counts - {t}, s);
      TotalRemove(counts - {s}, t);
      assert counts - {t} - {s} == counts - {s} - {t};
    }
  }

  lemma TotalBump<L>(counts: map<L, nat>, s: L)
    ensures Total(Bump(counts, s)) == Total(counts) + 1
  {
    var after := Bump(counts, s);
    TotalRemove(after, s);
    assert after - {s} == counts - {s};
    if s in counts {
      TotalRemove(counts, s);
    } else {
      assert counts - {s} == counts;
    }
  }

  /** The counters of any labelling sum to the number of its keys. */
  lemma {:induction false} CountsTotal<K, L>(labels: map<K, L>)
    ensures Total(Counts(labels)) == |labels|
    decreases |labels|
  {
    if labels == map[] {
      assert Counts(labels) == map[];
    } else {
      var k :| k in labels;
      var rest := labels - {k};
      assert labels == rest[k := labels[k]];
      assert labels.Keys == rest.Keys + {k} && |labels.Keys| == |labels| && |rest.Keys| == |rest|;
      CountsTotal(rest);
      CountsStep(rest, k, labels[k]);
      TotalBump(Counts(rest), labels[k]);
    }
  }
}
