/**
 What the adapter promises, proved about the specification functions and
 predicates of module Store: how matchers become lookups and instance filters,
 what a built label set contains, why its order is determined, and where a
 chunk's time bounds lie.
 */
module StoreProperties {
  import GoSemantics
  import opened Store

  /** `m` is an equality matcher on `name`. */
  predicate IsEqOn(m: LabelMatcher, name: string)
  {
    m.matchType == EQ && m.name == name
  }

  /* ---------------------------------------------------------------------------
     Query translation
     --------------------------------------------------------------------------- */

  /**
   A name is in the lookup exactly when some equality matcher has it, and then
   it maps to the LAST such matcher: later matchers of the same name win and
   matchers of the other types are ignored.
   */
  lemma {:induction false} EqLookupLastWins(ms: seq<LabelMatcher>, name: string)
    ensures name in EqLookup(ms) <==> exists i :: 0 <= i < |ms| && IsEqOn(ms[i], name)
    ensures name in EqLookup(ms) ==>
              exists i :: 0 <= i < |ms| && IsEqOn(ms[i], name) && EqLookup(ms)[name] == ms[i] &&
                          forall j :: i < j < |ms| ==> !IsEqOn(ms[j], name)
  {
    if |ms| > 0 {
      var front := ms[..|ms| - 1];
      var last := ms[|ms| - 1];
      EqLookupLastWins(front, name);
      assert forall i :: 0 <= i < |front| ==> front[i] == ms[i];
      if IsEqOn(last, name) {
        assert EqLookup(ms)[name] == ms[|ms| - 1];
      } else if name in EqLookup(front) {
        var i :| 0 <= i < |front| && IsEqOn(front[i], name) && EqLookup(front)[name] == front[i] &&
                 forall j :: i < j < |front| ==> !IsEqOn(front[j], name);
        assert IsEqOn(ms[i], name) && EqLookup(ms)[name] == ms[i];
      }
    }
  }

  /** Every entry of the lookup is an equality matcher filed under its own name. */
  lemma {:induction false} EqLookupOnlyEq(ms: seq<LabelMatcher>)
    ensures forall name :: name in EqLookup(ms) ==>
              EqLookup(ms)[name].matchType == EQ && EqLookup(ms)[name].name == name
  {
    if |ms| > 0 {
      EqLookupOnlyEq(ms[..|ms| - 1]);
    }
  }

  /**
   A required parameter (`region`, `__name__`) reads as "" when no equality
   matcher names it, and otherwise as the value of the last one that does.
   */
  lemma RequiredParameterValue(ms: seq<LabelMatcher>, name: string)
    ensures (forall i :: 0 <= i < |ms| ==> !IsEqOn(ms[i], name)) ==> SafeGetValue(EqLookup(ms), name) == ""
    ensures SafeGetValue(EqLookup(ms), name) != "" ==>
              exists i :: 0 <= i < |ms| && IsEqOn(ms[i], name) && ms[i].value == SafeGetValue(EqLookup(ms), name) &&
                          forall j :: i < j < |ms| ==> !IsEqOn(ms[j], name)
    ensures forall i :: 0 <= i < |ms| && IsEqOn(ms[i], name) && (forall j :: i < j < |ms| ==> !IsEqOn(ms[j], name)) ==>
              SafeGetValue(EqLookup(ms), name) == ms[i].value
  {
    EqLookupLastWins(ms, name);
  }

  /**
   The instance filters hold exactly one single-dimension instance for every
   matcher whose name is neither `region` nor `__name__`, and nothing else.
   */
  lemma InstancesOnePerDimension(matchers: map<string, LabelMatcher>, instances: seq<Instance>)
    requires InstancesFor(matchers, instances)
    ensures |instances| == |DimensionKeys(matchers)|
    ensures forall k :: k in DimensionKeys(matchers) ==>
              Instance([Dimension(matchers[k].name, matchers[k].value)]) in instances
    ensures forall i :: 0 <= i < |instances| ==>
              |instances[i].dimensions| == 1 && !Reserved(instances[i].dimensions[0].name)
  {
    var order :| && Enumerates(order, DimensionKeys(matchers))
                 && |order| == |instances|
                 && forall i :: 0 <= i < |order| ==> order[i] in matchers && instances[i] == InstanceOf(matchers[order[i]]);
    EnumerationSize(order, DimensionKeys(matchers));
    forall k | k in DimensionKeys(matchers)
      ensures Instance([Dimension(matchers[k].name, matchers[k].value)]) in instances
    {
      var i :| 0 <= i < |order| && order[i] == k;
      assert instances[i] == InstanceOf(matchers[k]);
    }
    forall i | 0 <= i < |instances|
      ensures |instances[i].dimensions| == 1 && !Reserved(instances[i].dimensions[0].name)
    {
      assert order[i] in order;
    }
  }

  /* ---------------------------------------------------------------------------
     Label set builder
     --------------------------------------------------------------------------- */

  /** The kept dimensions are exactly the dimensions no non-empty external label overrides. */
  lemma {:induction false} KeptDimensionsExact(dims: seq<Dimension>, extend: map<string, string>)
    ensures forall l :: l in KeptDimensions(dims, extend) <==>
              exists i :: 0 <= i < |dims| && !HasExternalValue(extend, dims[i].name) &&
                          l == Label(dims[i].name, dims[i].value)
  {
    if |dims| > 0 {
      var front := dims[..|dims| - 1];
      KeptDimensionsExact(front, extend);
      assert forall i :: 0 <= i < |front| ==> front[i] == dims[i];
    }
  }

  /** No kept dimension has a name with a non-empty external value. */
  lemma {:induction false} KeptNotOverridden(dims: seq<Dimension>, extend: map<string, string>)
    ensures forall l :: l in KeptDimensions(dims, extend) ==> !HasExternalValue(extend, l.name)
  {
    if |dims| > 0 {
      KeptNotOverridden(dims[..|dims| - 1], extend);
    }
  }

  /** Every external label is in the built label set, with its external value. */
  lemma ExternalLabelsIncluded(dims: seq<Dimension>, extend: map<string, string>, lset: seq<Label>)
    requires BuiltLabelSet(dims, extend, lset)
    ensures forall name :: name in extend ==> Label(name, extend[name]) in lset
  {
    forall name | name in extend
      ensures Label(name, extend[name]) in lset
    {
      assert Label(name, extend[name]) in ExternalLabelSet(extend);
      assert Label(name, extend[name]) in multiset(lset);
    }
  }

  /**
   External labels take precedence: a label in the set whose name has a
   non-empty external value carries that value, so no upstream dimension of
   that name survives.
   */
  lemma ExternalPrecedence(dims: seq<Dimension>, extend: map<string, string>, lset: seq<Label>)
    requires BuiltLabelSet(dims, extend, lset)
    ensures forall l :: l in lset && HasExternalValue(extend, l.name) ==> l.value == extend[l.name]
  {
    KeptNotOverridden(dims, extend);
    forall l | l in lset && HasExternalValue(extend, l.name)
      ensures l.value == extend[l.name]
    {
      assert l in multiset(lset);
      assert l !in multiset(KeptDimensions(dims, extend));
      assert l in ExternalLabelSet(extend);
      var k :| k in extend && l == Label(k, extend[k]);
    }
  }

  /**
   Every label of the set is an external label or a dimension that no
   non-empty external label overrides, and every such dimension is in the set.
   */
  lemma LabelSetSources(dims: seq<Dimension>, extend: map<string, string>, lset: seq<Label>)
    requires BuiltLabelSet(dims, extend, lset)
    ensures forall l :: l in lset ==>
              (l.name in extend && l.value == extend[l.name]) ||
              exists i :: 0 <= i < |dims| && !HasExternalValue(extend, dims[i].name) &&
                          l == Label(dims[i].name, dims[i].value)
    ensures forall i :: 0 <= i < |dims| && !HasExternalValue(extend, dims[i].name) ==>
              Label(dims[i].name, dims[i].value) in lset
  {
    KeptDimensionsExact(dims, extend);
    forall l | l in lset
      ensures (l.name in extend && l.value == extend[l.name]) ||
              exists i :: 0 <= i < |dims| && !HasExternalValue(extend, dims[i].name) &&
                          l == Label(dims[i].name, dims[i].value)
    {
      assert l in multiset(lset);
      if l in ExternalLabelSet(extend) {
        var k :| k in extend && l == Label(k, extend[k]);
      } else {
        assert l in multiset(KeptDimensions(dims, extend));
        assert l in KeptDimensions(dims, extend);
        var i :| 0 <= i < |dims| && !HasExternalValue(extend, dims[i].name) &&
                 l == Label(dims[i].name, dims[i].value);
      }
    }
    forall i | 0 <= i < |dims| && !HasExternalValue(extend, dims[i].name)
      ensures Label(dims[i].name, dims[i].value) in lset
    {
      var l := Label(dims[i].name, dims[i].value);
      assert l in KeptDimensions(dims, extend);
      assert l in multiset(KeptDimensions(dims, extend));
      assert l in multiset(lset);
    }
  }

  predicate DistinctNames(ls: seq<Label>)
  {
    forall i, j :: 0 <= i < j < |ls| ==> ls[i].name != ls[j].name
  }

  /** Two strings each `<=` the other are equal. */
  lemma LessEqAntisymmetric(a: string, b: string)
    requires GoSemantics.LessEq(a, b) && GoSemantics.LessEq(b, a)
    ensures a == b
  {
    if a != b {
      GoSemantics.LessTotal(a, b);
    }
  }

  /** Under the same hypotheses, the two arrangements start with the same label. */
  lemma SortedHeadsAgree(a: seq<Label>, b: seq<Label>)
    requires SortedByName(a) && SortedByName(b) && DistinctNames(a)
    requires multiset(a) == multiset(b) && |a| > 0 && |b| > 0
    ensures a[0] == b[0]
  {
    assert a[0] in multiset(b) && b[0] in multiset(a);
    var k :| 0 <= k < |b| && b[k] == a[0];
    var m :| 0 <= m < |a| && a[m] == b[0];
    assert GoSemantics.LessEq(b[0].name, b[k].name) by {
      if k == 0 {
        GoSemantics.LessIrreflexive(b[0].name);
      }
    }
    assert GoSemantics.LessEq(a[0].name, a[m].name) by {
      if m == 0 {
        GoSemantics.LessIrreflexive(a[0].name);
      }
    }
    LessEqAntisymmetric(a[0].name, b[0].name);
  }

  /** Removing equal heads leaves tails with equal multisets. */
  lemma TailsSameMultiset(a: seq<Label>, b: seq<Label>)
    requires multiset(a) == multiset(b) && |a| > 0 && |b| > 0 && a[0] == b[0]
    ensures multiset(a[1..]) == multiset(b[1..])
  {
    assert a == [a[0]] + a[1..] && b == [b[0]] + b[1..];
    assert multiset(a) == multiset{a[0]} + multiset(a[1..]);
    assert multiset(b) == multiset{b[0]} + multiset(b[1..]);
    forall l: Label
      ensures multiset(a[1..])[l] == multiset(b[1..])[l]
    {
      assert multiset(a)[l] == multiset{a[0]}[l] + multiset(a[1..])[l];
      assert multiset(b)[l] == multiset{b[0]}[l] + multiset(b[1..])[l];
    }
  }

  /**
   Sorting is unstable, but when names are unique there is only one sorted
   arrangement of a multiset of labels.
   */
  lemma {:induction false} SortedArrangementUnique(a: seq<Label>, b: seq<Label>)
    requires SortedByName(a) && SortedByName(b) && DistinctNames(a)
    requires multiset(a) == multiset(b)
    ensures a == b
  {
    assert |a| == |multiset(a)| == |multiset(b)| == |b|;
    if |a| > 0 {
      SortedHeadsAgree(a, b);
      TailsSameMultiset(a, b);
      SortedArrangementUnique(a[1..], b[1..]);
      assert a == [a[0]] + a[1..] && b == [b[0]] + b[1..];
    }
  }

  /**
   The built label set is determined by the dimensions and external labels
   whenever it has no repeated name, whatever order the maps are iterated in.
   */
  lemma LabelSetDeterministic(dims: seq<Dimension>, extend: map<string, string>, l1: seq<Label>, l2: seq<Label>)
    requires BuiltLabelSet(dims, extend, l1) && BuiltLabelSet(dims, extend, l2)
    requires DistinctNames(l1)
    ensures l1 == l2
  {
    SortedArrangementUnique(l1, l2);
  }

  /* ---------------------------------------------------------------------------
     Chunk assembly
     --------------------------------------------------------------------------- */

  predicate NonDecreasing(ts: seq<real>)
  {
    forall i, j :: 0 <= i <= j < |ts| ==> ts[i] <= ts[j]
  }

  /**
   When the upstream's timestamps are in ascending order and match the values
   one for one, every sample of the chunk lies within the chunk's bounds.
   */
  lemma ChunkBoundsEnclose(dp: DataPoint)
    requires |dp.values| == |dp.timestamps| > 0
    requires NonDecreasing(dp.timestamps)
    ensures forall s :: s in AppendedSamples(dp) ==>
              MillisOf(dp.timestamps[0]) <= s.t <= MillisOf(dp.timestamps[|dp.timestamps| - 1])
  {
    var ts := dp.timestamps;
    forall s | s in AppendedSamples(dp)
      ensures MillisOf(ts[0]) <= s.t <= MillisOf(ts[|ts| - 1])
    {
      var i :| 0 <= i < |dp.values| && AppendedSamples(dp)[i] == s;
      GoSemantics.TruncToIntMonotonic(ts[0], ts[i]);
      GoSemantics.TruncToIntMonotonic(ts[i], ts[|ts| - 1]);
    }
  }
}
