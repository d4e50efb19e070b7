/** The two strategies by which a keyed descriptor field is merged with the
    same field of an unordered collection of fragments.

    A fragment's contribution to a field is the set of its (key, value)
    entries; the contributions of a whole fragment set are the union of
    those sets, so nothing here can depend on the order in which fragments
    are visited. */
module MergeRules {
  import opened Outcomes

  /** A keyed descriptor field: class name to method name for the lifecycle
      callbacks, URL pattern to servlet name for the servlet mappings. */
  type FieldMap = map<string, string>
  type Entry = (string, string)

  /** The (key, value) entries of a map. */
  ghost function Entries(m: FieldMap): (es: set<Entry>)
    ensures forall e :: e in es <==> e.0 in m && m[e.0] == e.1
  {
    set k | k in m :: (k, m[k])
  }

  /** A value `es` gives the key `k`: an arbitrary one of them when there
      are several, and "" when there is none. */
  ghost function ValueAt(es: set<Entry>, k: string): string {
    if exists v :: (k, v) in es then var v :| (k, v) in es; v else ""
  }

  /** No key occurs with two different values: every entry holds the one
      value `ValueAt` picks for its key. */
  ghost predicate Functional(es: set<Entry>) {
    forall e | e in es :: e.1 == ValueAt(es, e.0)
  }

  /** `Functional` is the pairwise condition: two entries with one key have
      one value. */
  lemma FunctionalPairs(es: set<Entry>)
    ensures Functional(es) <==> forall e, f | e in es && f in es && e.0 == f.0 :: e.1 == f.1
  {
    if forall e, f | e in es && f in es && e.0 == f.0 :: e.1 == f.1 {
      forall e | e in es ensures e.1 == ValueAt(es, e.0) {
        assert (e.0, e.1) in es;
      }
    }
  }

  /** The map whose entries are exactly `es`. */
  ghost function ToMap(es: set<Entry>): (m: FieldMap)
    requires Functional(es)
    ensures Entries(m) == es
  {
    var m := map e | e in es :: e.0 := e.1;
    assert forall e | e in es :: e.0 in m && m[e.0] == e.1;
    m
  }

  /** Two maps give the same value to every key they share. */
  predicate Agree(a: FieldMap, b: FieldMap) {
    forall k | k in a && k in b :: a[k] == b[k]
  }

  /** The contributed entries whose key the main descriptor does not own. */
  ghost function Unowned(es: set<Entry>, main: FieldMap): set<Entry> {
    set e | e in es && e.0 !in main
  }

  lemma EntriesInjective(a: FieldMap, b: FieldMap)
    requires Entries(a) == Entries(b)
    ensures a == b
  {
    forall k | k in a ensures k in b && b[k] == a[k] {
      assert (k, a[k]) in Entries(b);
    }
    forall k | k in b ensures k in a {
      assert (k, b[k]) in Entries(a);
    }
  }

  lemma MapOfEntries(m: FieldMap)
    ensures Functional(Entries(m)) && ToMap(Entries(m)) == m
  {
    EntriesInjective(ToMap(Entries(m)), m);
  }

  /** Two maps can be merged without conflict exactly when they agree, and
      the merge then holds the entries of both. */
  lemma {:induction false} UnionEntries(a: FieldMap, b: FieldMap)
    ensures Functional(Entries(a) + Entries(b)) <==> Agree(a, b)
    ensures Agree(a, b) ==> Entries(a + b) == Entries(a) + Entries(b)
  {
    if Functional(Entries(a) + Entries(b)) {
      forall k | k in a && k in b ensures a[k] == b[k] {
        assert (k, a[k]) in Entries(a) && (k, b[k]) in Entries(b);
      }
    }
  }

  lemma UnownedUnion(es: set<Entry>, fs: set<Entry>, main: FieldMap)
    ensures Unowned(es + fs, main) == Unowned(es, main) + Unowned(fs, main)
  {
  }

  lemma UnownedMono(es: set<Entry>, fs: set<Entry>, main: FieldMap)
    requires es <= fs
    ensures Unowned(es, main) <= Unowned(fs, main)
  {
  }

  lemma UnownedEntries(m: FieldMap, main: FieldMap)
    ensures Unowned(Entries(m), main) == Entries(m - main.Keys)
  {
  }

  /** Override-wins with a soft conflict, the strategy of the lifecycle
      callback maps: a non-empty main map is kept as it is; an empty one is
      replaced by the union of the contributions, or the merge fails
      (`None`) when two contributions give one key different values. */
  ghost function MergeCallbacks(main: FieldMap, es: set<Entry>): (r: Option<FieldMap>)
    ensures |main| > 0 ==> r == Some(main)
    ensures |main| == 0 ==> (r.Some? <==> Functional(es))
    ensures |main| == 0 && r.Some? ==> Entries(r.value) == es
  {
    if |main| > 0 then Some(main)
    else if Functional(es) then Some(ToMap(es))
    else None
  }

  /** Main-takes-priority with a hard conflict, the strategy of the servlet
      URL mappings: keys the main map owns keep their value whatever the
      contributions say; every other contributed entry is added, unless
      two of them give one key different values, in which case the merge
      fails (`None`). */
  ghost function MergeMappings(main: FieldMap, es: set<Entry>): (r: Option<FieldMap>)
    ensures r.Some? <==> Functional(Unowned(es, main))
    ensures r.Some? ==> Entries(r.value) == Entries(main) + Unowned(es, main)
  {
    var u := Unowned(es, main);
    if Functional(u) then
      var added := ToMap(u);
      assert Agree(main, added);
      UnionEntries(main, added);
      Some(main + added)
    else None
  }

  /** What a loop that collected the entries `es` into `temp` commits to
      an empty main map is the callback strategy's result. */
  lemma CollectedCallbacks(main: FieldMap, es: set<Entry>, temp: FieldMap)
    requires |main| == 0 && Entries(temp) == es
    ensures MergeCallbacks(main, es) == Some(main + temp)
  {
    MapOfEntries(temp);
    assert main.Keys == {};
    assert main + temp == temp;
  }

  /** What a loop that collected the unowned entries into `added` commits
      to the main map is the mapping strategy's result. */
  lemma CollectedMappings(main: FieldMap, es: set<Entry>, added: FieldMap)
    requires Entries(added) == Unowned(es, main)
    ensures MergeMappings(main, es) == Some(main + added)
  {
    MapOfEntries(added);
  }

  /** When the main map owns every contributed key, the mapping merge
      keeps it exactly as it is. */
  lemma {:induction false} MappingsAllOwned(main: FieldMap, es: set<Entry>)
    requires forall e | e in es :: e.0 in main
    ensures MergeMappings(main, es) == Some(main)
  {
    assert Unowned(es, main) == {};
    EntriesInjective(MergeMappings(main, es).value, main);
  }

  /** Into an empty main map, the entries of one map merge to that map. */
  lemma {:induction false} CallbacksOfOne(m: FieldMap)
    ensures MergeCallbacks(map[], Entries(m)) == Some(m)
  {
    MapOfEntries(m);
  }

  /** A key the main descriptor maps is never contested: it keeps its value. */
  lemma {:induction false} MainMappingWins(main: FieldMap, es: set<Entry>, k: string)
    requires k in main
    requires MergeMappings(main, es).Some?
    ensures k in MergeMappings(main, es).value && MergeMappings(main, es).value[k] == main[k]
  {
    assert (k, main[k]) in Entries(MergeMappings(main, es).value);
  }

  /** Two contributions that give an unowned key different values make the
      mapping merge fail, whatever else is contributed. */
  lemma {:induction false} ContestedMappingFails(main: FieldMap, es: set<Entry>, k: string, v: string, w: string)
    requires k !in main && (k, v) in es && (k, w) in es && v != w
    ensures MergeMappings(main, es).None?
  {
    assert (k, v) in Unowned(es, main) && (k, w) in Unowned(es, main);
  }

  /** The mapping merge fails exactly when two contributions give a key the
      main map does not own different values. */
  lemma {:induction false} MappingConflictIffContested(main: FieldMap, es: set<Entry>)
    ensures MergeMappings(main, es).None? <==>
      exists k, v, w :: k !in main && (k, v) in es && (k, w) in es && v != w
  {
    var u := Unowned(es, main);
    FunctionalPairs(u);
    if !Functional(u) {
      var e, f :| e in u && f in u && e.0 == f.0 && e.1 != f.1;
      assert e.0 !in main && (e.0, e.1) in es && (e.0, f.1) in es;
    }
    if exists k, v, w :: k !in main && (k, v) in es && (k, w) in es && v != w {
      var k, v, w :| k !in main && (k, v) in es && (k, w) in es && v != w;
      ContestedMappingFails(main, es, k, v, w);
    }
  }

  /** Every value in a merged mapping comes from the main map or from some
      contribution, and every contribution for an unowned key is in it. */
  lemma {:induction false} MappingTraceable(main: FieldMap, es: set<Entry>)
    requires MergeMappings(main, es).Some?
    ensures var m := MergeMappings(main, es).value;
      && (forall k | k in m :: (k in main && m[k] == main[k]) || (k !in main && (k, m[k]) in es))
      && (forall e | e in es && e.0 !in main :: e.0 in m && m[e.0] == e.1)
  {
    var m := MergeMappings(main, es).value;
    forall k | k in m ensures (k in main && m[k] == main[k]) || (k !in main && (k, m[k]) in es) {
      assert (k, m[k]) in Entries(main) + Unowned(es, main);
    }
    forall e | e in es && e.0 !in main ensures e.0 in m && m[e.0] == e.1 {
      assert e in Entries(m);
    }
  }

  /** Two contributions that give one key different values make the
      callback merge into an empty main map fail. */
  lemma {:induction false} ContestedCallbackFails(es: set<Entry>, k: string, v: string, w: string)
    requires (k, v) in es && (k, w) in es && v != w
    ensures MergeCallbacks(map[], es).None?
  {
  }

  /** Into an empty main map, two fragments' callbacks merge to the union
      of their maps exactly when they agree on the keys they share. */
  lemma {:induction false} CallbacksOfTwo(a: FieldMap, b: FieldMap)
    ensures MergeCallbacks(map[], Entries(a) + Entries(b)) == if Agree(a, b) then Some(a + b) else None
  {
    UnionEntries(a, b);
    if Agree(a, b) {
      MapOfEntries(a + b);
    }
  }

  /** Fragments whose callback maps have disjoint keys always merge, and
      the merged map is as large as both together. */
  lemma {:induction false} DisjointCallbacks(a: FieldMap, b: FieldMap)
    requires a.Keys !! b.Keys
    ensures MergeCallbacks(map[], Entries(a) + Entries(b)) == Some(a + b)
    ensures |a + b| == |a| + |b|
  {
    CallbacksOfTwo(a, b);
    assert (a + b).Keys == a.Keys + b.Keys;
    assert |(a + b).Keys| == |a.Keys| + |b.Keys|;
  }

  /** A mapping a merge produced merges again to itself: it owns every
      pattern contributed. */
  lemma MappingsSettled(main: FieldMap, es: set<Entry>)
    requires MergeMappings(main, es).Some?
    ensures MergeMappings(MergeMappings(main, es).value, es) == MergeMappings(main, es)
  {
    var m := MergeMappings(main, es).value;
    MappingTraceable(main, es);
    assert forall e | e in es :: e.0 in m;
    MappingsAllOwned(m, es);
  }

  /** A callback map a merge produced merges again to itself. */
  lemma CallbacksSettled(main: FieldMap, es: set<Entry>)
    requires MergeCallbacks(main, es).Some?
    ensures MergeCallbacks(MergeCallbacks(main, es).value, es) == MergeCallbacks(main, es)
  {
    var m := MergeCallbacks(main, es).value;
    if |main| == 0 && |m| == 0 {
      assert m == map[];
      CallbacksOfOne(m);
    }
  }

  // ---------------------------------------------------------------------
  // Order independence.  `WebXml.merge` walks the fragment set in whatever
  // order the set's iterator yields; `FoldUnion` is that walk for one given
  // order: entries are added to a temporary map one fragment at a time and
  // the walk stops at the first fragment that disagrees with it.

  function FoldUnion(temp: FieldMap, ms: seq<FieldMap>): Option<FieldMap>
    decreases |ms|
  {
    if ms == [] then Some(temp)
    else if Agree(ms[0], temp) then FoldUnion(temp + ms[0], ms[1..])
    else None
  }

  /** The entries of all maps of a sequence. */
  ghost function SeqEntries(ms: seq<FieldMap>): set<Entry>
    decreases |ms|
  {
    if ms == [] then {} else Entries(ms[0]) + SeqEntries(ms[1..])
  }

  lemma {:induction false} SeqEntriesAt(ms: seq<FieldMap>, e: Entry)
    ensures e in SeqEntries(ms) <==> exists m :: m in ms && e in Entries(m)
    decreases |ms|
  {
    if ms != [] {
      SeqEntriesAt(ms[1..], e);
      assert forall m :: m in ms <==> m == ms[0] || m in ms[1..];
    }
  }

  /** Walking the fragments in one order succeeds exactly when their entries
      are free of conflicts, and then yields exactly those entries. */
  lemma {:induction false} FoldUnionMeaning(temp: FieldMap, ms: seq<FieldMap>)
    ensures FoldUnion(temp, ms).Some? <==> Functional(Entries(temp) + SeqEntries(ms))
    ensures FoldUnion(temp, ms).Some? ==> Entries(FoldUnion(temp, ms).value) == Entries(temp) + SeqEntries(ms)
    decreases |ms|
  {
    if ms == [] {
      MapOfEntries(temp);
    } else {
      UnionEntries(ms[0], temp);
      if Agree(ms[0], temp) {
        UnionEntries(temp, ms[0]);
        assert Entries(temp + ms[0]) + SeqEntries(ms[1..]) == Entries(temp) + SeqEntries(ms);
        FoldUnionMeaning(temp + ms[0], ms[1..]);
      } else {
        FunctionalInSuperset(Entries(ms[0]) + Entries(temp), Entries(temp) + SeqEntries(ms));
      }
    }
  }

  lemma FunctionalInSuperset(es: set<Entry>, fs: set<Entry>)
    requires es <= fs && !Functional(es)
    ensures !Functional(fs)
  {
  }

  /** The order in which the fragments are walked is not observable: any
      two orderings of the same fragments give the same outcome. */
  lemma {:induction false} FoldUnionOrderFree(ms1: seq<FieldMap>, ms2: seq<FieldMap>)
    requires forall m :: m in ms1 <==> m in ms2
    ensures FoldUnion(map[], ms1) == FoldUnion(map[], ms2)
  {
    forall e ensures e in SeqEntries(ms1) <==> e in SeqEntries(ms2) {
      SeqEntriesAt(ms1, e);
      SeqEntriesAt(ms2, e);
    }
    assert SeqEntries(ms1) == SeqEntries(ms2);
    FoldUnionMeaning(map[], ms1);
    FoldUnionMeaning(map[], ms2);
    var empty: FieldMap := map[];
    assert Entries(empty) == {};
    if FoldUnion(map[], ms1).Some? {
      EntriesInjective(FoldUnion(map[], ms1).value, FoldUnion(map[], ms2).value);
    }
  }

  /** The walk in any order computes the callback strategy's result for an
      empty main map. */
  lemma {:induction false} FoldUnionIsMergeCallbacks(ms: seq<FieldMap>)
    ensures FoldUnion(map[], ms) == MergeCallbacks(map[], SeqEntries(ms))
  {
    FoldUnionMeaning(map[], ms);
    var empty: FieldMap := map[];
    assert Entries(empty) == {};
    if FoldUnion(map[], ms).Some? {
      EntriesInjective(FoldUnion(map[], ms).value, MergeCallbacks(map[], SeqEntries(ms)).value);
    }
  }
}
