/** The in-memory web application descriptor (`WebXml`): its version, its
    lifecycle callback maps and its servlet URL mappings, and the merge of a
    main descriptor with an unordered set of fragments. */
module Descriptor {
  import opened Outcomes
  import opened Versions
  import opened MergeRules

  /** The keyed fields of a descriptor that take part in a merge. */
  datatype Field = PostConstruct | PreDestroy | ServletMapping

  class WebXml {
    var majorVersion: int
    var minorVersion: int
    var publicId: Option<string>
    /** class name -> name of its post-construct method */
    var postConstructMethods: FieldMap
    /** class name -> name of its pre-destroy method */
    var preDestroyMethods: FieldMap
    /** URL pattern -> name of the servlet it is mapped to */
    var servletMappings: FieldMap

    /** The version is always the default or one the setters produced. */
    ghost predicate Valid()
      reads this
    {
      Known(Version(majorVersion, minorVersion))
    }

    function Get(field: Field): FieldMap
      reads this
    {
      match field
      case PostConstruct => postConstructMethods
      case PreDestroy => preDestroyMethods
      case ServletMapping => servletMappings
    }

    constructor ()
      ensures Valid()
      ensures Version(majorVersion, minorVersion) == DefaultVersion && publicId == None
      ensures postConstructMethods == map[] && preDestroyMethods == map[] && servletMappings == map[]
    {
      majorVersion, minorVersion := DefaultVersion.major, DefaultVersion.minor;
      publicId := None;
      postConstructMethods, preDestroyMethods, servletMappings := map[], map[], map[];
    }

    /** Sets the version from a `version` attribute; a string that is not a
        recognised version, or a null reference, is ignored. */
    method SetVersion(version: Option<string>)
      modifies this
      ensures old(Valid()) ==> Valid()
      ensures ParseVersion(version).Some? ==> Version(majorVersion, minorVersion) == ParseVersion(version).value
      ensures ParseVersion(version).None? ==> majorVersion == old(majorVersion) && minorVersion == old(minorVersion)
      ensures publicId == old(publicId)
      ensures postConstructMethods == old(postConstructMethods) && preDestroyMethods == old(preDestroyMethods)
      ensures servletMappings == old(servletMappings)
    {
      var v := ParseVersion(version);
      if v.Some? {
        majorVersion, minorVersion := v.value.major, v.value.minor;
      }
    }

    /** Records the document's public identifier; the two legacy identifiers
        also set the version they stand for, any other is ignored. */
    method SetPublicId(id: string)
      modifies this
      ensures old(Valid()) ==> Valid()
      ensures ParsePublicId(id).Some? ==>
        Version(majorVersion, minorVersion) == ParsePublicId(id).value && publicId == Some(id)
      ensures ParsePublicId(id).None? ==>
        majorVersion == old(majorVersion) && minorVersion == old(minorVersion) && publicId == old(publicId)
      ensures postConstructMethods == old(postConstructMethods) && preDestroyMethods == old(preDestroyMethods)
      ensures servletMappings == old(servletMappings)
    {
      var v := ParsePublicId(id);
      if v.Some? {
        majorVersion, minorVersion := v.value.major, v.value.minor;
        publicId := Some(id);
      }
    }

    /** "major.minor" of the current version. */
    method GetVersion() returns (s: string)
      ensures s == Render(Version(majorVersion, minorVersion))
    {
      s := IntToString(majorVersion) + "." + IntToString(minorVersion);
    }

    /** Records a class's post-construct method; the first method recorded
        for a class is kept. */
    method AddPostConstructMethods(clazz: string, methodName: string)
      modifies this
      ensures postConstructMethods == if clazz in old(postConstructMethods) then old(postConstructMethods) else old(postConstructMethods)[clazz := methodName]
      ensures majorVersion == old(majorVersion) && minorVersion == old(minorVersion) && publicId == old(publicId)
      ensures preDestroyMethods == old(preDestroyMethods) && servletMappings == old(servletMappings)
    {
      if clazz !in postConstructMethods {
        postConstructMethods := postConstructMethods[clazz := methodName];
      }
    }

    /** Records a class's pre-destroy method; the first method recorded for
        a class is kept. */
    method AddPreDestroyMethods(clazz: string, methodName: string)
      modifies this
      ensures preDestroyMethods == if clazz in old(preDestroyMethods) then old(preDestroyMethods) else old(preDestroyMethods)[clazz := methodName]
      ensures majorVersion == old(majorVersion) && minorVersion == old(minorVersion) && publicId == old(publicId)
      ensures postConstructMethods == old(postConstructMethods) && servletMappings == old(servletMappings)
    {
      if clazz !in preDestroyMethods {
        preDestroyMethods := preDestroyMethods[clazz := methodName];
      }
    }

    /** Maps a URL pattern to a servlet. Within one descriptor a pattern
        belongs to one servlet only: binding it to a second, different
        servlet is an `IllegalArgumentException` and changes nothing. */
    method AddServletMapping(urlPattern: string, servletName: string) returns (r: Completion<()>)
      modifies this
      ensures r.IllegalArgument? <==> urlPattern in old(servletMappings) && old(servletMappings)[urlPattern] != servletName
      ensures r.Normal? ==> servletMappings == old(servletMappings)[urlPattern := servletName]
      ensures r.IllegalArgument? ==> servletMappings == old(servletMappings)
      ensures majorVersion == old(majorVersion) && minorVersion == old(minorVersion) && publicId == old(publicId)
      ensures postConstructMethods == old(postConstructMethods) && preDestroyMethods == old(preDestroyMethods)
    {
      if urlPattern in servletMappings && servletMappings[urlPattern] != servletName {
        return IllegalArgument;
      }
      servletMappings := servletMappings[urlPattern := servletName];
      return Normal(());
    }

    /** Adds one fragment's lifecycle callbacks to the temporary map of a
        merge, provided the fragment agrees with every callback already
        collected for the same class. */
    static method MergeLifecycleCallback(fragmentMap: FieldMap, tempMap: FieldMap) returns (ok: bool, merged: FieldMap)
      ensures ok <==> Agree(fragmentMap, tempMap)
      ensures ok ==> merged == tempMap + fragmentMap
    {
      merged := tempMap;
      var todo := fragmentMap.Keys;
      while todo != {}
        invariant todo <= fragmentMap.Keys
        invariant merged == tempMap + (fragmentMap - todo)
        invariant Agree(fragmentMap - todo, tempMap)
        decreases todo
      {
        var key :| key in todo;
        if key in merged && merged[key] != fragmentMap[key] {
          return false, merged;
        }
        merged := merged[key := fragmentMap[key]];
        todo := todo - {key};
      }
      assert fragmentMap - todo == fragmentMap;
      return true, merged;
    }

    /** Adds one fragment's servlet mappings to the temporary map of a
        merge, skipping the patterns the main descriptor maps itself; a
        pattern already collected for a different servlet is an
        `IllegalArgumentException`. */
    static method MergeServletMappings(fragmentMap: FieldMap, main: FieldMap, tempMap: FieldMap)
      returns (r: Completion<FieldMap>)
      ensures r.Normal? <==> Agree(fragmentMap - main.Keys, tempMap)
      ensures r.Normal? ==> r.value == tempMap + (fragmentMap - main.Keys)
    {
      var merged := tempMap;
      var todo := fragmentMap.Keys;
      while todo != {}
        invariant todo <= fragmentMap.Keys
        invariant merged == tempMap + (fragmentMap - main.Keys - todo)
        invariant Agree(fragmentMap - main.Keys - todo, tempMap)
        decreases todo
      {
        var urlPattern :| urlPattern in todo;
        ghost var seen := fragmentMap - main.Keys - (todo - {urlPattern});
        if urlPattern !in main {
          if urlPattern in merged && merged[urlPattern] != fragmentMap[urlPattern] {
            return IllegalArgument;
          }
          assert seen == (fragmentMap - main.Keys - todo)[urlPattern := fragmentMap[urlPattern]];
          merged := merged[urlPattern := fragmentMap[urlPattern]];
        } else {
          assert seen == fragmentMap - main.Keys - todo;
        }
        todo := todo - {urlPattern};
      }
      assert fragmentMap - main.Keys - todo == fragmentMap - main.Keys;
      return Normal(merged);
    }

    /** Collects one lifecycle field over all fragments, in whatever order
        the set yields them; fails on the first disagreement. */
    static method CollectCallbacks(fragments: set<WebXml>, field: Field) returns (ok: bool, temp: FieldMap)
      ensures ok <==> Functional(Contributions(fragments, field))
      ensures ok ==> Entries(temp) == Contributions(fragments, field)
    {
      temp := map[];
      var todo := fragments;
      while todo != {}
        invariant todo <= fragments
        invariant Entries(temp) == Contributions(fragments - todo, field)
        decreases todo
      {
        var fragment :| fragment in todo;
        CallbackStep(fragments, todo, fragment, field, temp);
        ok, temp := MergeLifecycleCallback(fragment.Get(field), temp);
        if !ok {
          return;
        }
        todo := todo - {fragment};
      }
      CollectedAll(fragments, todo, field, temp);
      return true, temp;
    }

    /** Collects the servlet mappings of all fragments for the patterns the
        main descriptor does not map; fails on the first pattern two
        fragments map to different servlets. */
    static method CollectServletMappings(fragments: set<WebXml>, main: FieldMap) returns (r: Completion<FieldMap>)
      ensures r.Normal? <==> Functional(Unowned(Contributions(fragments, ServletMapping), main))
      ensures r.Normal? ==> Entries(r.value) == Unowned(Contributions(fragments, ServletMapping), main)
    {
      var temp := map[];
      var todo := fragments;
      while todo != {}
        invariant todo <= fragments
        invariant Entries(temp) == Unowned(Contributions(fragments - todo, ServletMapping), main)
        decreases todo
      {
        var fragment :| fragment in todo;
        MappingStep(fragments, todo, fragment, temp, main);
        var step := MergeServletMappings(fragment.servletMappings, main, temp);
        if step.IllegalArgument? {
          return IllegalArgument;
        }
        temp := step.value;
        todo := todo - {fragment};
      }
      MappedAll(fragments, todo, main, temp);
      return Normal(temp);
    }

    /** Merges the servlet mappings: the main descriptor's own patterns are
        kept, the fragments' other patterns are added, and a pattern two
        fragments map to different servlets is an
        `IllegalArgumentException`. */
    static method MergeMappingMap(fragments: set<WebXml>, current: FieldMap) returns (r: Completion<FieldMap>)
      ensures MergeMappings(current, Contributions(fragments, ServletMapping)).None? ==> r == IllegalArgument
      ensures MergeMappings(current, Contributions(fragments, ServletMapping)).Some? ==>
        r == Normal(MergeMappings(current, Contributions(fragments, ServletMapping)).value)
    {
      var mapped := CollectServletMappings(fragments, current);
      if mapped.IllegalArgument? {
        return IllegalArgument;
      }
      CollectedMappings(current, Contributions(fragments, ServletMapping), mapped.value);
      return Normal(current + mapped.value);
    }

    /** Merges one lifecycle callback field: a non-empty map of the main
        descriptor is kept; an empty one receives the union of the
        fragments' maps, unless two fragments disagree, in which case the
        result is false and the main map is returned as it was. */
    static method MergeCallbackMap(fragments: set<WebXml>, field: Field, current: FieldMap)
      returns (ok: bool, merged: FieldMap)
      ensures ok == MergeCallbacks(current, Contributions(fragments, field)).Some?
      ensures merged == if ok then MergeCallbacks(current, Contributions(fragments, field)).value else current
    {
      if |current| > 0 {
        return true, current;
      }
      var temp;
      ok, temp := CollectCallbacks(fragments, field);
      if !ok {
        return false, current;
      }
      CollectedCallbacks(current, Contributions(fragments, field), temp);
      return true, current + temp;
    }

    /** Runs the three field merges of `Merge` on the given field values
        without writing anything: servlet mappings first, then the
        post-construct callbacks, then, only if those merged, the
        pre-destroy callbacks. */
    static method MergeFields(fragments: set<WebXml>, mappings: FieldMap, post: FieldMap, pre: FieldMap)
      returns (o: Outcome)
      ensures o == MergeOutcome(mappings, post, pre, Contributions(fragments, ServletMapping),
        Contributions(fragments, PostConstruct), Contributions(fragments, PreDestroy))
    {
      var mapped := MergeMappingMap(fragments, mappings);
      var postOk, post' := MergeCallbackMap(fragments, PostConstruct, post);
      var preOk, pre' := true, pre;
      if postOk {
        preOk, pre' := MergeCallbackMap(fragments, PreDestroy, pre);
      }
      OutcomeOfSteps(mappings, post, pre, Contributions(fragments, ServletMapping),
        Contributions(fragments, PostConstruct), Contributions(fragments, PreDestroy),
        mapped, postOk, post', preOk, pre');
      if mapped.IllegalArgument? {
        return Outcome(IllegalArgument, mappings, post, pre);
      }
      if !postOk {
        return Outcome(Normal(false), mapped.value, post, pre);
      }
      return Outcome(Normal(preOk), mapped.value, post', pre');
    }

    /** Merges the fragments into this descriptor: servlet mappings first
        (main takes priority, a pattern contested among fragments only is an
        `IllegalArgumentException`), then the post-construct and then the
        pre-destroy callbacks (a non-empty main map wins, otherwise the
        fragments' maps are unioned). A callback conflict stops the merge
        and returns false before the conflicting field, or any later one, is
        written.

        Each field is read from the fragments before that field is written
        and no field's merge reads another field, so computing the three
        results before the first write, as done here, leaves the same state
        as interleaving the reads and writes field by field. */
    method Merge(fragments: set<WebXml>) returns (r: Completion<bool>)
      modifies this
      ensures majorVersion == old(majorVersion) && minorVersion == old(minorVersion) && publicId == old(publicId)
      ensures Outcome(r, servletMappings, postConstructMethods, preDestroyMethods) ==
        MergeOutcome(old(servletMappings), old(postConstructMethods), old(preDestroyMethods),
          old(Contributions(fragments, ServletMapping)), old(Contributions(fragments, PostConstruct)),
          old(Contributions(fragments, PreDestroy)))
    {
      var o := MergeFields(fragments, servletMappings, postConstructMethods, preDestroyMethods);
      if o.result.IllegalArgument? {
        ThrowsOnMappingConflict(servletMappings, postConstructMethods, preDestroyMethods,
          Contributions(fragments, ServletMapping), Contributions(fragments, PostConstruct),
          Contributions(fragments, PreDestroy));
        return IllegalArgument;
      }
      servletMappings, postConstructMethods, preDestroyMethods := o.mappings, o.postConstruct, o.preDestroy;
      return o.result;
    }
  }

  /** What a merge returns and the three keyed fields it leaves. */
  datatype Outcome = Outcome(result: Completion<bool>, mappings: FieldMap, postConstruct: FieldMap, preDestroy: FieldMap)

  /** The merge of a descriptor whose servlet mappings and callback maps are
      `mappings`, `post` and `pre` with fragments contributing `cm`, `cpost`
      and `cpre`: the three fields in order, the mapping conflict an
      exception, a callback conflict a false result that leaves the
      conflicting field and every later one as it was. */
  ghost function MergeOutcome(mappings: FieldMap, post: FieldMap, pre: FieldMap,
                              cm: set<Entry>, cpost: set<Entry>, cpre: set<Entry>): Outcome
  {
    match MergeMappings(mappings, cm)
    case None => Outcome(IllegalArgument, mappings, post, pre)
    case Some(mapped) =>
      match MergeCallbacks(post, cpost)
      case None => Outcome(Normal(false), mapped, post, pre)
      case Some(post') =>
        match MergeCallbacks(pre, cpre)
        case None => Outcome(Normal(false), mapped, post', pre)
        case Some(pre') => Outcome(Normal(true), mapped, post', pre')
  }

  /** The outcome of a merge, from the results of its three field merges:
      the mapping merge, the post-construct merge, and the pre-destroy
      merge, which is only run when the post-construct merge succeeded. */
  lemma OutcomeOfSteps(mappings: FieldMap, post: FieldMap, pre: FieldMap,
                       cm: set<Entry>, cpost: set<Entry>, cpre: set<Entry>,
                       mapped: Completion<FieldMap>, postOk: bool, post': FieldMap, preOk: bool, pre': FieldMap)
    requires MergeMappings(mappings, cm).None? ==> mapped == IllegalArgument
    requires MergeMappings(mappings, cm).Some? ==> mapped == Normal(MergeMappings(mappings, cm).value)
    requires postOk == MergeCallbacks(post, cpost).Some?
    requires post' == if postOk then MergeCallbacks(post, cpost).value else post
    requires postOk ==> preOk == MergeCallbacks(pre, cpre).Some?
    requires postOk ==> pre' == if preOk then MergeCallbacks(pre, cpre).value else pre
    ensures var o := MergeOutcome(mappings, post, pre, cm, cpost, cpre);
      && (mapped.IllegalArgument? ==> o == Outcome(IllegalArgument, mappings, post, pre))
      && (mapped.Normal? && !postOk ==> o == Outcome(Normal(false), mapped.value, post, pre))
      && (mapped.Normal? && postOk ==> o == Outcome(Normal(preOk), mapped.value, post', pre'))
  {
    var o := MergeOutcome(mappings, post, pre, cm, cpost, cpre);
    match MergeMappings(mappings, cm)
    case None =>
      assert o == Outcome(IllegalArgument, mappings, post, pre);
    case Some(m) =>
      match MergeCallbacks(post, cpost)
      case None =>
        assert o == Outcome(Normal(false), m, post, pre);
      case Some(p) =>
        match MergeCallbacks(pre, cpre)
        case None =>
          assert o == Outcome(Normal(false), m, p, pre);
        case Some(q) =>
          assert o == Outcome(Normal(true), m, p, q);
  }

  /** A merge throws exactly when two fragments map a URL pattern the main
      descriptor does not map to different servlets, and then it leaves
      every field as it was. */
  lemma {:induction false} MergeThrowsIffContested(mappings: FieldMap, post: FieldMap, pre: FieldMap,
                                                   cm: set<Entry>, cpost: set<Entry>, cpre: set<Entry>)
    ensures var o := MergeOutcome(mappings, post, pre, cm, cpost, cpre);
      o.result.IllegalArgument? <==>
        exists k, v, w :: k !in mappings && (k, v) in cm && (k, w) in cm && v != w
    ensures var o := MergeOutcome(mappings, post, pre, cm, cpost, cpre);
      o.result.IllegalArgument? ==> o.mappings == mappings && o.postConstruct == post && o.preDestroy == pre
  {
    ThrowsOnMappingConflict(mappings, post, pre, cm, cpost, cpre);
    MappingConflictIffContested(mappings, cm);
  }

  lemma ThrowsOnMappingConflict(mappings: FieldMap, post: FieldMap, pre: FieldMap,
                                cm: set<Entry>, cpost: set<Entry>, cpre: set<Entry>)
    ensures var o := MergeOutcome(mappings, post, pre, cm, cpost, cpre);
      o.result.IllegalArgument? <==> MergeMappings(mappings, cm).None?
    ensures MergeMappings(mappings, cm).None? ==>
      MergeOutcome(mappings, post, pre, cm, cpost, cpre) == Outcome(IllegalArgument, mappings, post, pre)
  {
    var o := MergeOutcome(mappings, post, pre, cm, cpost, cpre);
    match MergeMappings(mappings, cm)
    case None =>
      assert o == Outcome(IllegalArgument, mappings, post, pre);
    case Some(mapped) =>
      match MergeCallbacks(post, cpost)
      case None =>
        assert o == Outcome(Normal(false), mapped, post, pre);
      case Some(post') =>
        match MergeCallbacks(pre, cpre)
        case None =>
          assert o == Outcome(Normal(false), mapped, post', pre);
        case Some(pre') =>
          assert o == Outcome(Normal(true), mapped, post', pre');
  }

  /** A non-empty callback map of the main descriptor survives any merge
      exactly as it was. */
  lemma {:induction false} MainCallbacksKept(mappings: FieldMap, post: FieldMap, pre: FieldMap,
                                             cm: set<Entry>, cpost: set<Entry>, cpre: set<Entry>)
    ensures var o := MergeOutcome(mappings, post, pre, cm, cpost, cpre);
      (|post| > 0 ==> o.postConstruct == post) && (|pre| > 0 ==> o.preDestroy == pre)
  {
    var o := MergeOutcome(mappings, post, pre, cm, cpost, cpre);
    match MergeMappings(mappings, cm)
    case None =>
      assert o == Outcome(IllegalArgument, mappings, post, pre);
    case Some(mapped) =>
      match MergeCallbacks(post, cpost)
      case None =>
        assert o == Outcome(Normal(false), mapped, post, pre);
      case Some(post') =>
        match MergeCallbacks(pre, cpre)
        case None =>
          assert o == Outcome(Normal(false), mapped, post', pre);
        case Some(pre') =>
          assert o == Outcome(Normal(true), mapped, post', pre');
  }

  /** Every URL pattern the main descriptor maps keeps its servlet through
      any merge. */
  lemma {:induction false} MainMappingsKept(mappings: FieldMap, post: FieldMap, pre: FieldMap,
                                            cm: set<Entry>, cpost: set<Entry>, cpre: set<Entry>)
    ensures var o := MergeOutcome(mappings, post, pre, cm, cpost, cpre);
      forall k | k in mappings :: k in o.mappings && o.mappings[k] == mappings[k]
  {
    var o := MergeOutcome(mappings, post, pre, cm, cpost, cpre);
    match MergeMappings(mappings, cm)
    case None =>
      assert o == Outcome(IllegalArgument, mappings, post, pre);
    case Some(mapped) =>
      forall k | k in mappings ensures k in mapped && mapped[k] == mappings[k] {
        MainMappingWins(mappings, cm, k);
      }
      match MergeCallbacks(post, cpost)
      case None =>
        assert o == Outcome(Normal(false), mapped, post, pre);
      case Some(post') =>
        match MergeCallbacks(pre, cpre)
        case None =>
          assert o == Outcome(Normal(false), mapped, post', pre);
        case Some(pre') =>
          assert o == Outcome(Normal(true), mapped, post', pre');
  }

  /** A merge returns false exactly when the mappings merged but a callback
      field whose main map is empty received conflicting contributions; the
      pre-destroy map is then never written, and neither is the
      post-construct map when the conflict lies in it. */
  lemma {:induction false} MergeSoftConflict(mappings: FieldMap, post: FieldMap, pre: FieldMap,
                                             cm: set<Entry>, cpost: set<Entry>, cpre: set<Entry>)
    ensures var o := MergeOutcome(mappings, post, pre, cm, cpost, cpre);
      o.result == Normal(false) <==>
        Functional(Unowned(cm, mappings)) &&
        ((|post| == 0 && !Functional(cpost)) || (|pre| == 0 && !Functional(cpre)))
    ensures var o := MergeOutcome(mappings, post, pre, cm, cpost, cpre);
      o.result == Normal(false) ==> o.preDestroy == pre
    ensures var o := MergeOutcome(mappings, post, pre, cm, cpost, cpre);
      o.result == Normal(false) && |post| == 0 && !Functional(cpost) ==> o.postConstruct == post
  {
  }

  /** A merge returns true exactly when every field merged, and each
      resulting field then holds the main descriptor's entries together with
      the contributions it accepted. */
  lemma {:induction false} MergeSucceeds(mappings: FieldMap, post: FieldMap, pre: FieldMap,
                                         cm: set<Entry>, cpost: set<Entry>, cpre: set<Entry>)
    ensures var o := MergeOutcome(mappings, post, pre, cm, cpost, cpre);
      o.result == Normal(true) <==>
        Functional(Unowned(cm, mappings)) && (|post| > 0 || Functional(cpost)) && (|pre| > 0 || Functional(cpre))
    ensures var o := MergeOutcome(mappings, post, pre, cm, cpost, cpre);
      o.result == Normal(true) ==>
        && Entries(o.mappings) == Entries(mappings) + Unowned(cm, mappings)
        && Entries(o.postConstruct) == (if |post| > 0 then Entries(post) else cpost)
        && Entries(o.preDestroy) == (if |pre| > 0 then Entries(pre) else cpre)
  {
  }

  /** Merging the same fragments a second time into a descriptor that a
      first merge completed changes nothing: every field the first merge
      filled is now owned by the main descriptor. */
  lemma {:induction false} MergeIdempotent(mappings: FieldMap, post: FieldMap, pre: FieldMap,
                                           cm: set<Entry>, cpost: set<Entry>, cpre: set<Entry>)
    requires MergeOutcome(mappings, post, pre, cm, cpost, cpre).result == Normal(true)
    ensures var o := MergeOutcome(mappings, post, pre, cm, cpost, cpre);
      MergeOutcome(o.mappings, o.postConstruct, o.preDestroy, cm, cpost, cpre) == o
  {
    var mapped := MergeMappings(mappings, cm).value;
    var post' := MergeCallbacks(post, cpost).value;
    var pre' := MergeCallbacks(pre, cpre).value;
    assert MergeOutcome(mappings, post, pre, cm, cpost, cpre) == Outcome(Normal(true), mapped, post', pre');
    MappingsSettled(mappings, cm);
    CallbacksSettled(post, cpost);
    CallbacksSettled(pre, cpre);
  }

  /** What a set of fragments contributes to one field: the union of their
      entries for it. */
  ghost function Contributions(fragments: set<WebXml>, field: Field): set<Entry>
    reads fragments
  {
    set f, k | f in fragments && k in f.Get(field) :: (k, f.Get(field)[k])
  }

  lemma ContributionsAdd(done: set<WebXml>, fragment: WebXml, field: Field)
    ensures Contributions(done + {fragment}, field) == Contributions(done, field) + Entries(fragment.Get(field))
  {
  }

  /** One step of the loop collecting a lifecycle field: when the next
      fragment agrees with the temporary map, which holds the entries of
      the fragments seen so far, adding it gives the entries of those
      fragments and this one; when it disagrees, the conflict already lies
      in the entries of all fragments. */
  lemma CallbackStep(fragments: set<WebXml>, todo: set<WebXml>, fragment: WebXml, field: Field, temp: FieldMap)
    requires fragment in todo && todo <= fragments
    requires Entries(temp) == Contributions(fragments - todo, field)
    ensures Agree(fragment.Get(field), temp) ==>
      Entries(temp + fragment.Get(field)) == Contributions(fragments - (todo - {fragment}), field)
    ensures !Agree(fragment.Get(field), temp) ==> !Functional(Contributions(fragments, field))
  {
    var done := fragments - (todo - {fragment});
    assert done == (fragments - todo) + {fragment};
    ContributionsAdd(fragments - todo, fragment, field);
    UnionEntries(fragment.Get(field), temp);
    UnionEntries(temp, fragment.Get(field));
    if !Agree(fragment.Get(field), temp) {
      ContributionsMono(done, fragments, field);
      FunctionalInSuperset(Contributions(done, field), Contributions(fragments, field));
    }
  }

  /** When the loop has seen every fragment, the temporary map holds their
      contributions, which are then free of conflicts. */
  lemma CollectedAll(fragments: set<WebXml>, todo: set<WebXml>, field: Field, temp: FieldMap)
    requires todo == {}
    requires Entries(temp) == Contributions(fragments - todo, field)
    ensures Functional(Contributions(fragments, field)) && Entries(temp) == Contributions(fragments, field)
  {
    assert fragments - todo == fragments;
    MapOfEntries(temp);
  }

  /** The same step for the servlet mappings, where only the patterns the
      main descriptor does not map are collected. */
  lemma MappingStep(fragments: set<WebXml>, todo: set<WebXml>, fragment: WebXml, temp: FieldMap, main: FieldMap)
    requires fragment in todo && todo <= fragments
    requires Entries(temp) == Unowned(Contributions(fragments - todo, ServletMapping), main)
    ensures var own := fragment.servletMappings - main.Keys;
      Agree(own, temp) ==>
        Entries(temp + own) == Unowned(Contributions(fragments - (todo - {fragment}), ServletMapping), main)
    ensures !Agree(fragment.servletMappings - main.Keys, temp) ==>
      !Functional(Unowned(Contributions(fragments, ServletMapping), main))
  {
    var own := fragment.servletMappings - main.Keys;
    var done := fragments - (todo - {fragment});
    assert done == (fragments - todo) + {fragment};
    UnownedAdd(fragments - todo, fragment, main);
    UnionEntries(temp, own);
    assert Agree(own, temp) == Agree(temp, own);
    if !Agree(own, temp) {
      ContributionsMono(done, fragments, ServletMapping);
      UnownedMono(Contributions(done, ServletMapping), Contributions(fragments, ServletMapping), main);
      FunctionalInSuperset(Unowned(Contributions(done, ServletMapping), main),
                           Unowned(Contributions(fragments, ServletMapping), main));
    }
  }

  /** Adding a fragment adds its mappings for the patterns the main
      descriptor does not map. */
  lemma UnownedAdd(done: set<WebXml>, fragment: WebXml, main: FieldMap)
    ensures Unowned(Contributions(done + {fragment}, ServletMapping), main)
         == Unowned(Contributions(done, ServletMapping), main) + Entries(fragment.servletMappings - main.Keys)
  {
    ContributionsAdd(done, fragment, ServletMapping);
    UnownedEntries(fragment.servletMappings, main);
    UnownedUnion(Contributions(done, ServletMapping), Entries(fragment.servletMappings), main);
  }

  /** When the loop has seen every fragment, the temporary map holds the
      unowned contributions, which are then free of conflicts. */
  lemma MappedAll(fragments: set<WebXml>, todo: set<WebXml>, main: FieldMap, temp: FieldMap)
    requires todo == {}
    requires Entries(temp) == Unowned(Contributions(fragments - todo, ServletMapping), main)
    ensures var u := Unowned(Contributions(fragments, ServletMapping), main);
      Functional(u) && Entries(temp) == u
  {
    assert fragments - todo == fragments;
    MapOfEntries(temp);
  }

  lemma ContributionsMono(done: set<WebXml>, fragments: set<WebXml>, field: Field)
    requires done <= fragments
    ensures Contributions(done, field) <= Contributions(fragments, field)
  {
  }

  /** One field's maps of a sequence of fragments, in that order: the order
      in which an iterator over the fragment set might yield them. */
  ghost function FieldMaps(fs: seq<WebXml>, field: Field): (ms: seq<FieldMap>)
    reads fs
    ensures |ms| == |fs|
    decreases |fs|
  {
    if fs == [] then [] else [fs[0].Get(field)] + FieldMaps(fs[1..], field)
  }

  /** The entries of the fragments met in an enumeration are the
      contributions of the set it enumerates. */
  lemma {:induction false} EnumerationEntries(fs: seq<WebXml>, field: Field)
    ensures SeqEntries(FieldMaps(fs, field)) == Contributions((set f | f in fs), field)
    decreases |fs|
  {
    if fs != [] {
      var rest := set f | f in fs[1..];
      EnumerationEntries(fs[1..], field);
      assert (set f | f in fs) == rest + {fs[0]};
      ContributionsAdd(rest, fs[0], field);
      assert FieldMaps(fs, field)[1..] == FieldMaps(fs[1..], field);
    }
  }

  /** Walking a lifecycle field over any enumeration of a fragment set, one
      fragment at a time and stopping at the first disagreement, gives the
      callback strategy's result on the set's contributions: the order the
      iterator picks cannot be observed. */
  lemma {:induction false} AnyOrderWalk(fs: seq<WebXml>, field: Field)
    ensures FoldUnion(map[], FieldMaps(fs, field)) == MergeCallbacks(map[], Contributions((set f | f in fs), field))
  {
    FoldUnionIsMergeCallbacks(FieldMaps(fs, field));
    EnumerationEntries(fs, field);
  }
}
