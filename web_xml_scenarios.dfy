/** The scenarios the descriptor's unit tests run, each stated as a method
    whose postcondition is what the test asserts. */
module WebXmlScenarios {
  import opened Outcomes
  import opened Versions
  import opened MergeRules
  import opened Descriptor

  /** A new descriptor is at 3.1; "2.5" sets 2.5; "0.0" and null are then
      ignored. */
  method TestParseVersion() returns (initial: Version, afterSet: Version, afterUnknown: Version, afterNull: Version)
    ensures initial == Version(3, 1)
    ensures afterSet == Version(2, 5) && afterUnknown == Version(2, 5) && afterNull == Version(2, 5)
  {
    var webxml := new WebXml();
    initial := Version(webxml.majorVersion, webxml.minorVersion);
    webxml.SetVersion(Some("2.5"));
    afterSet := Version(webxml.majorVersion, webxml.minorVersion);
    webxml.SetVersion(Some("0.0"));
    afterUnknown := Version(webxml.majorVersion, webxml.minorVersion);
    webxml.SetVersion(None);
    afterNull := Version(webxml.majorVersion, webxml.minorVersion);
  }

  /** The legacy public identifier given sets its version, rendered as
      "2.2" or "2.3". */
  method TestParsePublicIdVersion(id: string) returns (v: Version, rendered: string)
    requires id == WEB_22_PUBLIC || id == WEB_23_PUBLIC
    ensures id == WEB_22_PUBLIC ==> v == Version(2, 2) && rendered == "2.2"
    ensures id == WEB_23_PUBLIC ==> v == Version(2, 3) && rendered == "2.3"
  {
    var webxml := new WebXml();
    webxml.SetPublicId(id);
    v := Version(webxml.majorVersion, webxml.minorVersion);
    rendered := webxml.GetVersion();
  }

  /** Each version string `setVersion` accepts sets the two numbers it
      names, and `getVersion` renders that same string again. */
  method TestParseVersionString(s: string) returns (v: Version, rendered: string)
    requires s in VersionStrings
    ensures s == "2.4" ==> v == Version(2, 4)
    ensures s == "2.5" ==> v == Version(2, 5)
    ensures s == "3.0" ==> v == Version(3, 0)
    ensures s == "3.1" ==> v == Version(3, 1)
    ensures rendered == s
  {
    var webxml := new WebXml();
    webxml.SetVersion(Some(s));
    v := Version(webxml.majorVersion, webxml.minorVersion);
    rendered := webxml.GetVersion();
  }

  lemma EntriesOfOne(k: string, v: string)
    ensures Entries(map[k := v]) == {(k, v)}
  {
  }

  lemma EntriesOfTwo(k1: string, v1: string, k2: string, v2: string)
    requires k1 != k2
    ensures Entries(map[k1 := v1, k2 := v2]) == Entries(map[k1 := v1]) + Entries(map[k2 := v2])
  {
    EntriesOfOne(k1, v1);
    EntriesOfOne(k2, v2);
    assert Entries(map[k1 := v1, k2 := v2]) == {(k1, v1), (k2, v2)};
  }

  lemma EntriesOfNone()
    ensures Entries(map[]) == {}
  {
  }

  lemma ContributionsOfOne(f: WebXml, field: Field)
    ensures Contributions({f}, field) == Entries(f.Get(field))
  {
    ContributionsAdd({}, f, field);
    assert {} + {f} == {f};
  }

  lemma ContributionsOfTwo(f: WebXml, g: WebXml, field: Field)
    ensures Contributions({f, g}, field) == Entries(f.Get(field)) + Entries(g.Get(field))
  {
    ContributionsOfOne(f, field);
    ContributionsAdd({f}, g, field);
    assert {f} + {g} == {f, g};
  }

  /** Merging into an empty field with no contributions leaves it empty. */
  lemma NothingContributed()
    ensures MergeCallbacks(map[], {}) == Some(map[])
    ensures MergeMappings(map[], {}) == Some(map[])
  {
    EntriesOfNone();
    CallbacksOfOne(map[]);
    MappingsAllOwned(map[], {});
  }

  /** The merge of the first lifecycle test: main's maps are non-empty. */
  lemma WebXmlOutcome(cm: set<Entry>, cpost: set<Entry>, cpre: set<Entry>)
    requires cm == {}
    ensures MergeOutcome(map[], map["a" := "a"], map["b" := "b"], cm, cpost, cpre)
         == Outcome(Normal(true), map[], map["a" := "a"], map["b" := "b"])
  {
    NothingContributed();
    OutcomeOfSteps(map[], map["a" := "a"], map["b" := "b"], cm, cpost, cpre,
      Normal(map[]), true, map["a" := "a"], true, map["b" := "b"]);
  }

  /** The merge of the second lifecycle test: main's maps are empty and the
      two fragments' classes are disjoint. */
  lemma WebFragmentsOutcome(cm: set<Entry>, cpost: set<Entry>, cpre: set<Entry>)
    requires cm == {}
    requires cpost == Entries(map["a" := "a"]) + Entries(map["c" := "c"])
    requires cpre == Entries(map["b" := "b"]) + Entries(map["d" := "d"])
    ensures MergeOutcome(map[], map[], map[], cm, cpost, cpre)
         == Outcome(Normal(true), map[], map["a" := "a", "c" := "c"], map["b" := "b", "d" := "d"])
  {
    assert MergeCallbacks(map[], cpost) == Some(map["a" := "a", "c" := "c"]) by {
      EntriesOfTwo("a", "a", "c", "c");
      CallbacksOfOne(map["a" := "a", "c" := "c"]);
    }
    assert MergeCallbacks(map[], cpre) == Some(map["b" := "b", "d" := "d"]) by {
      EntriesOfTwo("b", "b", "d", "d");
      CallbacksOfOne(map["b" := "b", "d" := "d"]);
    }
    NothingContributed();
    OutcomeOfSteps(map[], map[], map[], cm, cpost, cpre,
      Normal(map[]), true, map["a" := "a", "c" := "c"], true, map["b" := "b", "d" := "d"]);
  }

  /** The first merge of the conflict test stops at the post-construct
      conflict and writes no callback map. */
  lemma FirstConflictOutcome(cm: set<Entry>, cpost: set<Entry>, cpre: set<Entry>)
    requires cm == {}
    requires cpost == Entries(map["a" := "a"]) + Entries(map["a" := "b"])
    ensures MergeOutcome(map[], map[], map[], cm, cpost, cpre) == Outcome(Normal(false), map[], map[], map[])
  {
    assert MergeCallbacks(map[], cpost).None? by {
      EntriesOfOne("a", "a");
      EntriesOfOne("a", "b");
      ContestedCallbackFails(cpost, "a", "a", "b");
    }
    NothingContributed();
    OutcomeOfSteps(map[], map[], map[], cm, cpost, cpre, Normal(map[]), false, map[], true, map[]);
  }

  /** The second merge of the conflict test fills the post-construct map
      and stops at the pre-destroy conflict. */
  lemma SecondConflictOutcome(cm: set<Entry>, cpost: set<Entry>, cpre: set<Entry>)
    requires cm == {}
    requires cpost == Entries(map["a" := "a"]) + Entries(map[])
    requires cpre == Entries(map["b" := "a"]) + Entries(map["b" := "b"])
    ensures MergeOutcome(map[], map[], map[], cm, cpost, cpre) == Outcome(Normal(false), map[], map["a" := "a"], map[])
  {
    assert MergeCallbacks(map[], cpost) == Some(map["a" := "a"]) by {
      EntriesOfNone();
      assert cpost == Entries(map["a" := "a"]);
      CallbacksOfOne(map["a" := "a"]);
    }
    assert MergeCallbacks(map[], cpre).None? by {
      EntriesOfOne("b", "a");
      EntriesOfOne("b", "b");
      ContestedCallbackFails(cpre, "b", "a", "b");
    }
    NothingContributed();
    OutcomeOfSteps(map[], map[], map[], cm, cpost, cpre, Normal(map[]), true, map["a" := "a"], false, map[]);
  }

  /** The merge of the third servlet-mapping test: main owns "/foo". */
  lemma MainOwnsFooOutcome(cm: set<Entry>, cpost: set<Entry>, cpre: set<Entry>)
    requires cm == Entries(map["/foo" := "a"]) + Entries(map["/foo" := "b"])
    requires cpost == {} && cpre == {}
    ensures MergeOutcome(map["/foo" := "main"], map[], map[], cm, cpost, cpre)
         == Outcome(Normal(true), map["/foo" := "main"], map[], map[])
  {
    assert MergeMappings(map["/foo" := "main"], cm) == Some(map["/foo" := "main"]) by {
      EntriesOfOne("/foo", "a");
      EntriesOfOne("/foo", "b");
      MappingsAllOwned(map["/foo" := "main"], cm);
    }
    NothingContributed();
    OutcomeOfSteps(map["/foo" := "main"], map[], map[], cm, cpost, cpre,
      Normal(map["/foo" := "main"]), true, map[], true, map[]);
  }

  lemma WebFragmentsMerge(f1: WebXml, f2: WebXml)
    requires f1.servletMappings == map[] && f2.servletMappings == map[]
    requires f1.postConstructMethods == map["a" := "a"] && f2.postConstructMethods == map["c" := "c"]
    requires f1.preDestroyMethods == map["b" := "b"] && f2.preDestroyMethods == map["d" := "d"]
    ensures MergeOutcome(map[], map[], map[], Contributions({f1, f2}, ServletMapping),
              Contributions({f1, f2}, PostConstruct), Contributions({f1, f2}, PreDestroy))
         == Outcome(Normal(true), map[], map["a" := "a", "c" := "c"], map["b" := "b", "d" := "d"])
  {
    ContributionsOfTwo(f1, f2, ServletMapping);
    ContributionsOfTwo(f1, f2, PostConstruct);
    ContributionsOfTwo(f1, f2, PreDestroy);
    EntriesOfNone();
    WebFragmentsOutcome(Contributions({f1, f2}, ServletMapping),
      Contributions({f1, f2}, PostConstruct), Contributions({f1, f2}, PreDestroy));
  }

  lemma WebXmlMerge(f: WebXml)
    requires f.servletMappings == map[]
    ensures MergeOutcome(map[], map["a" := "a"], map["b" := "b"], Contributions({f}, ServletMapping),
              Contributions({f}, PostConstruct), Contributions({f}, PreDestroy))
         == Outcome(Normal(true), map[], map["a" := "a"], map["b" := "b"])
  {
    ContributionsOfOne(f, ServletMapping);
    EntriesOfNone();
    WebXmlOutcome(Contributions({f}, ServletMapping),
      Contributions({f}, PostConstruct), Contributions({f}, PreDestroy));
  }

  lemma FirstConflictMerge(f1: WebXml, f2: WebXml)
    requires f1.servletMappings == map[] && f2.servletMappings == map[]
    requires f1.postConstructMethods == map["a" := "a"] && f2.postConstructMethods == map["a" := "b"]
    ensures MergeOutcome(map[], map[], map[], Contributions({f1, f2}, ServletMapping),
              Contributions({f1, f2}, PostConstruct), Contributions({f1, f2}, PreDestroy))
         == Outcome(Normal(false), map[], map[], map[])
  {
    ContributionsOfTwo(f1, f2, ServletMapping);
    ContributionsOfTwo(f1, f2, PostConstruct);
    EntriesOfNone();
    FirstConflictOutcome(Contributions({f1, f2}, ServletMapping),
      Contributions({f1, f2}, PostConstruct), Contributions({f1, f2}, PreDestroy));
  }

  lemma SecondConflictMerge(f1: WebXml, f3: WebXml)
    requires f1.servletMappings == map[] && f3.servletMappings == map[]
    requires f1.postConstructMethods == map["a" := "a"] && f3.postConstructMethods == map[]
    requires f1.preDestroyMethods == map["b" := "a"] && f3.preDestroyMethods == map["b" := "b"]
    ensures MergeOutcome(map[], map[], map[], Contributions({f1, f3}, ServletMapping),
              Contributions({f1, f3}, PostConstruct), Contributions({f1, f3}, PreDestroy))
         == Outcome(Normal(false), map[], map["a" := "a"], map[])
  {
    ContributionsOfTwo(f1, f3, ServletMapping);
    ContributionsOfTwo(f1, f3, PostConstruct);
    ContributionsOfTwo(f1, f3, PreDestroy);
    EntriesOfNone();
    SecondConflictOutcome(Contributions({f1, f3}, ServletMapping),
      Contributions({f1, f3}, PostConstruct), Contributions({f1, f3}, PreDestroy));
  }

  lemma MainOwnsFooMerge(f1: WebXml, f2: WebXml)
    requires f1.servletMappings == map["/foo" := "a"] && f2.servletMappings == map["/foo" := "b"]
    requires f1.postConstructMethods == map[] && f2.postConstructMethods == map[]
    requires f1.preDestroyMethods == map[] && f2.preDestroyMethods == map[]
    ensures MergeOutcome(map["/foo" := "main"], map[], map[], Contributions({f1, f2}, ServletMapping),
              Contributions({f1, f2}, PostConstruct), Contributions({f1, f2}, PreDestroy))
         == Outcome(Normal(true), map["/foo" := "main"], map[], map[])
  {
    ContributionsOfTwo(f1, f2, ServletMapping);
    ContributionsOfTwo(f1, f2, PostConstruct);
    ContributionsOfTwo(f1, f2, PreDestroy);
    EntriesOfNone();
    MainOwnsFooOutcome(Contributions({f1, f2}, ServletMapping),
      Contributions({f1, f2}, PostConstruct), Contributions({f1, f2}, PreDestroy));
  }

  /** Main's non-empty callback maps win: the fragment's c -> c and d -> d
      are not added, and each map keeps its single entry. */
  method TestLifecycleMethodsWebXml() returns (post: FieldMap, pre: FieldMap)
    ensures post == map["a" := "a"] && pre == map["b" := "b"]
    ensures |post| == 1 && |pre| == 1
  {
    var webxml := new WebXml();
    webxml.AddPostConstructMethods("a", "a");
    webxml.AddPreDestroyMethods("b", "b");
    var fragment := new WebXml();
    fragment.AddPostConstructMethods("c", "c");
    fragment.AddPreDestroyMethods("d", "d");
    var fragments := {fragment};
    WebXmlMerge(fragment);
    var _ := webxml.Merge(fragments);
    post, pre := webxml.postConstructMethods, webxml.preDestroyMethods;
  }

  /** Into empty main maps, two fragments with disjoint classes merge to the
      union of their maps. */
  method TestLifecycleMethodsWebFragments() returns (r: Completion<bool>, post: FieldMap, pre: FieldMap)
    ensures r == Normal(true)
    ensures post == map["a" := "a", "c" := "c"] && pre == map["b" := "b", "d" := "d"]
    ensures |post| == 2 && |pre| == 2
  {
    var webxml := new WebXml();
    var fragment1 := new WebXml();
    fragment1.AddPostConstructMethods("a", "a");
    fragment1.AddPreDestroyMethods("b", "b");
    var fragment2 := new WebXml();
    fragment2.AddPostConstructMethods("c", "c");
    fragment2.AddPreDestroyMethods("d", "d");
    var fragments := {fragment1, fragment2};
    WebFragmentsMerge(fragment1, fragment2);
    r := webxml.Merge(fragments);
    post, pre := webxml.postConstructMethods, webxml.preDestroyMethods;
  }

  /** Two fragments give class "a" different post-construct methods: the
      merge returns false and writes neither callback map, so fragment1's
      pre-destroy b -> a is not committed. With fragment2 replaced by one
      giving "b" another pre-destroy method, the second merge fills the
      post-construct map and again returns false with the pre-destroy map
      still empty. */
  method TestLifecycleMethodsWebFragmentsWithConflicts()
    returns (first: Completion<bool>, postAfterFirst: FieldMap, second: Completion<bool>, preAfterSecond: FieldMap)
    ensures first == Normal(false) && |postAfterFirst| == 0
    ensures second == Normal(false) && |preAfterSecond| == 0
  {
    var webxml := new WebXml();
    var fragment1 := new WebXml();
    fragment1.AddPostConstructMethods("a", "a");
    fragment1.AddPreDestroyMethods("b", "a");
    var fragment2 := new WebXml();
    fragment2.AddPostConstructMethods("a", "b");
    var fragments := {fragment1, fragment2};
    FirstConflictMerge(fragment1, fragment2);
    first := webxml.Merge(fragments);
    postAfterFirst := webxml.postConstructMethods;

    var fragment3 := new WebXml();
    fragment3.AddPreDestroyMethods("b", "b");
    fragments := fragments - {fragment2} + {fragment3};
    assert fragments == {fragment1, fragment3};
    SecondConflictMerge(fragment1, fragment3);
    second := webxml.Merge(fragments);
    preAfterSecond := webxml.preDestroyMethods;
  }

  /** Binding "/foo" to a second servlet in one descriptor throws. */
  method TestBug54387a() returns (r: Completion<()>)
    ensures r == IllegalArgument
  {
    var webxml := new WebXml();
    var _ := webxml.AddServletMapping("/foo", "a");
    r := webxml.AddServletMapping("/foo", "b");
  }

  /** Two fragments map "/foo" to different servlets and the main
      descriptor does not map it: the merge throws. */
  method TestBug54387b() returns (r: Completion<bool>)
    ensures r == IllegalArgument
  {
    var webxml := new WebXml();
    var f1 := new WebXml();
    var f2 := new WebXml();
    var fragments := {f1, f2};
    var _ := f1.AddServletMapping("/foo", "a");
    var _ := f2.AddServletMapping("/foo", "b");
    ContributionsOfTwo(f1, f2, ServletMapping);
    EntriesOfOne("/foo", "a");
    EntriesOfOne("/foo", "b");
    ContestedMappingFails(webxml.servletMappings, Contributions(fragments, ServletMapping), "/foo", "a", "b");
    r := webxml.Merge(fragments);
  }

  /** The same fragments, but the main descriptor maps "/foo" itself: the
      merge completes and "/foo" stays with the main descriptor's servlet. */
  method TestBug54387c() returns (r: Completion<bool>, mappings: FieldMap)
    ensures r == Normal(true)
    ensures mappings == map["/foo" := "main"]
  {
    var webxml := new WebXml();
    var f1 := new WebXml();
    var f2 := new WebXml();
    var fragments := {f1, f2};
    var _ := f1.AddServletMapping("/foo", "a");
    var _ := f2.AddServletMapping("/foo", "b");
    var _ := webxml.AddServletMapping("/foo", "main");
    MainOwnsFooMerge(f1, f2);
    r := webxml.Merge(fragments);
    mappings := webxml.servletMappings;
  }
}
