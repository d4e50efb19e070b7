# WebXml descriptor model

A Dafny model of Apache Tomcat's in-memory web application descriptor,
`org.apache.tomcat.util.descriptor.web.WebXml`. It covers the part that
`TestWebXml` exercises:

- the specification version: the default 3.1, `setVersion`, `setPublicId`
  for the Servlet 2.2 and 2.3 DTD public identifiers, and `getVersion`'s
  "major.minor" rendering;
- the two lifecycle callback maps, post-construct and pre-destroy (class
  name to method name): `addPostConstructMethods` and
  `addPreDestroyMethods`;
- the servlet URL mappings (URL pattern to servlet name):
  `addServletMapping`;
- `merge`, which folds a set of web fragments into the main descriptor.

`WebXml.java` is not part of this model. The behaviour is rebuilt from
what `TestWebXml.java` asserts; where the tests leave a behaviour open,
"Left out" names the choice the model makes.

The files:

- `outcomes.dfy` (module `Outcomes`): `Option`, for null, and `Completion`,
  for a normal return or an `IllegalArgumentException`.
- `versions.dfy` (module `Versions`): parsing of version strings and
  public identifiers, and the decimal rendering of `getVersion`. The
  rendering is proved injective, so "major.minor" determines the version.
- `merge_rules.dfy` (module `MergeRules`): the two merge strategies as
  specification functions over sets of (key, value) entries.
  - Lifecycle callbacks are "override wins, soft conflict": a non-empty
    main map is kept; an empty one receives the fragments' union, or the
    merge fails.
  - Servlet mappings are "main takes priority, hard conflict": the main
    descriptor's own patterns are kept, and a pattern contested among
    fragments only makes the merge fail.
  - The module also defines the walk over one given order of fragments,
    `FoldUnion`, and proves that every order gives the same result.
- `web_xml.dfy` (module `Descriptor`): the `WebXml` class.
  - Its fields are updated in place by the setters, the adders and
    `Merge`.
  - The loops that walk the fragment set are static methods, each proved
    against the specification functions.
  - The module also holds the ghost function `MergeOutcome`, which says
    what a whole merge returns and leaves, and the lemmas about it.
- `web_xml_scenarios.dfy` (module `WebXmlScenarios`): each test of the
  descriptor, as a method whose postcondition states at least what that
  test asserts (some also state the merge's return value, which the test
  does not read), together with the lemmas that compute each scenario's
  merge outcome.

## Model

All sources are under `test/org/apache/tomcat/util/descriptor/web/`
(written out in full in each row).

| member | source | states |
|---|---|---|
| Descriptor.WebXml.constructor | test/org/apache/tomcat/util/descriptor/web/TestWebXml.java:44-48 | A new descriptor is at the default version 3.1, with no public id and empty callback and mapping maps. |
| Descriptor.WebXml.SetVersion | test/org/apache/tomcat/util/descriptor/web/TestWebXml.java:50-63 | A recognised version string sets both numbers to the version it names. An unrecognised string or null leaves the version as it was. No other field changes, and a valid version stays valid. |
| Versions.ParseVersion | test/org/apache/tomcat/util/descriptor/web/TestWebXml.java:89-130 | An attribute is recognised exactly when it is one of "2.4", "2.5", "3.0" and "3.1". A recognised string names a known version whose rendering is that same string. |
| Versions.ParseRenderRoundTrip | test/org/apache/tomcat/util/descriptor/web/TestWebXml.java:89-130 | Rendering an accepted version and parsing the result gives the same version back. |
| Versions.RenderInjective | test/org/apache/tomcat/util/descriptor/web/TestWebXml.java:66-86 | Two versions render to the same "major.minor" string if and only if they are equal. |
| Versions.ParsePublicId | test/org/apache/tomcat/util/descriptor/web/TestWebXml.java:66-86 | Exactly the 2.2 and 2.3 DTD public identifiers imply a version. That version is known, has major version 2, and renders as "2.2" or "2.3" respectively. |
| Descriptor.WebXml.SetPublicId | test/org/apache/tomcat/util/descriptor/web/TestWebXml.java:66-86 | A legacy public identifier sets the version it implies and is recorded. Any other identifier changes nothing. The maps are untouched. |
| Descriptor.WebXml.GetVersion | test/org/apache/tomcat/util/descriptor/web/TestWebXml.java:66-86 | Returns the "major.minor" rendering of the current version. |
| Descriptor.WebXml.AddPostConstructMethods | test/org/apache/tomcat/util/descriptor/web/TestWebXml.java:224-231 | Records a class's post-construct method when the class has none yet; an earlier entry for the class is kept. Nothing else changes. |
| Descriptor.WebXml.AddPreDestroyMethods | test/org/apache/tomcat/util/descriptor/web/TestWebXml.java:224-231 | Records a class's pre-destroy method when the class has none yet; an earlier entry for the class is kept. Nothing else changes. |
| Descriptor.WebXml.AddServletMapping | test/org/apache/tomcat/util/descriptor/web/TestWebXml.java:306-312 | Throws if and only if the pattern is already bound to a different servlet, and then leaves the mappings unchanged. Otherwise it binds the pattern. |
| Descriptor.WebXml.MergeLifecycleCallback | test/org/apache/tomcat/util/descriptor/web/TestWebXml.java:276-304 | Succeeds exactly when the fragment's map agrees with the callbacks collected so far. On success the result is their union. |
| Descriptor.WebXml.CollectCallbacks | test/org/apache/tomcat/util/descriptor/web/TestWebXml.java:247-304 | The loop over the fragment set, whichever fragment it picks next, succeeds exactly when the fragments' contributions are conflict-free. It then yields exactly those entries. |
| Descriptor.WebXml.MergeCallbackMap | test/org/apache/tomcat/util/descriptor/web/TestWebXml.java:223-274 | Merging one callback field returns the override-wins strategy's result. On a conflict it returns false and keeps the main map unchanged. |
| Descriptor.WebXml.MergeServletMappings | test/org/apache/tomcat/util/descriptor/web/TestWebXml.java:314-329 | One fragment's mappings outside the main descriptor's patterns are added, unless one of them disagrees with the mappings collected so far. That case is an IllegalArgument. |
| Descriptor.WebXml.CollectServletMappings | test/org/apache/tomcat/util/descriptor/web/TestWebXml.java:314-329 | The loop over the fragment set, whichever fragment it picks next, succeeds exactly when the contributions for patterns the main descriptor does not map are conflict-free. It then yields exactly those entries. |
| Descriptor.WebXml.MergeMappingMap | test/org/apache/tomcat/util/descriptor/web/TestWebXml.java:331-348 | Merging the servlet mappings returns the main-takes-priority strategy's result, or IllegalArgument when that strategy fails. |
| Descriptor.WebXml.MergeFields | test/org/apache/tomcat/util/descriptor/web/TestWebXml.java:276-304 | The three field merges, run in order without writing anything, compute `MergeOutcome`. |
| Descriptor.WebXml.Merge | test/org/apache/tomcat/util/descriptor/web/TestWebXml.java:223-348 | The return value and the three fields afterwards are `MergeOutcome` of the fields and contributions before the call. The version and the public id are unchanged. |
| Descriptor.OutcomeOfSteps | test/org/apache/tomcat/util/descriptor/web/TestWebXml.java:276-304 | A merge's outcome follows from its steps. A mapping failure throws and writes nothing. A post-construct failure returns false with the callback maps unwritten. Otherwise pre-destroy's success is the result. |
| Descriptor.MergeThrowsIffContested | test/org/apache/tomcat/util/descriptor/web/TestWebXml.java:314-329 | A merge throws if and only if two fragments map a pattern that the main descriptor does not map to different servlets. It then leaves all three fields unchanged. |
| Descriptor.MainCallbacksKept | test/org/apache/tomcat/util/descriptor/web/TestWebXml.java:223-245 | A non-empty main callback map comes out of any merge exactly as it went in. |
| Descriptor.MainMappingsKept | test/org/apache/tomcat/util/descriptor/web/TestWebXml.java:331-348 | Every pattern the main descriptor maps keeps its servlet through any merge. |
| Descriptor.MergeSoftConflict | test/org/apache/tomcat/util/descriptor/web/TestWebXml.java:276-304 | A merge returns false if and only if the mappings merge but a callback field with an empty main map receives conflicting contributions. The pre-destroy map is then unwritten. So is the post-construct map when the conflict is in that map. |
| Descriptor.MergeSucceeds | test/org/apache/tomcat/util/descriptor/web/TestWebXml.java:247-274 | A merge returns true if and only if all three fields merge. Each field then holds the main entries plus the contributions it accepted. |
| Descriptor.MergeIdempotent | test/org/apache/tomcat/util/descriptor/web/TestWebXml.java:223-245 | Merging the same fragments again after a merge that returned true changes nothing. |
| MergeRules.MergeCallbacks | test/org/apache/tomcat/util/descriptor/web/TestWebXml.java:223-304 | A non-empty main map is kept. An empty one succeeds exactly when the contributions are conflict-free, and then holds exactly those entries. |
| MergeRules.MergeMappings | test/org/apache/tomcat/util/descriptor/web/TestWebXml.java:314-348 | Succeeds exactly when the contributions for patterns outside the main map are conflict-free. The result's entries are then the main map's plus those contributions. |
| MergeRules.MappingConflictIffContested | test/org/apache/tomcat/util/descriptor/web/TestWebXml.java:314-329 | The mapping merge fails if and only if two contributions give an unowned pattern different values. |
| MergeRules.ContestedMappingFails | test/org/apache/tomcat/util/descriptor/web/TestWebXml.java:314-329 | One contested unowned pattern makes the mapping merge fail, whatever else is contributed. |
| MergeRules.MainMappingWins | test/org/apache/tomcat/util/descriptor/web/TestWebXml.java:331-348 | A pattern the main map owns keeps its value in any successful mapping merge. |
| MergeRules.MappingTraceable | test/org/apache/tomcat/util/descriptor/web/TestWebXml.java:331-348 | Every merged mapping comes from the main map or from a contribution for an unowned pattern. Every such contribution is present. |
| MergeRules.MappingsAllOwned | test/org/apache/tomcat/util/descriptor/web/TestWebXml.java:331-348 | When the main map owns every contributed pattern, the main map is the merge result, unchanged. |
| MergeRules.ContestedCallbackFails | test/org/apache/tomcat/util/descriptor/web/TestWebXml.java:276-293 | Two contributions that give one class different methods make the callback merge into an empty map fail. |
| MergeRules.CallbacksOfTwo | test/org/apache/tomcat/util/descriptor/web/TestWebXml.java:247-274 | Two fragments' callbacks merge into an empty map exactly when they agree on shared classes. The result is then their union. |
| MergeRules.DisjointCallbacks | test/org/apache/tomcat/util/descriptor/web/TestWebXml.java:247-274 | Fragments with disjoint classes always merge, and the result's size is the sum of their sizes. |
| MergeRules.UnionEntries | test/org/apache/tomcat/util/descriptor/web/TestWebXml.java:247-274 | Two fragments' entries together are conflict-free if and only if their maps agree on shared keys. Their map union then holds exactly both sets of entries. |
| MergeRules.MappingsSettled | test/org/apache/tomcat/util/descriptor/web/TestWebXml.java:331-348 | A mapping merge's result merges again with the same contributions to itself. |
| MergeRules.CallbacksSettled | test/org/apache/tomcat/util/descriptor/web/TestWebXml.java:223-274 | A callback merge's result merges again with the same contributions to itself. |
| MergeRules.FoldUnionMeaning | test/org/apache/tomcat/util/descriptor/web/TestWebXml.java:259-263 | Walking the fragments in one order succeeds exactly when all their entries are conflict-free. It then yields exactly those entries. |
| MergeRules.FoldUnionOrderFree | test/org/apache/tomcat/util/descriptor/web/TestWebXml.java:259-263 | Any two orders of the same fragments give the same outcome. |
| MergeRules.FoldUnionIsMergeCallbacks | test/org/apache/tomcat/util/descriptor/web/TestWebXml.java:259-263 | The walk in any order computes the callback strategy's result for an empty main map. |
| Descriptor.EnumerationEntries | test/org/apache/tomcat/util/descriptor/web/TestWebXml.java:259-263 | The entries met while enumerating a fragment set in any order are exactly the set's contributions. |
| Descriptor.AnyOrderWalk | test/org/apache/tomcat/util/descriptor/web/TestWebXml.java:259-263 | Walking a lifecycle field over any enumeration of a fragment set gives the callback strategy's result on that set's contributions. |
| WebXmlScenarios.TestParseVersion | test/org/apache/tomcat/util/descriptor/web/TestWebXml.java:41-64 | The version starts at 3.1 and becomes 2.5 after setting "2.5". It stays 2.5 after "0.0" and after null. |
| WebXmlScenarios.TestParsePublicIdVersion | test/org/apache/tomcat/util/descriptor/web/TestWebXml.java:66-86 | The 2.2 identifier gives 2.2, rendered "2.2". The 2.3 identifier gives 2.3, rendered "2.3". |
| WebXmlScenarios.TestParseVersionString | test/org/apache/tomcat/util/descriptor/web/TestWebXml.java:88-130 | Each of "2.4", "2.5", "3.0" and "3.1" sets the numbers it names, and `getVersion` renders the same string. |
| WebXmlScenarios.WebXmlOutcome | test/org/apache/tomcat/util/descriptor/web/TestWebXml.java:223-245 | With non-empty main callback maps, the merge returns true and keeps them unchanged. |
| WebXmlScenarios.TestLifecycleMethodsWebXml | test/org/apache/tomcat/util/descriptor/web/TestWebXml.java:223-245 | After the merge, the maps are exactly a -> a and b -> b, one entry each. |
| WebXmlScenarios.WebFragmentsOutcome | test/org/apache/tomcat/util/descriptor/web/TestWebXml.java:247-274 | Two fragments with disjoint classes fill empty main maps with their union. |
| WebXmlScenarios.TestLifecycleMethodsWebFragments | test/org/apache/tomcat/util/descriptor/web/TestWebXml.java:247-274 | The merge returns true. The maps are exactly {a -> a, c -> c} and {b -> b, d -> d}, two entries each. |
| WebXmlScenarios.FirstConflictOutcome | test/org/apache/tomcat/util/descriptor/web/TestWebXml.java:276-293 | A post-construct conflict returns false and writes neither callback map. |
| WebXmlScenarios.SecondConflictOutcome | test/org/apache/tomcat/util/descriptor/web/TestWebXml.java:295-303 | A pre-destroy conflict returns false after the post-construct map is filled. The pre-destroy map stays empty. |
| WebXmlScenarios.TestLifecycleMethodsWebFragmentsWithConflicts | test/org/apache/tomcat/util/descriptor/web/TestWebXml.java:276-304 | Both merges return false. The post-construct map is empty after the first, and the pre-destroy map is empty after the second. |
| WebXmlScenarios.TestBug54387a | test/org/apache/tomcat/util/descriptor/web/TestWebXml.java:306-312 | Binding "/foo" to a second servlet in the same descriptor throws. |
| WebXmlScenarios.TestBug54387b | test/org/apache/tomcat/util/descriptor/web/TestWebXml.java:314-329 | Two fragments that map "/foo" differently make the merge throw. |
| WebXmlScenarios.MainOwnsFooOutcome | test/org/apache/tomcat/util/descriptor/web/TestWebXml.java:331-348 | When the main descriptor maps "/foo", the fragments' contested "/foo" is ignored and the merge returns true. |
| WebXmlScenarios.TestBug54387c | test/org/apache/tomcat/util/descriptor/web/TestWebXml.java:331-348 | The merge returns true and the mappings are exactly "/foo" -> "main". |

## Left out

- XML output, schema and DTD validation, the Digester-based parsing and
  file I/O (`TestWebXml.java:132-221`). They need a parser, files and
  class-path resources. This also covers the default fragment those tests
  load.
- Every other descriptor field and the boolean flags (metadata-complete,
  distributable and so on) are left out. The tests cited above do not
  exercise them.
- The ordering of fragments is left out. `merge` is modelled on the set of
  fragments it receives. Its loops, `CollectCallbacks` and
  `CollectServletMappings`, pick the next fragment with an arbitrary
  choice, and their postconditions state the result over the set's
  contributions, so every iteration order gives that same result.
  `AnyOrderWalk` says the same of one explicit enumeration for the
  lifecycle fields; no such enumeration lemma is stated for the servlet
  mappings, whose order independence rests on the loop's contract alone.
- Java hashing and identity inside the `HashSet` of fragments are left
  out, including fragments mutated after they are added to the set
  (`TestWebXml.java:321-326`). The model's fragment set is a set of object
  references, and contributions are read when `Merge` runs.
- Null map values are not representable. A null public identifier is not
  modelled either: `SetPublicId` takes a string. A null version string is
  modelled as `None`.
- The log message for an unknown version string is not modelled.
- Descriptor.WebXml.Merge: computes all three field results before writing
  any field, rather than writing each field as soon as it is merged. No
  field's merge reads another field, so the state left behind is the
  same; the order of the writes is not modelled.
- Descriptor.MergeSoftConflict: follows the conflict test. A callback
  conflict stops the merge: the conflicting field and every later field
  stay unwritten, and the result is false. The alternative rule, dropping
  only the conflicting class and carrying on, is not modelled because it
  contradicts `TestWebXml.java:295-303`. Under that rule the first merge
  would drop class "a" but still commit fragment1's pre-destroy b -> a.
  The second merge would then find a non-empty main pre-destroy map, keep
  it and return true with one entry, where the test expects false and an
  empty map.
- Versions.ParseVersion: `setVersion` accepts only "2.4", "2.5", "3.0" and
  "3.1", the strings its tests set. Versions 2.2 and 2.3 are reached only
  through their public identifiers, as the validation tests do
  (`TestWebXml.java:166-171`). Whether `setVersion` also accepts "2.2"
  and "2.3" is not exercised; the model rejects them.
- Descriptor.WebXml.SetPublicId: records the identifier only when it is
  one of the two legacy ones; any other identifier leaves the recorded
  one as it was. The tests only set the legacy identifiers, so recording
  every identifier would fit them as well; the model does not take that
  reading.
- Descriptor.WebXml.AddPostConstructMethods: a second method for a class
  that already has one is ignored, so the first entry wins. The tests only
  add to fresh descriptors and do not fix this; replacing the entry would
  fit them as well.
- Descriptor.WebXml.AddServletMapping: makes two choices the tests leave
  open. After the `IllegalArgumentException` the mappings are as they were
  (`TestWebXml.java:306-312` expects the exception and reads no state
  afterwards). Binding a pattern again to the servlet it already has is a
  normal return that changes nothing; no test adds the same pair twice.
- Descriptor.WebXml.AddPreDestroyMethods: the same first-entry-wins choice
  as for the post-construct methods, equally not fixed by the tests.
- The order of the three field merges inside `merge` is a modelling
  choice: servlet mappings, then post-construct, then pre-destroy. The
  conflict test forces post-construct before pre-destroy. Where the
  mapping merge falls relative to the other two cannot be observed in the
  tests.
