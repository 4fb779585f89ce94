/**
 * The runtime marker library and the tracking reconciler
 * (`DynamicARImageTrackingManager`): the catalog is walked in order, each
 * usable entry's image is downloaded, validated into a mutable reference
 * library and bound to a hidden content object; the library is installed
 * once at the end; afterwards every tracking event shows or hides the bound
 * objects.
 *
 * The download, the validation job and CreateRuntimeLibrary are inputs:
 * `downloads[i]` and `statuses[i]` are what the engine reports for catalog
 * entry `i` (they are read only when entry `i` gets that far).
 */
module ImageTracking {
  import opened Wrappers
  import opened Transforms
  import StrapiApiClient

  /** A downloaded texture (a non-null `Texture2D`). */
  datatype Texture = Texture(id: nat)

  /** A prefab asset and the local scale its instances start with. */
  datatype Prefab = Prefab(id: nat, localScale: Vec3)

  /** One inspector entry mapping a prefab name to a prefab, which may be unset. */
  datatype PrefabMapping = PrefabMapping(prefabName: string, prefab: Option<Prefab>)

  /**
   * A catalog entry, flattened to the fields the manager reads.
   * `targetImageUrl` is `None` when the target image or its URL is null;
   * the three vectors are `None` when null in the catalog.
   */
  datatype Experience = Experience(
    name: string,
    isActive: bool,
    targetImageUrl: Option<string>,
    physicalSize: real,
    prefabName: string,
    scale: Option<Vec3>,
    position: Option<Vec3>,
    rotation: Option<Vec3>)

  /** `AddReferenceImageJobStatus` (`JobNone` is the engine's `None`). */
  datatype AddImageJobStatus = JobNone | Pending | Success | ErrorInvalidImage | ErrorUnknown

  /** An image committed to the mutable reference library. */
  datatype ReferenceImage = ReferenceImage(name: string, texture: Texture, physicalSize: real)

  /** A content object: its prefab, whether it is active, its pose and its local scale. */
  datatype ARObject = ARObject(name: string, prefab: Prefab, active: bool, pose: Pose, localScale: Vec3)

  /** `TrackingState` (`NotTracking` is the engine's `None`). */
  datatype TrackingState = NotTracking | Limited | Tracking

  /** A tracked image as the tracking event reports it. */
  datatype TrackedImage = TrackedImage(referenceName: string, trackingState: TrackingState, pose: Pose)

  /** The tables the library build writes, with the library under construction. */
  datatype Tables = Tables(
    arObjects: map<string, ARObject>,
    experienceData: map<string, Experience>,
    downloadedTextures: seq<Texture>,
    library: seq<ReferenceImage>)

  const DefaultPhysicalSize: real := 0.1

  // ---------------------------------------------------------------------
  // One catalog entry.

  predicate HasTargetImage(e: Experience) {
    e.targetImageUrl.Some? && e.targetImageUrl.value != ""
  }

  /** The entry is active and has an image, so its image is downloaded. */
  predicate Eligible(e: Experience) {
    e.isActive && HasTargetImage(e)
  }

  /** The image arrived and the validation job succeeded. */
  predicate Accepted(e: Experience, download: Option<Texture>, status: AddImageJobStatus) {
    Eligible(e) && download.Some? && status == Success
  }

  /** The physical size handed to the validation job; always positive. */
  function PhysicalSizeFor(e: Experience): (size: real)
    ensures size > 0.0
    ensures e.physicalSize > 0.0 ==> size == e.physicalSize
    ensures e.physicalSize <= 0.0 ==> size == DefaultPhysicalSize
  {
    if e.physicalSize > 0.0 then e.physicalSize else DefaultPhysicalSize
  }

  predicate IsFirstMatch(mappings: seq<PrefabMapping>, prefabName: string, i: int) {
    && 0 <= i < |mappings|
    && mappings[i].prefabName == prefabName
    && forall j :: 0 <= j < i ==> mappings[j].prefabName != prefabName
  }

  /** The prefab of the first mapping with the given name; `None` when none matches. */
  function FirstMatchPrefab(mappings: seq<PrefabMapping>, prefabName: string): (r: Option<Prefab>)
    ensures (forall i :: 0 <= i < |mappings| ==> mappings[i].prefabName != prefabName) ==> r == None
  {
    if mappings == [] then None
    else if mappings[0].prefabName == prefabName then mappings[0].prefab
    else FirstMatchPrefab(mappings[1..], prefabName)
  }

  /** The first mapping with the name decides, even when its prefab is unset. */
  lemma {:induction false} FirstMatchPrefabSpec(mappings: seq<PrefabMapping>, prefabName: string)
    ensures forall i :: IsFirstMatch(mappings, prefabName, i) ==>
      FirstMatchPrefab(mappings, prefabName) == mappings[i].prefab
  {
    if mappings != [] && mappings[0].prefabName != prefabName {
      FirstMatchPrefabSpec(mappings[1..], prefabName);
      forall i | IsFirstMatch(mappings, prefabName, i)
        ensures FirstMatchPrefab(mappings, prefabName) == mappings[i].prefab
      {
        assert IsFirstMatch(mappings[1..], prefabName, i - 1);
      }
    }
  }

  /** A new content object: the prefab's instance at the origin, scaled by the catalog when it gives a scale, hidden. */
  function NewObject(p: Prefab, e: Experience): (o: ARObject)
    ensures !o.active && o.pose == Origin && o.name == e.name && o.prefab == p
    ensures e.scale.Some? ==> o.localScale == e.scale.value
    ensures e.scale.None? ==> o.localScale == p.localScale
  {
    ARObject(e.name, p, false, Origin, if e.scale.Some? then e.scale.value else p.localScale)
  }

  /**
   * What one iteration of the build loop does to the tables: textures and
   * library images are only appended, at most one each; the entry's name is
   * recorded exactly when it is accepted; only that name can gain or change
   * an object; and the consistency of the tables is kept.
   */
  function Step(t: Tables, mappings: seq<PrefabMapping>, e: Experience,
                download: Option<Texture>, status: AddImageJobStatus): (r: Tables)
    ensures t.downloadedTextures <= r.downloadedTextures && |r.downloadedTextures| <= |t.downloadedTextures| + 1
    ensures t.library <= r.library && |r.library| <= |t.library| + 1
    ensures r.experienceData.Keys == t.experienceData.Keys + (if Accepted(e, download, status) then {e.name} else {})
    ensures forall k :: k in t.arObjects && k != e.name ==> k in r.arObjects && r.arObjects[k] == t.arObjects[k]
    ensures r.arObjects.Keys <= t.arObjects.Keys + {e.name}
    ensures Consistent(t.arObjects, t.experienceData) ==> Consistent(r.arObjects, r.experienceData)
  {
    if !Eligible(e) || download.None? then t
    else
      var t1 := t.(downloadedTextures := t.downloadedTextures + [download.value]);
      if status != Success then t1
      else
        var t2 := t1.(experienceData := t1.experienceData[e.name := e],
                      library := t1.library + [ReferenceImage(e.name, download.value, PhysicalSizeFor(e))]);
        match FirstMatchPrefab(mappings, e.prefabName)
        case None => t2
        case Some(p) => t2.(arObjects := t2.arObjects[e.name := NewObject(p, e)])
  }

  /** The oracle sequences line up with the catalog. */
  predicate Aligned(exps: seq<Experience>, downloads: seq<Option<Texture>>, statuses: seq<AddImageJobStatus>) {
    |downloads| == |exps| && |statuses| == |exps|
  }

  /**
   * The tables after the first `n` catalog entries, processed strictly in
   * order: the old textures and library images stay in front, and no
   * recorded name is ever dropped.
   */
  function Run(t: Tables, mappings: seq<PrefabMapping>, exps: seq<Experience>,
               downloads: seq<Option<Texture>>, statuses: seq<AddImageJobStatus>, n: nat): (r: Tables)
    requires Aligned(exps, downloads, statuses) && n <= |exps|
    ensures t.downloadedTextures <= r.downloadedTextures && t.library <= r.library
    ensures t.experienceData.Keys <= r.experienceData.Keys && t.arObjects.Keys <= r.arObjects.Keys
  {
    if n == 0 then t
    else Step(Run(t, mappings, exps, downloads, statuses, n - 1), mappings, exps[n - 1], downloads[n - 1], statuses[n - 1])
  }

  /** The textures entries `0..n-1` contribute: every downloaded image of an eligible entry, in order. */
  function DownloadedBy(exps: seq<Experience>, downloads: seq<Option<Texture>>, n: nat): (r: seq<Texture>)
    requires n <= |exps| && n <= |downloads|
    ensures |r| <= n
  {
    if n == 0 then []
    else if Eligible(exps[n - 1]) && downloads[n - 1].Some? then DownloadedBy(exps, downloads, n - 1) + [downloads[n - 1].value]
    else DownloadedBy(exps, downloads, n - 1)
  }

  /** The images entries `0..n-1` commit: one per accepted entry, in order, with the defaulted size. */
  function AcceptedImages(exps: seq<Experience>, downloads: seq<Option<Texture>>,
                          statuses: seq<AddImageJobStatus>, n: nat): (r: seq<ReferenceImage>)
    requires Aligned(exps, downloads, statuses) && n <= |exps|
    ensures |r| <= |DownloadedBy(exps, downloads, n)|
  {
    if n == 0 then []
    else if Accepted(exps[n - 1], downloads[n - 1], statuses[n - 1]) then
      AcceptedImages(exps, downloads, statuses, n - 1) + [ReferenceImage(exps[n - 1].name, downloads[n - 1].value, PhysicalSizeFor(exps[n - 1]))]
    else AcceptedImages(exps, downloads, statuses, n - 1)
  }

  /** The consistency the build keeps: objects only for recorded names, every table keyed by the record's own name. */
  predicate Consistent(objects: map<string, ARObject>, data: map<string, Experience>) {
    && objects.Keys <= data.Keys
    && (forall k :: k in objects ==> objects[k].name == k)
    && (forall k :: k in data ==> data[k].name == k)
  }

  // ---------------------------------------------------------------------
  // Properties of the build.

  /** An inactive entry, one without an image, or one whose download gave nothing changes no table. */
  lemma SkippedEntryChangesNothing(t: Tables, mappings: seq<PrefabMapping>, e: Experience,
                                   download: Option<Texture>, status: AddImageJobStatus)
    requires !e.isActive || !HasTargetImage(e) || download.None?
    ensures Step(t, mappings, e, download, status) == t
  {
  }

  /** A downloaded image is kept for release whatever the validation says; a rejected one adds nothing else. */
  lemma RejectedEntryKeepsTextureOnly(t: Tables, mappings: seq<PrefabMapping>, e: Experience,
                                      download: Option<Texture>, status: AddImageJobStatus)
    requires Eligible(e) && download.Some? && status != Success
    ensures Step(t, mappings, e, download, status) == t.(downloadedTextures := t.downloadedTextures + [download.value])
  {
  }

  lemma {:induction false} RunTextures(t: Tables, mappings: seq<PrefabMapping>, exps: seq<Experience>,
                                       downloads: seq<Option<Texture>>, statuses: seq<AddImageJobStatus>, n: nat)
    requires Aligned(exps, downloads, statuses) && n <= |exps|
    ensures Run(t, mappings, exps, downloads, statuses, n).downloadedTextures
         == t.downloadedTextures + DownloadedBy(exps, downloads, n)
  {
    if n > 0 {
      RunTextures(t, mappings, exps, downloads, statuses, n - 1);
    }
  }

  lemma {:induction false} RunConsistent(t: Tables, mappings: seq<PrefabMapping>, exps: seq<Experience>,
                                         downloads: seq<Option<Texture>>, statuses: seq<AddImageJobStatus>, n: nat)
    requires Aligned(exps, downloads, statuses) && n <= |exps|
    requires Consistent(t.arObjects, t.experienceData)
    ensures var r := Run(t, mappings, exps, downloads, statuses, n); Consistent(r.arObjects, r.experienceData)
  {
    if n > 0 {
      RunConsistent(t, mappings, exps, downloads, statuses, n - 1);
    }
  }

  /** Step, table by table. */
  lemma StepTables(t: Tables, mappings: seq<PrefabMapping>, e: Experience,
                   download: Option<Texture>, status: AddImageJobStatus)
    ensures var r := Step(t, mappings, e, download, status);
      && r.downloadedTextures == t.downloadedTextures + (if Eligible(e) && download.Some? then [download.value] else [])
      && r.library == t.library + (if Accepted(e, download, status) then [ReferenceImage(e.name, download.value, PhysicalSizeFor(e))] else [])
      && r.experienceData == (if Accepted(e, download, status) then t.experienceData[e.name := e] else t.experienceData)
      && r.arObjects == (if Accepted(e, download, status) && FirstMatchPrefab(mappings, e.prefabName).Some?
                         then t.arObjects[e.name := NewObject(FirstMatchPrefab(mappings, e.prefabName).value, e)]
                         else t.arObjects)
  {
  }

  /** Entry `i` among the first `n` is accepted and carries `name`. */
  predicate AcceptedWithName(exps: seq<Experience>, downloads: seq<Option<Texture>>,
                             statuses: seq<AddImageJobStatus>, n: nat, name: string, i: int)
    requires Aligned(exps, downloads, statuses) && n <= |exps|
  {
    0 <= i < n && Accepted(exps[i], downloads[i], statuses[i]) && exps[i].name == name
  }

  /** The last accepted entry with `name` among entries `0..n-1` is entry `i`. */
  predicate LastAcceptedAt(exps: seq<Experience>, downloads: seq<Option<Texture>>,
                           statuses: seq<AddImageJobStatus>, n: nat, name: string, i: int)
    requires Aligned(exps, downloads, statuses) && n <= |exps|
  {
    && AcceptedWithName(exps, downloads, statuses, n, name, i)
    && forall j :: i < j < n ==> !AcceptedWithName(exps, downloads, statuses, n, name, j)
  }

  /** `experienceData` gains a name exactly when an entry with that name is accepted. */
  lemma {:induction false} RunExperienceKeys(t: Tables, mappings: seq<PrefabMapping>, exps: seq<Experience>,
                                             downloads: seq<Option<Texture>>, statuses: seq<AddImageJobStatus>,
                                             n: nat, name: string)
    requires Aligned(exps, downloads, statuses) && n <= |exps|
    ensures name in Run(t, mappings, exps, downloads, statuses, n).experienceData <==>
      name in t.experienceData || exists i :: AcceptedWithName(exps, downloads, statuses, n, name, i)
  {
    if n > 0 {
      RunExperienceKeys(t, mappings, exps, downloads, statuses, n - 1, name);
      var r' := Run(t, mappings, exps, downloads, statuses, n - 1);
      assert Run(t, mappings, exps, downloads, statuses, n) == Step(r', mappings, exps[n - 1], downloads[n - 1], statuses[n - 1]);
      StepTables(r', mappings, exps[n - 1], downloads[n - 1], statuses[n - 1]);
      if AcceptedWithName(exps, downloads, statuses, n, name, n - 1) {
        assert name in Run(t, mappings, exps, downloads, statuses, n).experienceData;
      } else {
        assert name in Run(t, mappings, exps, downloads, statuses, n).experienceData <==> name in r'.experienceData;
        if exists i :: AcceptedWithName(exps, downloads, statuses, n, name, i) {
          var i :| AcceptedWithName(exps, downloads, statuses, n, name, i);
          assert AcceptedWithName(exps, downloads, statuses, n - 1, name, i);
        }
        var m := n - 1;
        if exists i :: AcceptedWithName(exps, downloads, statuses, m, name, i) {
          var i :| AcceptedWithName(exps, downloads, statuses, m, name, i);
          assert AcceptedWithName(exps, downloads, statuses, n, name, i);
        }
      }
    }
  }

  /** A name accepted more than once is recorded with the last such entry. */
  lemma {:induction false} RunExperienceLastWins(t: Tables, mappings: seq<PrefabMapping>, exps: seq<Experience>,
                                                 downloads: seq<Option<Texture>>, statuses: seq<AddImageJobStatus>,
                                                 n: nat, name: string, i: int)
    requires Aligned(exps, downloads, statuses) && n <= |exps|
    requires LastAcceptedAt(exps, downloads, statuses, n, name, i)
    ensures var r := Run(t, mappings, exps, downloads, statuses, n);
      name in r.experienceData && r.experienceData[name] == exps[i]
  {
    StepTables(Run(t, mappings, exps, downloads, statuses, n - 1), mappings, exps[n - 1], downloads[n - 1], statuses[n - 1]);
    if i < n - 1 {
      assert !AcceptedWithName(exps, downloads, statuses, n, name, n - 1);
      var m := n - 1;
      forall j | i < j < m
        ensures !AcceptedWithName(exps, downloads, statuses, m, name, j)
      {
        assert !AcceptedWithName(exps, downloads, statuses, n, name, j);
      }
      RunExperienceLastWins(t, mappings, exps, downloads, statuses, n - 1, name, i);
    }
  }

  /** A name no accepted entry carries keeps its old record, or stays unrecorded. */
  lemma {:induction false} RunExperienceUntouched(t: Tables, mappings: seq<PrefabMapping>, exps: seq<Experience>,
                                                  downloads: seq<Option<Texture>>, statuses: seq<AddImageJobStatus>,
                                                  n: nat, name: string)
    requires Aligned(exps, downloads, statuses) && n <= |exps|
    requires forall i :: !AcceptedWithName(exps, downloads, statuses, n, name, i)
    ensures var r := Run(t, mappings, exps, downloads, statuses, n);
      && (name in r.experienceData <==> name in t.experienceData)
      && (name in t.experienceData ==> r.experienceData[name] == t.experienceData[name])
  {
    if n > 0 {
      assert !AcceptedWithName(exps, downloads, statuses, n, name, n - 1);
      var m := n - 1;
      forall j ensures !AcceptedWithName(exps, downloads, statuses, m, name, j)
      {
        assert !AcceptedWithName(exps, downloads, statuses, n, name, j);
      }
      RunExperienceUntouched(t, mappings, exps, downloads, statuses, n - 1, name);
      StepTables(Run(t, mappings, exps, downloads, statuses, n - 1), mappings, exps[n - 1], downloads[n - 1], statuses[n - 1]);
    }
  }

  /**
   * `arObjects` gains a name exactly when an entry with that name is
   * accepted and its prefab name resolves; every object it gains is the
   * hidden, origin-placed instance of such an entry.
   */
  lemma {:induction false} RunObjects(t: Tables, mappings: seq<PrefabMapping>, exps: seq<Experience>,
                                      downloads: seq<Option<Texture>>, statuses: seq<AddImageJobStatus>,
                                      n: nat, name: string)
    requires Aligned(exps, downloads, statuses) && n <= |exps|
    ensures var r := Run(t, mappings, exps, downloads, statuses, n);
      name in r.arObjects <==>
        name in t.arObjects ||
        exists i :: 0 <= i < n && Accepted(exps[i], downloads[i], statuses[i]) && exps[i].name == name
                    && FirstMatchPrefab(mappings, exps[i].prefabName).Some?
    ensures var r := Run(t, mappings, exps, downloads, statuses, n);
      name in r.arObjects ==>
        (name in t.arObjects && r.arObjects[name] == t.arObjects[name]) ||
        exists i :: 0 <= i < n && Accepted(exps[i], downloads[i], statuses[i]) && exps[i].name == name
                    && FirstMatchPrefab(mappings, exps[i].prefabName).Some?
                    && r.arObjects[name] == NewObject(FirstMatchPrefab(mappings, exps[i].prefabName).value, exps[i])
  {
    if n > 0 {
      RunObjects(t, mappings, exps, downloads, statuses, n - 1, name);
      var r' := Run(t, mappings, exps, downloads, statuses, n - 1);
      var r := Run(t, mappings, exps, downloads, statuses, n);
      assert r == Step(r', mappings, exps[n - 1], downloads[n - 1], statuses[n - 1]);
      StepTables(r', mappings, exps[n - 1], downloads[n - 1], statuses[n - 1]);
      if name in r.arObjects && !(name in r'.arObjects && r.arObjects[name] == r'.arObjects[name]) {
        assert Accepted(exps[n - 1], downloads[n - 1], statuses[n - 1]) && exps[n - 1].name == name;
      }
      if exists i :: 0 <= i < n && Accepted(exps[i], downloads[i], statuses[i]) && exps[i].name == name
                    && FirstMatchPrefab(mappings, exps[i].prefabName).Some? {
        var i :| 0 <= i < n && Accepted(exps[i], downloads[i], statuses[i]) && exps[i].name == name
                 && FirstMatchPrefab(mappings, exps[i].prefabName).Some?;
        if i < n - 1 {
          assert 0 <= i < n - 1 && Accepted(exps[i], downloads[i], statuses[i]) && exps[i].name == name
                 && FirstMatchPrefab(mappings, exps[i].prefabName).Some?;
        }
      }
    }
  }

  /** Entry `i` among the first `n` is accepted, carries `name`, and its prefab name resolves. */
  predicate BoundWithName(mappings: seq<PrefabMapping>, exps: seq<Experience>, downloads: seq<Option<Texture>>,
                          statuses: seq<AddImageJobStatus>, n: nat, name: string, i: int)
    requires Aligned(exps, downloads, statuses) && n <= |exps|
  {
    AcceptedWithName(exps, downloads, statuses, n, name, i) && FirstMatchPrefab(mappings, exps[i].prefabName).Some?
  }

  /**
   * A name that several accepted entries carry is bound to the instance of
   * the last of them whose prefab resolves. That entry need not be the one
   * the record keeps (see ScenarioRecordAndObjectDiffer).
   */
  lemma {:induction false} RunObjectsLastWins(t: Tables, mappings: seq<PrefabMapping>, exps: seq<Experience>,
                                              downloads: seq<Option<Texture>>, statuses: seq<AddImageJobStatus>,
                                              n: nat, name: string, i: int)
    requires Aligned(exps, downloads, statuses) && n <= |exps|
    requires BoundWithName(mappings, exps, downloads, statuses, n, name, i)
    requires forall j :: i < j < n ==> !BoundWithName(mappings, exps, downloads, statuses, n, name, j)
    ensures var r := Run(t, mappings, exps, downloads, statuses, n);
      name in r.arObjects && r.arObjects[name] == NewObject(FirstMatchPrefab(mappings, exps[i].prefabName).value, exps[i])
  {
    StepTables(Run(t, mappings, exps, downloads, statuses, n - 1), mappings, exps[n - 1], downloads[n - 1], statuses[n - 1]);
    if i < n - 1 {
      assert !BoundWithName(mappings, exps, downloads, statuses, n, name, n - 1);
      var m := n - 1;
      forall j | i < j < m
        ensures !BoundWithName(mappings, exps, downloads, statuses, m, name, j)
      {
        assert !BoundWithName(mappings, exps, downloads, statuses, n, name, j);
      }
      RunObjectsLastWins(t, mappings, exps, downloads, statuses, n - 1, name, i);
    }
  }

  /**
   * Two accepted entries share a name; only the first one's prefab
   * resolves. The record is the second entry, the object the first one's
   * instance, so tracking places the first entry's object with the second
   * entry's offsets.
   */
  lemma ScenarioRecordAndObjectDiffer(p: Prefab, tex1: Texture, tex2: Texture)
    ensures var a1 := Experience("x", true, Some("a.png"), 0.0, "dragon", None, None, None);
      var a2 := Experience("x", true, Some("b.png"), 0.0, "missing", None, None, Some(Vec3(0.0, 90.0, 0.0)));
      var r := Run(Tables(map[], map[], [], []), [PrefabMapping("dragon", Some(p))], [a1, a2],
                   [Some(tex1), Some(tex2)], [Success, Success], 2);
      && r.experienceData.Keys == {"x"} && r.experienceData["x"] == a2
      && r.arObjects.Keys == {"x"} && r.arObjects["x"] == NewObject(p, a1)
  {
    var a1 := Experience("x", true, Some("a.png"), 0.0, "dragon", None, None, None);
    var a2 := Experience("x", true, Some("b.png"), 0.0, "missing", None, None, Some(Vec3(0.0, 90.0, 0.0)));
    var mappings := [PrefabMapping("dragon", Some(p))];
    var exps, downloads, statuses := [a1, a2], [Some(tex1), Some(tex2)], [Success, Success];
    var t0 := Tables(map[], map[], [], []);
    assert |"dragon"| != |"missing"|;
    assert FirstMatchPrefab(mappings, "missing") == None;
    assert Run(t0, mappings, exps, downloads, statuses, 0) == t0;
    var r1 := Run(t0, mappings, exps, downloads, statuses, 1);
    assert exps[0] == a1 && downloads[0] == Some(tex1) && statuses[0] == Success;
    assert r1 == Step(t0, mappings, a1, Some(tex1), Success);
    assert r1.experienceData == map["x" := a1] && r1.arObjects == map["x" := NewObject(p, a1)];
    var r2 := Run(t0, mappings, exps, downloads, statuses, 2);
    assert exps[1] == a2 && downloads[1] == Some(tex2) && statuses[1] == Success;
    assert r2 == Step(r1, mappings, a2, Some(tex2), Success);
    assert r2.experienceData == map["x" := a2] && r2.arObjects == r1.arObjects;
  }

  /** The library gains exactly the accepted images, after the old ones. */
  lemma {:induction false} RunLibrary(t: Tables, mappings: seq<PrefabMapping>, exps: seq<Experience>,
                                      downloads: seq<Option<Texture>>, statuses: seq<AddImageJobStatus>, n: nat)
    requires Aligned(exps, downloads, statuses) && n <= |exps|
    ensures Run(t, mappings, exps, downloads, statuses, n).library == t.library + AcceptedImages(exps, downloads, statuses, n)
  {
    if n > 0 {
      RunLibrary(t, mappings, exps, downloads, statuses, n - 1);
      StepTables(Run(t, mappings, exps, downloads, statuses, n - 1), mappings, exps[n - 1], downloads[n - 1], statuses[n - 1]);
    }
  }

  /** Every committed image is that of an accepted entry, with its name, texture and defaulted physical size. */
  lemma {:induction false} AcceptedImagesFromCatalog(exps: seq<Experience>, downloads: seq<Option<Texture>>,
                                                     statuses: seq<AddImageJobStatus>, n: nat, k: nat)
    requires Aligned(exps, downloads, statuses) && n <= |exps|
    requires k < |AcceptedImages(exps, downloads, statuses, n)|
    ensures exists i :: (0 <= i < n && Accepted(exps[i], downloads[i], statuses[i])
      && AcceptedImages(exps, downloads, statuses, n)[k] == ReferenceImage(exps[i].name, downloads[i].value, PhysicalSizeFor(exps[i])))
  {
    var prev := AcceptedImages(exps, downloads, statuses, n - 1);
    if k < |prev| {
      AcceptedImagesFromCatalog(exps, downloads, statuses, n - 1, k);
      var i :| 0 <= i < n - 1 && Accepted(exps[i], downloads[i], statuses[i])
        && prev[k] == ReferenceImage(exps[i].name, downloads[i].value, PhysicalSizeFor(exps[i]));
      assert AcceptedImages(exps, downloads, statuses, n)[k] == prev[k];
    } else {
      assert Accepted(exps[n - 1], downloads[n - 1], statuses[n - 1]);
    }
  }

  /** At most one new record per accepted entry, and never more objects than records. */
  lemma {:induction false} RunCounts(t: Tables, mappings: seq<PrefabMapping>, exps: seq<Experience>,
                                     downloads: seq<Option<Texture>>, statuses: seq<AddImageJobStatus>, n: nat)
    requires Aligned(exps, downloads, statuses) && n <= |exps|
    requires Consistent(t.arObjects, t.experienceData)
    ensures var r := Run(t, mappings, exps, downloads, statuses, n);
      && |r.arObjects| <= |r.experienceData|
      && |r.experienceData| <= |t.experienceData| + |AcceptedImages(exps, downloads, statuses, n)|
  {
    RunConsistent(t, mappings, exps, downloads, statuses, n);
    var r := Run(t, mappings, exps, downloads, statuses, n);
    SubsetCard(r.arObjects.Keys, r.experienceData.Keys);
    var names := AcceptedNames(exps, downloads, statuses, n);
    forall name | name in r.experienceData
      ensures name in t.experienceData.Keys + names
    {
      RunExperienceKeys(t, mappings, exps, downloads, statuses, n, name);
      if name !in t.experienceData {
        var i :| AcceptedWithName(exps, downloads, statuses, n, name, i);
        AcceptedNamesSpec(exps, downloads, statuses, n, name, i);
      }
    }
    SubsetCard(r.experienceData.Keys, t.experienceData.Keys + names);
    UnionCard(t.experienceData.Keys, names);
    AcceptedNamesCount(exps, downloads, statuses, n);
  }

  /** The names of the accepted entries among the first `n`. */
  function AcceptedNames(exps: seq<Experience>, downloads: seq<Option<Texture>>,
                         statuses: seq<AddImageJobStatus>, n: nat): set<string>
    requires Aligned(exps, downloads, statuses) && n <= |exps|
  {
    if n == 0 then {}
    else if Accepted(exps[n - 1], downloads[n - 1], statuses[n - 1]) then AcceptedNames(exps, downloads, statuses, n - 1) + {exps[n - 1].name}
    else AcceptedNames(exps, downloads, statuses, n - 1)
  }

  lemma {:induction false} AcceptedNamesSpec(exps: seq<Experience>, downloads: seq<Option<Texture>>,
                                             statuses: seq<AddImageJobStatus>, n: nat, name: string, i: int)
    requires Aligned(exps, downloads, statuses) && n <= |exps|
    requires AcceptedWithName(exps, downloads, statuses, n, name, i)
    ensures name in AcceptedNames(exps, downloads, statuses, n)
  {
    if i < n - 1 {
      AcceptedNamesSpec(exps, downloads, statuses, n - 1, name, i);
    }
  }

  lemma {:induction false} AcceptedNamesCount(exps: seq<Experience>, downloads: seq<Option<Texture>>,
                                              statuses: seq<AddImageJobStatus>, n: nat)
    requires Aligned(exps, downloads, statuses) && n <= |exps|
    ensures |AcceptedNames(exps, downloads, statuses, n)| <= |AcceptedImages(exps, downloads, statuses, n)|
  {
    if n > 0 {
      AcceptedNamesCount(exps, downloads, statuses, n - 1);
      var prev := AcceptedNames(exps, downloads, statuses, n - 1);
      assert |prev + {exps[n - 1].name}| <= |prev| + 1;
    }
  }

  lemma SubsetCard<K>(a: set<K>, b: set<K>)
    requires a <= b
    ensures |a| <= |b|
  {
    assert b == a + (b - a);
  }

  lemma UnionCard<K>(a: set<K>, b: set<K>)
    ensures |a + b| <= |a| + |b|
  {
    assert a + b == a + (b - a);
  }

  /** A catalog entry that is bound to an object from an empty start produced that object and a record. */
  lemma ScenarioSingleCard(mappings: seq<PrefabMapping>, p: Prefab, tex: Texture)
    requires mappings == [PrefabMapping("dragon", Some(p))]
    ensures var e := Experience("card-a", true, Some("ok.png"), 0.0, "dragon", None, None, None);
      var r := Run(Tables(map[], map[], [], []), mappings, [e], [Some(tex)], [Success], 1);
      && r.experienceData.Keys == {"card-a"}
      && r.arObjects.Keys == {"card-a"}
      && !r.arObjects["card-a"].active
      && r.library == [ReferenceImage("card-a", tex, 0.1)]
      && r.downloadedTextures == [tex]
  {
  }

  /** A failed download leaves every table empty. */
  lemma ScenarioFailedDownload(mappings: seq<PrefabMapping>)
    ensures var e := Experience("card-b", true, Some("bad.png"), 0.0, "dragon", None, None, None);
      Run(Tables(map[], map[], [], []), mappings, [e], [None], [Success], 1) == Tables(map[], map[], [], [])
  {
  }

  // ---------------------------------------------------------------------
  // Tracking reconciliation.

  /** What one tracked image does to its bound object: hide it, or show it at the tracked pose with the catalog offsets. */
  function Reconcile(o: ARObject, image: TrackedImage, experience: Option<Experience>): (r: ARObject)
    ensures r.name == o.name && r.prefab == o.prefab && r.localScale == o.localScale
    ensures r.active <==> image.trackingState == Tracking
    ensures !r.active ==> r.pose == o.pose
    ensures r.active && experience.Some? ==> r.pose == Compose(image.pose, experience.value.position, experience.value.rotation)
    ensures r.active && experience.None? ==> r.pose == image.pose
  {
    if image.trackingState == Limited || image.trackingState == NotTracking then o.(active := false)
    else
      assert image.trackingState == Tracking;
      var pose := if experience.Some? then Compose(image.pose, experience.value.position, experience.value.rotation) else image.pose;
      o.(active := true, pose := pose)
  }

  /** The observation names `name`. */
  predicate About(image: Option<TrackedImage>, name: string) {
    image.Some? && image.value.referenceName == name
  }

  /**
   * `UpdateTrackedImage` on the object table: null images, empty and
   * unknown names are ignored; otherwise only the object bound to the
   * image's name changes, and the set of bound names stays the same.
   */
  function Observe(objects: map<string, ARObject>, data: map<string, Experience>, image: Option<TrackedImage>): (r: map<string, ARObject>)
    ensures r.Keys == objects.Keys
    ensures forall name :: name in objects && !About(image, name) ==> r[name] == objects[name]
    ensures image.None? || image.value.referenceName == "" || image.value.referenceName !in objects ==> r == objects
  {
    if image.None? || image.value.referenceName == "" || image.value.referenceName !in objects then objects
    else
      var name := image.value.referenceName;
      objects[name := Reconcile(objects[name], image.value, if name in data then Some(data[name]) else None)]
  }

  /** A batch of observations applied in order; it never changes which names are bound. */
  function ObserveAll(objects: map<string, ARObject>, data: map<string, Experience>, batch: seq<Option<TrackedImage>>): (r: map<string, ARObject>)
    ensures r.Keys == objects.Keys
  {
    if batch == [] then objects
    else Observe(ObserveAll(objects, data, batch[..|batch| - 1]), data, batch[|batch| - 1])
  }

  /** `Limited` or `None` hides the object and leaves its pose; any other state shows it at the composed pose. */
  lemma ObserveBound(objects: map<string, ARObject>, data: map<string, Experience>, image: TrackedImage)
    requires image.referenceName != "" && image.referenceName in objects && image.referenceName in data
    ensures var o := objects[image.referenceName];
      var e := data[image.referenceName];
      var o' := Observe(objects, data, Some(image))[image.referenceName];
      && (image.trackingState != Tracking ==> o' == o.(active := false))
      && (image.trackingState == Tracking ==> o' == o.(active := true, pose := Compose(image.pose, e.position, e.rotation)))
  {
  }

  /** A `Tracking` frame followed by a `Limited` one hides the object and keeps the pose of the tracked frame. */
  lemma TrackedThenLimited(objects: map<string, ARObject>, data: map<string, Experience>, name: string, p1: Pose, p2: Pose)
    requires name != "" && name in objects && name in data
    ensures var after := Observe(Observe(objects, data, Some(TrackedImage(name, Tracking, p1))), data,
                                 Some(TrackedImage(name, Limited, p2)))[name];
      !after.active && after.pose == Compose(p1, data[name].position, data[name].rotation)
  {
  }

  lemma {:induction false} ObserveAllConcat(objects: map<string, ARObject>, data: map<string, Experience>,
                                            a: seq<Option<TrackedImage>>, b: seq<Option<TrackedImage>>)
    ensures ObserveAll(objects, data, a + b) == ObserveAll(ObserveAll(objects, data, a), data, b)
  {
    if b != [] {
      assert (a + b)[..|a + b| - 1] == a + b[..|b| - 1];
      ObserveAllConcat(objects, data, a, b[..|b| - 1]);
    } else {
      assert a + b == a;
    }
  }

  /** A batch never changes an object it does not mention. */
  lemma {:induction false} ObserveAllFrame(objects: map<string, ARObject>, data: map<string, Experience>,
                                           batch: seq<Option<TrackedImage>>, name: string)
    ensures name in objects && (forall i :: 0 <= i < |batch| ==> !About(batch[i], name)) ==>
      ObserveAll(objects, data, batch)[name] == objects[name]
  {
    if batch != [] {
      ObserveAllFrame(objects, data, batch[..|batch| - 1], name);
    }
  }

  /** Visibility follows the latest observation of a bound name in a batch, with no debouncing. */
  lemma {:induction false} LatestObservationDecides(objects: map<string, ARObject>, data: map<string, Experience>,
                                                    batch: seq<Option<TrackedImage>>, name: string, i: nat)
    requires name != "" && name in objects
    requires i < |batch| && About(batch[i], name)
    requires forall j :: i < j < |batch| ==> !About(batch[j], name)
    ensures name in ObserveAll(objects, data, batch)
    ensures ObserveAll(objects, data, batch)[name].active == (batch[i].value.trackingState == Tracking)
  {
    var prefix := batch[..|batch| - 1];
    ObserveAllFrame(objects, data, prefix, name);
    if i < |batch| - 1 {
      LatestObservationDecides(objects, data, prefix, name, i);
    }
  }

  // ---------------------------------------------------------------------
  // The component.

  /**
   * The callback `GetARExperiences` invokes for the manager, whose lambdas
   * do not throw: the response's entry list (`None` for a null response or
   * list), or an error text.
   */
  type FetchOutcome = StrapiApiClient.Callback<Option<seq<Experience>>>

  /** The fetch produced a non-empty catalog, so the build runs. */
  predicate CatalogLoaded(fetch: FetchOutcome) {
    fetch.OnSuccess? && fetch.value.Some? && |fetch.value.value| > 0
  }

  class TrackingManager {
    /** The inspector's prefab mappings. */
    const prefabMappings: seq<PrefabMapping>

    var arObjects: map<string, ARObject>
    var experienceData: map<string, Experience>
    var downloadedTextures: seq<Texture>

    /** `trackedImageManager.referenceLibrary` as assigned by this component (`None` until then). */
    var referenceLibrary: Option<seq<ReferenceImage>>
    /** `trackedImageManager.enabled`. */
    var trackingEnabled: bool
    /** Whether `OnImagesTrackedChanged` is subscribed to `trackablesChanged`. */
    var listening: bool
    var isInitialized: bool

    /** How many times the reference library has been assigned. */
    ghost var libraryInstalls: nat
    /** The textures handed to `Destroy`. */
    ghost var destroyedTextures: seq<Texture>

    ghost predicate Valid()
      reads this
    {
      Consistent(arObjects, experienceData)
    }

    /** The tables a build starts from, with an empty new library. */
    function Snapshot(): Tables
      reads this
    {
      Tables(arObjects, experienceData, downloadedTextures, [])
    }

    constructor (mappings: seq<PrefabMapping>, initiallyEnabled: bool)
      ensures Valid()
      ensures prefabMappings == mappings
      ensures arObjects == map[] && experienceData == map[] && downloadedTextures == []
      ensures referenceLibrary == None && trackingEnabled == initiallyEnabled
      ensures !listening && !isInitialized
      ensures libraryInstalls == 0 && destroyedTextures == []
    {
      prefabMappings := mappings;
      arObjects, experienceData, downloadedTextures := map[], map[], [];
      referenceLibrary := None;
      trackingEnabled := initiallyEnabled;
      listening, isInitialized := false, false;
      libraryInstalls, destroyedTextures := 0, [];
    }

    /** `Start`: tracking is disabled until the catalog has been processed. */
    method Start()
      modifies this`trackingEnabled
      ensures !trackingEnabled
    {
      trackingEnabled := false;
    }

    /** `GetPrefabByName`: the first mapping with that name decides, even when its prefab is unset. */
    method GetPrefabByName(prefabName: string) returns (prefab: Option<Prefab>)
      ensures (forall i :: 0 <= i < |prefabMappings| ==> prefabMappings[i].prefabName != prefabName) ==> prefab == None
      ensures forall i :: IsFirstMatch(prefabMappings, prefabName, i) ==> prefab == prefabMappings[i].prefab
      ensures prefab == FirstMatchPrefab(prefabMappings, prefabName)
    {
      FirstMatchPrefabSpec(prefabMappings, prefabName);
      var i := 0;
      while i < |prefabMappings|
        invariant 0 <= i <= |prefabMappings|
        invariant forall j :: 0 <= j < i ==> prefabMappings[j].prefabName != prefabName
      {
        if prefabMappings[i].prefabName == prefabName {
          assert IsFirstMatch(prefabMappings, prefabName, i);
          return prefabMappings[i].prefab;
        }
        i := i + 1;
      }
      return None;
    }

    /**
     * `LoadARExperiences`: walks the catalog in order and installs the new
     * library once after the loop; nothing happens when the runtime
     * library cannot be created.
     */
    method LoadARExperiences(experiences: seq<Experience>, downloads: seq<Option<Texture>>,
                             statuses: seq<AddImageJobStatus>, libraryCreated: bool)
      requires Valid() && Aligned(experiences, downloads, statuses)
      modifies this
      ensures Valid()
      ensures !libraryCreated ==>
        && arObjects == old(arObjects) && experienceData == old(experienceData)
        && downloadedTextures == old(downloadedTextures)
        && referenceLibrary == old(referenceLibrary) && libraryInstalls == old(libraryInstalls)
      ensures libraryCreated ==>
        var r := Run(old(Snapshot()), prefabMappings, experiences, downloads, statuses, |experiences|);
        && arObjects == r.arObjects && experienceData == r.experienceData
        && downloadedTextures == r.downloadedTextures
        && referenceLibrary == Some(r.library) && libraryInstalls == old(libraryInstalls) + 1
      ensures trackingEnabled == old(trackingEnabled) && listening == old(listening)
      ensures isInitialized == old(isInitialized) && destroyedTextures == old(destroyedTextures)
    {
      if !libraryCreated {
        return;
      }
      ghost var start := Snapshot();
      var imageLibrary: seq<ReferenceImage> := [];
      var i := 0;
      while i < |experiences|
        invariant 0 <= i <= |experiences|
        invariant Tables(arObjects, experienceData, downloadedTextures, imageLibrary)
               == Run(start, prefabMappings, experiences, downloads, statuses, i)
        invariant referenceLibrary == old(referenceLibrary) && libraryInstalls == old(libraryInstalls)
        invariant trackingEnabled == old(trackingEnabled) && listening == old(listening)
        invariant isInitialized == old(isInitialized) && destroyedTextures == old(destroyedTextures)
      {
        ghost var before := Tables(arObjects, experienceData, downloadedTextures, imageLibrary);
        StepTables(before, prefabMappings, experiences[i], downloads[i], statuses[i]);
        var experience := experiences[i];
        if experience.isActive && HasTargetImage(experience) {
          var texture := downloads[i];
          if texture.Some? {
            downloadedTextures := downloadedTextures + [texture.value];
            var physicalSize := PhysicalSizeFor(experience);
            var status := statuses[i];
            if status == Success {
              imageLibrary := imageLibrary + [ReferenceImage(experience.name, texture.value, physicalSize)];
              experienceData := experienceData[experience.name := experience];
              var prefab := GetPrefabByName(experience.prefabName);
              if prefab.Some? {
                var scale := if experience.scale.Some? then experience.scale.value else prefab.value.localScale;
                arObjects := arObjects[experience.name := ARObject(experience.name, prefab.value, false, Origin, scale)];
              }
            }
          }
        }
        assert Tables(arObjects, experienceData, downloadedTextures, imageLibrary)
            == Step(before, prefabMappings, experiences[i], downloads[i], statuses[i]);
        i := i + 1;
      }
      RunConsistent(start, prefabMappings, experiences, downloads, statuses, |experiences|);
      referenceLibrary := Some(imageLibrary);
      libraryInstalls := libraryInstalls + 1;
    }

    /**
     * `InitializeFromStrapi`, from the fetch's outcome on: an error, a null
     * response or an empty catalog stops it with tracking left as it is;
     * otherwise the catalog is loaded and tracking is switched on, even if
     * the runtime library could not be created.
     */
    method InitializeFromStrapi(fetch: FetchOutcome, downloads: seq<Option<Texture>>,
                                statuses: seq<AddImageJobStatus>, libraryCreated: bool)
      requires Valid()
      requires CatalogLoaded(fetch) ==> Aligned(fetch.value.value, downloads, statuses)
      modifies this
      ensures Valid()
      ensures !CatalogLoaded(fetch) ==>
        && arObjects == old(arObjects) && experienceData == old(experienceData)
        && downloadedTextures == old(downloadedTextures) && referenceLibrary == old(referenceLibrary)
        && trackingEnabled == old(trackingEnabled) && listening == old(listening)
        && isInitialized == old(isInitialized) && libraryInstalls == old(libraryInstalls)
      ensures CatalogLoaded(fetch) ==>
        var exps := fetch.value.value;
        var r := Run(old(Snapshot()), prefabMappings, exps, downloads, statuses, |exps|);
        && trackingEnabled && listening && isInitialized
        && (libraryCreated ==> arObjects == r.arObjects && experienceData == r.experienceData
                               && downloadedTextures == r.downloadedTextures
                               && referenceLibrary == Some(r.library) && libraryInstalls == old(libraryInstalls) + 1)
        && (!libraryCreated ==> arObjects == old(arObjects) && experienceData == old(experienceData)
                                && downloadedTextures == old(downloadedTextures)
                                && referenceLibrary == old(referenceLibrary) && libraryInstalls == old(libraryInstalls))
      ensures destroyedTextures == old(destroyedTextures)
    {
      var errorMessage := if fetch.OnError? then fetch.message else "";
      var response := if fetch.OnSuccess? then fetch.value else None;
      if errorMessage != "" {
        return;
      }
      if response.None? || |response.value| == 0 {
        return;
      }
      LoadARExperiences(response.value, downloads, statuses, libraryCreated);
      listening := true;
      trackingEnabled := true;
      isInitialized := true;
    }

    /** `UpdateTrackedImage`. */
    method UpdateTrackedImage(image: Option<TrackedImage>)
      modifies this`arObjects
      ensures arObjects == Observe(old(arObjects), experienceData, image)
    {
      if image.None? || image.value.referenceName == "" {
        return;
      }
      var imageName := image.value.referenceName;
      if imageName !in arObjects {
        return;
      }
      var arObject := arObjects[imageName];
      if image.value.trackingState == Limited || image.value.trackingState == NotTracking {
        arObjects := arObjects[imageName := arObject.(active := false)];
        return;
      }
      var pose := image.value.pose;
      if imageName in experienceData {
        var experience := experienceData[imageName];
        pose := Compose(pose, experience.position, experience.rotation);
      }
      arObjects := arObjects[imageName := arObject.(active := true, pose := pose)];
    }

    /** One `foreach` of `OnImagesTrackedChanged`. */
    method UpdateTrackedImages(batch: seq<Option<TrackedImage>>)
      modifies this`arObjects
      ensures arObjects == ObserveAll(old(arObjects), experienceData, batch)
    {
      var i := 0;
      while i < |batch|
        invariant 0 <= i <= |batch|
        invariant arObjects == ObserveAll(old(arObjects), experienceData, batch[..i])
      {
        assert batch[..i + 1][..i] == batch[..i];
        UpdateTrackedImage(batch[i]);
        i := i + 1;
      }
      assert batch[..i] == batch;
    }

    /** `OnImagesTrackedChanged`: added, then updated, then removed images, all through `UpdateTrackedImage`. */
    method OnImagesTrackedChanged(added: seq<Option<TrackedImage>>, updated: seq<Option<TrackedImage>>,
                                  removed: seq<Option<TrackedImage>>)
      requires Valid()
      modifies this`arObjects
      ensures Valid()
      ensures arObjects == ObserveAll(old(arObjects), experienceData, added + updated + removed)
      ensures arObjects.Keys == old(arObjects).Keys
    {
      ghost var before := arObjects;
      UpdateTrackedImages(added);
      UpdateTrackedImages(updated);
      UpdateTrackedImages(removed);
      ObserveAllConcat(before, experienceData, added, updated);
      ObserveAllConcat(before, experienceData, added + updated, removed);
      forall k | k in arObjects
        ensures arObjects[k].name == k
      {
        ObservedNamesKept(before, experienceData, added + updated + removed, k);
      }
    }

    /** `OnDestroy`: unsubscribes and releases every kept texture. */
    method OnDestroy()
      modifies this
      ensures !listening && downloadedTextures == []
      ensures destroyedTextures == old(destroyedTextures) + old(downloadedTextures)
      ensures arObjects == old(arObjects) && experienceData == old(experienceData)
      ensures referenceLibrary == old(referenceLibrary) && trackingEnabled == old(trackingEnabled)
      ensures isInitialized == old(isInitialized) && libraryInstalls == old(libraryInstalls)
    {
      listening := false;
      var i := 0;
      while i < |downloadedTextures|
        invariant 0 <= i <= |downloadedTextures|
        invariant destroyedTextures == old(destroyedTextures) + downloadedTextures[..i]
        modifies this`destroyedTextures
      {
        destroyedTextures := destroyedTextures + [downloadedTextures[i]];
        assert downloadedTextures[..i + 1] == downloadedTextures[..i] + [downloadedTextures[i]];
        i := i + 1;
      }
      assert downloadedTextures[..i] == downloadedTextures;
      downloadedTextures := [];
    }
  }

  /** Reconciliation never renames an object. */
  lemma {:induction false} ObservedNamesKept(objects: map<string, ARObject>, data: map<string, Experience>,
                                             batch: seq<Option<TrackedImage>>, k: string)
    requires k in objects ==> objects[k].name == k
    ensures k in ObserveAll(objects, data, batch) ==> ObserveAll(objects, data, batch)[k].name == k
  {
    if batch != [] {
      ObservedNamesKept(objects, data, batch[..|batch| - 1], k);
    }
  }
}
