# AR image experience: runtime marker library and tracking reconciler

A Dafny model of the Unity client of an AR content platform. At start-up the
client fetches a catalog of AR experiences from a Strapi CMS, downloads each
active experience's target image, validates it into a mutable runtime
reference-image library, binds each accepted image to a hidden content
object, installs the library once and enables image tracking. From then on
every tracking event shows or hides the bound objects and places them at the
tracked pose plus the catalog's offsets. Beside that core the model covers
how the CMS client builds its URLs and headers and dispatches its callbacks,
and the nearest-neighbour choice and target-yaw rules of the `Dragon`
content behaviour.

Files (one module each):

- `wrappers.dfy` (`Wrappers`): `Option`, standing for a nullable reference.
- `transforms.dfy` (`Transforms`): symbolic poses. No vector or quaternion
  arithmetic is done; a pose is a term recording the tracked value and the
  offsets composed on it (`Compose`).
- `strapi_config.dfy` (`StrapiConfig`): the configuration record, its
  defaults, `TrimEnd` and `GetFullUrl`.
- `strapi_api_client.dfy` (`StrapiApiClient`): media URL resolution, the two
  request URLs, `SetHeaders` on a `WebRequest` object, callback dispatch.
- `image_tracking.dfy` (`ImageTracking`): the `TrackingManager` class, with
  the build loop specified by the left fold `Run` of a per-entry `Step`, and
  the reconciler specified by `Observe`/`ObserveAll`.
- `dragon.dfy` (`DragonBehaviour`): `GetClosestInteractable` and the `Dragon`
  class.

Engine results are inputs. `downloads[i]` is the texture the download of
catalog entry `i` delivered (`None` when the error callback ran),
`statuses[i]` the validation job's final status for that entry,
`libraryCreated` whether `CreateRuntimeLibrary` produced a mutable library,
and the fetch outcome is the one callback `GetARExperiences` invoked for the
manager (a `Callback` of the client module). Entry `i`'s inputs are read only
when entry `i` gets that far. An image is taken to enter the library exactly
when its job reports `Success`.

Some behaviours of the code are easy to miss; the model follows them:

- When `CreateRuntimeLibrary` fails, the build returns early without
  installing anything, and tracking is still enabled afterwards.
- An accepted image gets a content object only when its prefab name
  resolves. Otherwise only the record is kept.
- Offsets are applied only when the record exists and the offset is non-null.
- When several accepted entries share a name, the record is the last of
  them, but the object is the instance of the last of them whose prefab
  resolves. The two can come from different entries, and tracking then
  places one entry's object with the other entry's offsets.
- A throwing `onSuccess` of `GetARExperiences` or `GetARExperience` is
  caught by the same `try` as the decoder, so `onError` then runs as well,
  with a "JSON Parse Error: " message.

## Model

| member | source | states |
|---|---|---|
| `StrapiConfig.TrimEnd` | unity/ARImageExperience/Assets/Scripts/StrapiConfig.cs:18 | the result is a prefix of the input, does not end in the trimmed character, and only that character follows it in the input |
| `StrapiConfig.TrimEndUnique` | unity/ARImageExperience/Assets/Scripts/StrapiConfig.cs:18 | any prefix with those three properties is the TrimEnd result, so all trailing characters are removed |
| `StrapiConfig.TrimEndIgnoresTrailing` | unity/ARImageExperience/Assets/Scripts/StrapiConfig.cs:18 | appending copies of the character does not change the TrimEnd result |
| `StrapiConfig.TrimEndIdempotent` | unity/ARImageExperience/Assets/Scripts/StrapiConfig.cs:18 | trimming twice is trimming once |
| `StrapiConfig.GetFullUrl` | unity/ARImageExperience/Assets/Scripts/StrapiConfig.cs:16-19 | the result ends with the endpoint verbatim; what precedes it is a prefix of the base URL that does not end in '/' and after which the base URL holds only '/' |
| `StrapiConfig.GetFullUrlDetermined` | unity/ARImageExperience/Assets/Scripts/StrapiConfig.cs:18 | GetFullUrl's contract determines its result |
| `StrapiConfig.GetFullUrlIgnoresTrailingSlashes` | unity/ARImageExperience/Assets/Scripts/StrapiConfig.cs:18 | any number of '/' appended to the base URL leaves every full URL unchanged |
| `StrapiConfig.GetFullUrlPlainConcatenation` | unity/ARImageExperience/Assets/Scripts/StrapiConfig.cs:18 | a base URL without a trailing '/' is joined by plain concatenation |
| `StrapiConfig.GetFullUrlInsertsNoSeparator` | unity/ARImageExperience/Assets/Scripts/StrapiConfig.cs:18 | for every base URL that is not all '/', the full URL is the full URL of the empty endpoint followed by the endpoint, and the character before the endpoint is not '/', so an endpoint without a leading '/' is glued onto the host |
| `StrapiConfig.DefaultCollectionUrl` | unity/ARImageExperience/Assets/Scripts/StrapiConfig.cs:8-14 | the defaults give http://localhost:1337/api/ar-experiences and an empty token |
| `StrapiApiClient.GetFullMediaUrl` | unity/ARImageExperience/Assets/Scripts/StrapiAPIClient.cs:152-161 | empty result iff the URL is null or empty; http:// and https:// URLs unchanged; any other URL resolved exactly like GetFullUrl |
| `StrapiApiClient.NatToString` | unity/ARImageExperience/Assets/Scripts/StrapiAPIClient.cs:70 | the decimal digits of a non-negative id, at least one, without a leading zero |
| `StrapiApiClient.IntToString` | unity/ARImageExperience/Assets/Scripts/StrapiAPIClient.cs:70 | a '-' sign exactly for a negative id, followed then by the decimal digits of its magnitude; a non-negative id is exactly its canonical decimal digits (NatToString), with no padding |
| `StrapiApiClient.NatToStringRoundTrip` | unity/ARImageExperience/Assets/Scripts/StrapiAPIClient.cs:70 | the decimal digits of the id denote the id |
| `StrapiApiClient.IntToStringRoundTrip` | unity/ARImageExperience/Assets/Scripts/StrapiAPIClient.cs:70 | a signed id written into the URL parses back to itself |
| `StrapiApiClient.ExperiencesUrl` | unity/ARImageExperience/Assets/Scripts/StrapiAPIClient.cs:36 | the list URL is the full URL of the experiences endpoint followed by ?populate=* |
| `StrapiApiClient.ExperienceUrl` | unity/ARImageExperience/Assets/Scripts/StrapiAPIClient.cs:70 | the single-item URL starts with the full URL of the experiences endpoint and '/', and ends with ?populate=*, with at least one character between |
| `StrapiApiClient.ExperienceUrlExtendsCollection` | unity/ARImageExperience/Assets/Scripts/StrapiAPIClient.cs:36-70 | the single-item URL extends the list URL's path by '/', and the segment before the query parses back to the requested id |
| `StrapiApiClient.ExperienceUrlInjective` | unity/ARImageExperience/Assets/Scripts/StrapiAPIClient.cs:70 | two different ids never share a single-item URL |
| `StrapiApiClient.DefaultRequestUrls` | unity/ARImageExperience/Assets/Scripts/StrapiAPIClient.cs:36-70 | the concrete list and single-item URLs under the default settings, negative ids included |
| `StrapiApiClient.AuthHeaders` | unity/ARImageExperience/Assets/Scripts/StrapiAPIClient.cs:142-150 | Content-Type is always application/json; Authorization is present iff the token is non-empty and is then "Bearer " + token; no other header |
| `StrapiApiClient.DefaultSendsNoToken` | unity/ARImageExperience/Assets/Scripts/StrapiAPIClient.cs:142-150 | with the default settings only the content type is sent |
| `StrapiApiClient.WebRequest.SetRequestHeader` | unity/ARImageExperience/Assets/Scripts/StrapiAPIClient.cs:144-148 | the named header is set to the value, overriding an earlier one; no other header changes |
| `StrapiApiClient.SetHeaders` | unity/ARImageExperience/Assets/Scripts/StrapiAPIClient.cs:142-150 | the request's headers become the old ones overridden by AuthHeaders |
| `StrapiApiClient.NewExperiencesRequest` | unity/ARImageExperience/Assets/Scripts/StrapiAPIClient.cs:36-40 | a fresh request to the list URL carrying exactly AuthHeaders |
| `StrapiApiClient.NewExperienceRequest` | unity/ARImageExperience/Assets/Scripts/StrapiAPIClient.cs:70-74 | a fresh request to the single-item URL carrying exactly AuthHeaders |
| `StrapiApiClient.NewMediaRequest` | unity/ARImageExperience/Assets/Scripts/StrapiAPIClient.cs:100-127 | image and asset-bundle requests go to the resolved media URL with no headers at all |
| `StrapiApiClient.Dispatch` | unity/ARImageExperience/Assets/Scripts/StrapiAPIClient.cs:44-97 | onError alone when the transfer failed (engine error) or decoding threw ("JSON Parse Error: " + message); otherwise onSuccess with the decoded value, followed by onError with "JSON Parse Error: " + message exactly when onSuccess throws |
| `StrapiApiClient.DispatchOnce` | unity/ARImageExperience/Assets/Scripts/StrapiAPIClient.cs:44-58 | when onSuccess does not throw on any decoded value, as the manager's callbacks do, exactly one callback runs |
| `StrapiApiClient.DispatchDownload` | unity/ARImageExperience/Assets/Scripts/StrapiAPIClient.cs:108-138 | exactly one callback; onSuccess with the content iff the transfer succeeded, else onError with the engine's error |
| `Transforms.Compose` | unity/ARImageExperience/Assets/Scripts/DynamicARImageTrackingManager.cs:257-270 | a position offset displaces the tracked position and a rotation offset turns the tracked orientation, each only when present and independently; with neither the pose is the tracked pose |
| `ImageTracking.PhysicalSizeFor` | unity/ARImageExperience/Assets/Scripts/DynamicARImageTrackingManager.cs:151 | the submitted size is positive: physicalSize when it is > 0, otherwise 0.1 |
| `ImageTracking.FirstMatchPrefab` | unity/ARImageExperience/Assets/Scripts/DynamicARImageTrackingManager.cs:203-213 | no mapping with the name gives null |
| `ImageTracking.FirstMatchPrefabSpec` | unity/ARImageExperience/Assets/Scripts/DynamicARImageTrackingManager.cs:203-213 | the first mapping with the name decides, even when its prefab is unset |
| `ImageTracking.Step` | unity/ARImageExperience/Assets/Scripts/DynamicARImageTrackingManager.cs:108-196 | one entry appends at most one kept texture and one library image, records its name exactly when accepted, changes no object bound to another name, and keeps the tables consistent |
| `ImageTracking.Run` | unity/ARImageExperience/Assets/Scripts/DynamicARImageTrackingManager.cs:106-197 | the entries are processed in order; old textures and library images stay in front and no recorded or bound name is dropped |
| `ImageTracking.SkippedEntryChangesNothing` | unity/ARImageExperience/Assets/Scripts/DynamicARImageTrackingManager.cs:108-147 | an inactive entry, one with a null or empty image URL, or one whose download gave no texture changes no table |
| `ImageTracking.RejectedEntryKeepsTextureOnly` | unity/ARImageExperience/Assets/Scripts/DynamicARImageTrackingManager.cs:149-196 | a rejected image's texture is still kept for release; nothing else changes |
| `ImageTracking.RunTextures` | unity/ARImageExperience/Assets/Scripts/DynamicARImageTrackingManager.cs:106-149 | the kept textures are the old ones followed by each eligible entry's non-null texture, once each, in catalog order |
| `ImageTracking.RunConsistent` | unity/ARImageExperience/Assets/Scripts/DynamicARImageTrackingManager.cs:167-191 | the build keeps object names a subset of record names and every table keyed by its record's name |
| `ImageTracking.RunExperienceKeys` | unity/ARImageExperience/Assets/Scripts/DynamicARImageTrackingManager.cs:106-170 | a name is recorded after the build iff it was before or some entry with that name downloaded and validated with Success |
| `ImageTracking.RunExperienceLastWins` | unity/ARImageExperience/Assets/Scripts/DynamicARImageTrackingManager.cs:106-170 | a name accepted several times is recorded with the last such entry in catalog order |
| `ImageTracking.RunExperienceUntouched` | unity/ARImageExperience/Assets/Scripts/DynamicARImageTrackingManager.cs:106-170 | a name no accepted entry carries keeps its old record, or stays unrecorded |
| `ImageTracking.RunObjects` | unity/ARImageExperience/Assets/Scripts/DynamicARImageTrackingManager.cs:167-191 | a name gets an object iff it had one or an accepted entry with that name has a resolving prefab; each object is old or that entry's new instance |
| `ImageTracking.RunObjectsLastWins` | unity/ARImageExperience/Assets/Scripts/DynamicARImageTrackingManager.cs:170-185 | a name is bound to the instance of the last accepted entry with that name whose prefab resolves |
| `ImageTracking.ScenarioRecordAndObjectDiffer` | unity/ARImageExperience/Assets/Scripts/DynamicARImageTrackingManager.cs:170-185 | with two accepted entries of one name of which only the first prefab resolves, the record is the second entry and the object the first entry's instance |
| `ImageTracking.NewObject` | unity/ARImageExperience/Assets/Scripts/DynamicARImageTrackingManager.cs:175-185 | a new object is inactive at the origin, named after the entry, an instance of the resolved prefab, scaled by the catalog only when a scale is given |
| `ImageTracking.RunLibrary` | unity/ARImageExperience/Assets/Scripts/DynamicARImageTrackingManager.cs:151-167 | the new library is exactly the accepted images, in catalog order, after the old ones |
| `ImageTracking.AcceptedImagesFromCatalog` | unity/ARImageExperience/Assets/Scripts/DynamicARImageTrackingManager.cs:151-167 | every committed image is an accepted entry's, with its name, its texture and the defaulted physical size |
| `ImageTracking.RunCounts` | unity/ARImageExperience/Assets/Scripts/DynamicARImageTrackingManager.cs:167-191 | no more objects than records, and at most one new record per accepted entry |
| `ImageTracking.ScenarioSingleCard` | unity/ARImageExperience/Assets/Scripts/DynamicARImageTrackingManager.cs:106-199 | an active card with size 0, a downloaded image and a successful job gives one hidden object, one record, one texture and one library image of size 0.1 |
| `ImageTracking.ScenarioFailedDownload` | unity/ARImageExperience/Assets/Scripts/DynamicARImageTrackingManager.cs:126-147 | a failed download leaves every table empty |
| `ImageTracking.Reconcile` | unity/ARImageExperience/Assets/Scripts/DynamicARImageTrackingManager.cs:248-271 | the object is active iff the state is Tracking; hiding keeps its pose; showing places it at the tracked pose, composed with the record's offsets when a record exists; name, prefab and scale never change |
| `ImageTracking.Observe` | unity/ARImageExperience/Assets/Scripts/DynamicARImageTrackingManager.cs:233-271 | one observation keeps the bound names and every object it does not name; a null image, empty name or unbound name changes nothing |
| `ImageTracking.ObserveBound` | unity/ARImageExperience/Assets/Scripts/DynamicARImageTrackingManager.cs:248-271 | Limited or None only deactivates the object; Tracking activates it at the tracked pose composed with the offsets |
| `ImageTracking.TrackedThenLimited` | unity/ARImageExperience/Assets/Scripts/DynamicARImageTrackingManager.cs:248-271 | a Tracking frame then a Limited frame leaves the object hidden at the pose of the tracked frame |
| `ImageTracking.ObserveAll` | unity/ARImageExperience/Assets/Scripts/DynamicARImageTrackingManager.cs:215-231 | a batch applied in order never changes which names are bound |
| `ImageTracking.ObserveAllConcat` | unity/ARImageExperience/Assets/Scripts/DynamicARImageTrackingManager.cs:215-231 | applying consecutive batches is applying their concatenation |
| `ImageTracking.ObserveAllFrame` | unity/ARImageExperience/Assets/Scripts/DynamicARImageTrackingManager.cs:215-246 | a batch never changes an object it does not mention |
| `ImageTracking.LatestObservationDecides` | unity/ARImageExperience/Assets/Scripts/DynamicARImageTrackingManager.cs:215-256 | after a batch, a bound object is active iff its latest observation in the batch was Tracking |
| `ImageTracking.ObservedNamesKept` | unity/ARImageExperience/Assets/Scripts/DynamicARImageTrackingManager.cs:246-271 | reconciliation never renames an object |
| `ImageTracking.TrackingManager.constructor` | unity/ARImageExperience/Assets/Scripts/DynamicARImageTrackingManager.cs:17-23 | the tables start empty and the component uninitialised |
| `ImageTracking.TrackingManager.Start` | unity/ARImageExperience/Assets/Scripts/DynamicARImageTrackingManager.cs:32-45 | tracking is disabled before the catalog is processed |
| `ImageTracking.TrackingManager.GetPrefabByName` | unity/ARImageExperience/Assets/Scripts/DynamicARImageTrackingManager.cs:203-213 | null when no mapping has the name, otherwise the first matching mapping's prefab |
| `ImageTracking.TrackingManager.LoadARExperiences` | unity/ARImageExperience/Assets/Scripts/DynamicARImageTrackingManager.cs:96-201 | without a runtime library nothing changes; otherwise the tables become Run of the catalog and the built library is installed exactly once, after the loop |
| `ImageTracking.TrackingManager.InitializeFromStrapi` | unity/ARImageExperience/Assets/Scripts/DynamicARImageTrackingManager.cs:47-94 | an error, a null response or an empty catalog changes nothing; otherwise the build runs and listener, tracking and isInitialized are switched on, even when the library could not be created |
| `ImageTracking.TrackingManager.UpdateTrackedImage` | unity/ARImageExperience/Assets/Scripts/DynamicARImageTrackingManager.cs:233-272 | the objects become Observe of the old objects and the image |
| `ImageTracking.TrackingManager.UpdateTrackedImages` | unity/ARImageExperience/Assets/Scripts/DynamicARImageTrackingManager.cs:217-230 | one batch loop leaves the objects at ObserveAll of the batch |
| `ImageTracking.TrackingManager.OnImagesTrackedChanged` | unity/ARImageExperience/Assets/Scripts/DynamicARImageTrackingManager.cs:215-231 | added, then updated, then removed images all go through UpdateTrackedImage; the bound names and the consistency invariant are kept |
| `ImageTracking.TrackingManager.OnDestroy` | unity/ARImageExperience/Assets/Scripts/DynamicARImageTrackingManager.cs:274-287 | unsubscribes, releases every kept texture once in order, and empties the list; nothing else changes |
| `DragonBehaviour.GetClosestInteractable` | unity/ARImageExperience/Assets/Scripts/Dragon.cs:51-67 | no result iff there are no candidates; otherwise a candidate at minimal distance with every earlier candidate strictly farther, so the first minimum wins |
| `DragonBehaviour.Dragon.constructor` | unity/ARImageExperience/Assets/Scripts/Dragon.cs:10 | the target yaw starts at 0 |
| `DragonBehaviour.Dragon.OnEnable` | unity/ARImageExperience/Assets/Scripts/Dragon.cs:12-19 | the target yaw is reset to 0 and, with an animator, IsInteracting becomes false |
| `DragonBehaviour.Dragon.SetState` | unity/ARImageExperience/Assets/Scripts/Dragon.cs:39-49 | with an animator, IsInteracting is set exactly when the new state is Active |
| `DragonBehaviour.Dragon.CalculateTargetYRotation` | unity/ARImageExperience/Assets/Scripts/Dragon.cs:69-86 | a horizontal direction equal to zero (by the engine's approximate equality) leaves the target unchanged; otherwise it becomes the look rotation's local yaw |
| `DragonBehaviour.Dragon.Update` | unity/ARImageExperience/Assets/Scripts/Dragon.cs:21-37 | Idle sets the target yaw to 0; Active with no candidate leaves it; Active turns towards the first nearest candidate; the yaw stays in [0, 360) |

## Left out

- Coroutines, `yield`, `WaitUntil` and polling of the validation job: each suspension is one sequential step whose outcome is an input. The polling loop at DynamicARImageTrackingManager.cs:160-163 has no timeout, so a validation job that never completes would hang the build; the model takes every such job to complete with some final status.
- `UnityWebRequest` transfers and `DownloadHandlerTexture`/`DownloadHandlerAssetBundle`: network I/O. Transfer outcomes are inputs (`WebResult`, `downloads`).
- `JsonUtility.FromJson`: a foreign parser. Its outcome is the `parse` argument of `Dispatch`, or a `FetchOutcome`.
- The rules inside `ScheduleAddImageWithValidationJob`: external. The final job status is an input, and an image is taken to enter the library exactly on `Success`.
- `Instantiate`, `Destroy`, `SetActive` and `Texture2D`: engine calls. Content objects are `ARObject` values in a map, so object identity and aliasing are not modelled. Destroyed textures are recorded in a ghost sequence.
- All vector and quaternion arithmetic (`+=`, `*=`, `Quaternion.Euler`, `LookRotation`, `Inverse`, `eulerAngles`, `Vector3.Distance`): floating point. Poses are symbolic terms. Distances, directions and look yaws are carried by each `Candidate`.
- Dragon's `ApplySmoothYRotation` (`Mathf.LerpAngle` scaled by frame time): floating-point smoothing of the current heading. Only the target heading is modelled.
- DragonBehaviour.Dragon.Update: requires candidate yaws in [0, 360), the range of the engine's `eulerAngles`.
- DragonBehaviour.GetClosestInteractable: returns the index of the chosen candidate rather than the object. `GetInteractables()` and the `ARInteractableObject` base class are not part of this model; whether the list contains the dragon itself is not known.
- The object state enum of `ARInteractableObject` is not part of this model. Only `Idle` and `Active`, the values `Dragon` tests, are modelled.
- The `StrapiAPIClient` singleton (`Instance`, `Awake`): Unity lifecycle and scene lookup.
- `StrapiModels.cs`: plain serialisable data. The manager's flattened view of an entry is the `Experience` record, and `ToVector3` is the identity on `Vec3`.
- ImageTracking.TrackingManager.LoadARExperiences: a success callback that delivers a null texture is not modelled. The manager's lambda reads `tex.width` at DynamicARImageTrackingManager.cs:132, which throws, ends the build without installing the library, and leaves tracking disabled. The model's `downloads[i]` is `None` only for the error callback, which skips the entry at :143-147.
- A null `trackedImageManager`: `LoadARExperiences` would throw on it. The manager is taken to be present.
- Null callbacks (`?.Invoke`): both callbacks are taken to be supplied, as the manager does. A null error text and an empty one are both the empty string.
- C# `float` is modelled as `real`, so a NaN physical size, which would also default to 0.1, does not arise.
- Culture-sensitive `StartsWith` and `int.ToString()`: modelled as ordinal prefix tests and invariant-culture digits with a '-' sign.
- `Debug.Log` output, and teardown while the build is still running.
- Rebuilding the library a second time from the same catalog: the build is a function of its inputs (`Run`), so the same inputs give the same tables. No separate lemma states this.
