# Texture video player: surface-attachment state machine

This project models the Android texture-backed video player of the Flutter
`video_player` plugin (`TextureVideoPlayer`). The player ties one playback engine
(an ExoPlayer) to one rendering surface owned by a `SurfaceProducer`. The producer
may destroy and recreate its surface at any time. The player reacts to this as follows:

- **construction** attaches whatever surface the producer has now and remembers whether it was missing;
- **`onSurfaceCleanup`** snapshots the engine's resumable state, releases the engine and marks the player as needing a surface;
- **`onSurfaceAvailable`** rebuilds the engine from the stored factory and restores the snapshot if one is held; otherwise it attaches the surface if one is needed; otherwise it does nothing;
- **`dispose`** releases the engine, then the surface producer.

The model is functional. A `Binding` record holds the engine, the two fields of the
Java class (`needsSurface`, `savedStateDuring`), the media item the factory loads,
the identity the factory hands out next, and an append-only trace of calls made on
collaborators. Each Java method is a pure function from one record to the next.

Modules:

- `Wrappers` (wrappers.dfy): `Option` for nullable references, `Result` for thrown exceptions.
- `ExoPlayer` (exoplayer.dfy): the abstract engine. It has an identity, a media item, a released flag, an optional surface and the resumable playback fields (position, tracks, speed, volume, play intent). It also has the factory `Build`, `SetVideoSurface` and `Release`.
- `ExoPlayerState` (exoplayer_state.dfy): the snapshot. `Save` and `Restore` are field copies.
- `TextureVideoPlayer` (texture_video_player.dfy): the binding, its phases (attached, pending surface, suspended, disposed), its invariant `Valid` and the transitions.
- `SurfaceLifecycle` (surface_lifecycle.dfy): callback sequences, the producer's alternation contract, and the properties that span several calls.

The surface the producer returns from `getSurface()` is a parameter of each transition that reads it.
Engine construction is modelled by a counter: the factory returns an engine whose identity has never been used.

`onSurfaceCleanup` (TextureVideoPlayer.java:130-135) has no guard against being called while already suspended.
It saves from the released engine and releases it again.
The model follows the code, and `SurfaceLifecycle.CleanupWhileSuspendedReleasesTwice` shows the consequence.
The producer's rule that available and cleanup callbacks alternate appears only as a precondition of the lemmas (`Admissible`, `ProviderContract`), and it is labelled there as an assumption.

## Model

| member | source | states |
|---|---|---|
| ExoPlayer.Build | packages/video_player/video_player_android/android/src/main/java/io/flutter/plugins/videoplayer/texture/TextureVideoPlayer.java:61-71 | the factory yields a live engine with no surface, the initial playback fields, the stored media item and the identity it is given |
| ExoPlayer.SetVideoSurface | packages/video_player/video_player_android/android/src/main/java/io/flutter/plugins/videoplayer/texture/TextureVideoPlayer.java:88 | attaching a surface (or none) changes only the engine's surface; identity, media, released flag and playback fields are kept |
| ExoPlayer.Release | packages/video_player/video_player_android/android/src/main/java/io/flutter/plugins/videoplayer/texture/TextureVideoPlayer.java:133 | releasing marks the engine released and changes nothing else |
| ExoPlayerState.Save | packages/video_player/video_player_android/android/src/main/java/io/flutter/plugins/videoplayer/texture/TextureVideoPlayer.java:132 | the snapshot holds every restorable field of the engine it was taken from |
| ExoPlayerState.Restore | packages/video_player/video_player_android/android/src/main/java/io/flutter/plugins/videoplayer/texture/TextureVideoPlayer.java:116 | the engine takes every playback field from the snapshot; its identity, media, surface and released flag are kept |
| ExoPlayerState.SaveThenRestore | packages/video_player/video_player_android/android/src/main/java/io/flutter/plugins/videoplayer/texture/TextureVideoPlayer.java:114-116 | restoring a snapshot of one engine onto any other engine gives it exactly the first engine's playback fields |
| ExoPlayerState.RestoreThenSave | packages/video_player/video_player_android/android/src/main/java/io/flutter/plugins/videoplayer/texture/TextureVideoPlayer.java:116 | a snapshot taken right after a restore equals the restored snapshot |
| TextureVideoPlayer.Construct | packages/video_player/video_player_android/android/src/main/java/io/flutter/plugins/videoplayer/texture/TextureVideoPlayer.java:77-91 | `needsSurface` holds iff the producer had no surface; no snapshot is held; the engine gets that surface (possibly none) either way; the callback is registered before the surface is set; the result satisfies the invariant |
| TextureVideoPlayer.CreateEventListener | packages/video_player/video_player_android/android/src/main/java/io/flutter/plugins/videoplayer/texture/TextureVideoPlayer.java:95-100 | creating the listener fails with IllegalArgumentException and the source's message iff the producer is missing; otherwise the listener is bound to the given engine |
| TextureVideoPlayer.OnSurfaceAvailable | packages/video_player/video_player_android/android/src/main/java/io/flutter/plugins/videoplayer/texture/TextureVideoPlayer.java:107-127 | a held snapshot takes priority even when a surface is needed: a new engine with an unused identity gets the current surface and the snapshot's fields, and the build, attach and restore happen in that order; with no snapshot and a surface needed, the same engine gets the surface; otherwise the state is unchanged; both acting branches end with no snapshot and no surface needed |
| TextureVideoPlayer.OnSurfaceCleanup | packages/video_player/video_player_android/android/src/main/java/io/flutter/plugins/videoplayer/texture/TextureVideoPlayer.java:130-135 | the snapshot is taken from the engine before the call; the engine is then released and a surface is needed; the trace records the save before the release |
| TextureVideoPlayer.Dispose | packages/video_player/video_player_android/android/src/main/java/io/flutter/plugins/videoplayer/texture/TextureVideoPlayer.java:137-144 | the engine is released, then the producer; the player ends disposed; needsSurface, the snapshot, the media and the identity counter are unchanged |
| SurfaceLifecycle.Run | packages/video_player/video_player_android/android/src/main/java/io/flutter/plugins/videoplayer/texture/TextureVideoPlayer.java:107-135 | delivering a sequence of callbacks only appends to the trace and never changes the media the factory loads |
| SurfaceLifecycle.StepPreservesValid | packages/video_player/video_player_android/android/src/main/java/io/flutter/plugins/videoplayer/texture/TextureVideoPlayer.java:107-135 | each callback allowed by the producer's contract keeps the invariant: a snapshot is held iff the engine is released, a live engine needs a surface iff it has none, and no engine is released twice |
| SurfaceLifecycle.RunPreservesValid | packages/video_player/video_player_android/android/src/main/java/io/flutter/plugins/videoplayer/texture/TextureVideoPlayer.java:107-135 | any callback sequence that follows the producer's contract keeps the invariant, so a snapshot and a live engine never coexist and never are both absent |
| SurfaceLifecycle.ConstructedRunsStayValid | packages/video_player/video_player_android/android/src/main/java/io/flutter/plugins/videoplayer/texture/TextureVideoPlayer.java:77-135 | a newly constructed player driven by a contract-following callback sequence stays valid |
| SurfaceLifecycle.SuspendResumeRoundTrip | packages/video_player/video_player_android/android/src/main/java/io/flutter/plugins/videoplayer/texture/TextureVideoPlayer.java:113-135 | cleanup followed by available yields a distinct, live engine with the pre-cleanup engine's playback fields and media, rendering to the new surface, with no snapshot and no surface needed |
| SurfaceLifecycle.ResumeInstallsFreshEngine | packages/video_player/video_player_android/android/src/main/java/io/flutter/plugins/videoplayer/texture/TextureVideoPlayer.java:113-119 | the engine built on resume is one the trace has never named, so it differs from the released engine |
| SurfaceLifecycle.AvailableIsIdempotent | packages/video_player/video_player_android/android/src/main/java/io/flutter/plugins/videoplayer/texture/TextureVideoPlayer.java:113-126 | a second available callback without a cleanup in between leaves the state unchanged, whatever surface it finds |
| SurfaceLifecycle.CleanupWhileSuspendedReleasesTwice | packages/video_player/video_player_android/android/src/main/java/io/flutter/plugins/videoplayer/texture/TextureVideoPlayer.java:130-135 | a cleanup while suspended is not rejected and releases the same engine a second time |
| SurfaceLifecycle.DisposeReleasesEngineBeforeProducer | packages/video_player/video_player_android/android/src/main/java/io/flutter/plugins/videoplayer/texture/TextureVideoPlayer.java:137-144 | the engine's release is recorded strictly before every producer release |
| SurfaceLifecycle.ConcreteResumeScenario | packages/video_player/video_player_android/android/src/main/java/io/flutter/plugins/videoplayer/texture/TextureVideoPlayer.java:77-135 | construct without a surface, attach, play to 37 s at 1.5x, suspend, then resume on a new surface: the new engine is at 37 s at 1.5x with the same tracks, volume and play intent |

## Left out

- The ExoPlayer builder configuration in `create` (renderers factory, decoder fallback, track selector, media source factory) is library wiring. The factory is modelled only as "returns a live, surface-less engine with an unused identity, loaded with the stored media item".
- `TextureExoPlayerEventListener` and the crop-and-rotation flag it receives are event translation into a class that is not part of this model. Only the null-producer check of `createExoPlayerEventListener` is modelled.
- The `VideoPlayer` base class is not part of this model. Its constructor is taken to build the first engine with the factory, `createVideoPlayer` is taken to build a fresh engine the same way, and `dispose` is taken to release the engine. The order of base-class work before the callback registration is not modelled.
- The internals of `ExoPlayerState` are not part of this model. Its snapshot is taken to be a copy of position, track selection, speed, volume and play intent.
- Failure of engine construction is not modelled: the factory always succeeds. In the Java code such a failure would propagate out of the callback.
- Threading, callback delivery and real resource release on Android are not modelled. Callbacks are taken to arrive one at a time, and the engine's playback thread is not modelled.
- Speed and volume are Java floats; the model uses exact reals.
- The Java `assert surfaceProducer != null` statements are not modelled: the binding always holds its producer, since the constructor takes a non-null one.
- SurfaceLifecycle.StepPreservesValid: the invariant is only claimed under the producer's contract, which is assumed and not checked by the code. That contract says no cleanup arrives while suspended and every available callback finds a surface. Without a surface, `onSurfaceAvailable` still clears `needsSurface` while the engine has none.
