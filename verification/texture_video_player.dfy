/**
 The surface-attachment state machine of a texture-backed video player. One
 engine is tied to one externally owned surface producer; the producer may
 destroy and recreate its surface at any time and signals this through two
 callbacks. The player is an immutable `Binding` record and each Java method is
 a pure transition from one record to the next. Side effects on collaborators
 (engine construction, surface attachment, snapshot save/restore, releases) are
 appended to an event trace so that their order can be stated.
 */
module TextureVideoPlayer {
  import opened Wrappers
  import opened ExoPlayer
  import ExoPlayerState

  /** Calls made on collaborators, in the order they happen. */
  datatype Event =
    | EngineBuilt(engine: EngineId)
    | CallbackRegistered
    | SurfaceSet(engine: EngineId, surface: Option<Surface>)
    | StateSaved(engine: EngineId)
    | StateRestored(engine: EngineId)
    | EngineReleased(engine: EngineId)
    | ProducerReleased
  {
    /** True when this event is a call on an engine (and so carries its identity). */
    predicate OnEngine() {
      !CallbackRegistered? && !ProducerReleased?
    }
  }

  /**
   The player's state. `player` is the owned engine, `needsSurface` and
   `savedStateDuring` are the two fields of the Java class, `media` is the item
   the stored factory loads, `nextId` is the identity the factory hands out next,
   and `trace` is the append-only record of collaborator calls.
   */
  datatype Binding = Binding(
    player: Player,
    needsSurface: bool,
    savedStateDuring: Option<ExoPlayerState.State>,
    media: MediaItem,
    nextId: EngineId,
    trace: seq<Event>)

  /** The four states a binding can be in. */
  datatype Phase = Attached | PendingSurface | Suspended | Disposed

  function PhaseOf(b: Binding): Phase {
    if ProducerReleased in b.trace then Disposed
    else if b.savedStateDuring.Some? then Suspended
    else if b.needsSurface then PendingSurface
    else Attached
  }

  /** The surface producer as far as the player consults it. */
  datatype SurfaceProducer = SurfaceProducer(handlesCropAndRotation: bool)

  /** The engine event listener created for a texture player: bound to one engine. */
  datatype Listener = Listener(engine: EngineId)

  datatype Error = IllegalArgument(message: string)

  const NullProducerMessage :=
    "surfaceProducer cannot be null to create an ExoPlayerEventListener for TextureVideoPlayer."

  /** No engine identity is released twice in `t`. */
  predicate ReleasedAtMostOnce(t: seq<Event>) {
    forall i, j :: 0 <= i < j < |t| && t[i].EngineReleased? && t[j].EngineReleased? ==>
      t[i].engine != t[j].engine
  }

  /** Every engine mentioned in `t` has an identity below `n`. */
  predicate IdsBelow(t: seq<Event>, n: EngineId) {
    forall i :: 0 <= i < |t| && t[i].OnEngine() ==> t[i].engine < n
  }

  /**
   The invariant of a live (not disposed) binding whose callbacks have followed
   the producer's alternation contract:
   a snapshot is held exactly when the engine is released; a held snapshot means
   a surface is needed; a live engine needs a surface exactly when it has none;
   the engine plays the stored media; every engine the trace names, including
   the current one, was handed out by the factory; no engine was released twice,
   and the current engine is released exactly when the trace says so.
   */
  predicate Valid(b: Binding) {
    && (b.savedStateDuring.Some? <==> b.player.released)
    && (b.savedStateDuring.Some? ==> b.needsSurface)
    && (!b.player.released ==> (b.needsSurface <==> b.player.surface.None?))
    && b.player.media == b.media
    && b.player.id < b.nextId
    && IdsBelow(b.trace, b.nextId)
    && ReleasedAtMostOnce(b.trace)
    && (EngineReleased(b.player.id) in b.trace <==> b.player.released)
    && ProducerReleased !in b.trace
  }

  /**
   The constructor. The base class builds the first engine with the factory;
   then the player registers itself as the producer's callback, attaches the
   producer's current surface (possibly none) and records whether one was missing.
   */
  function Construct(media: MediaItem, current: Option<Surface>): (b: Binding)
    ensures b.needsSurface <==> current.None?
    ensures b.savedStateDuring.None?
    ensures b.player.surface == current && !b.player.released
    ensures b.player.media == media && b.media == media
    ensures PhaseOf(b) == (if current.None? then PendingSurface else Attached)
    ensures Valid(b)
    ensures b.trace == [EngineBuilt(b.player.id), CallbackRegistered, SurfaceSet(b.player.id, current)]
  {
    var first := Build(0, media);
    Binding(SetVideoSurface(first, current), current.None?, None, media, 1,
            [EngineBuilt(0), CallbackRegistered, SurfaceSet(0, current)])
  }

  /**
   `createExoPlayerEventListener`: refuses a missing surface producer with an
   IllegalArgumentException, otherwise yields a listener for `engine`.
   */
  function CreateEventListener(engine: EngineId, producer: Option<SurfaceProducer>): (r: Result<Listener, Error>)
    ensures r.Failure? <==> producer.None?
    ensures r.Failure? ==> r.error == IllegalArgument(NullProducerMessage)
    ensures r.Success? ==> r.value.engine == engine
  {
    if producer.None? then Failure(IllegalArgument(NullProducerMessage))
    else Success(Listener(engine))
  }

  /**
   `onSurfaceAvailable`, with `current` the surface the producer returns now.
   A held snapshot takes priority: a fresh engine is built, given the surface,
   restored from the snapshot, and the snapshot is dropped. Otherwise the
   surface is attached to the existing engine only if it needs one; otherwise
   nothing happens.
   */
  function OnSurfaceAvailable(b: Binding, current: Option<Surface>): (r: Binding)
    // resume branch
    ensures b.savedStateDuring.Some? ==>
      && r.player.id == b.nextId && r.nextId > b.nextId
      && !r.player.released && r.player.media == b.media
      && r.player.surface == current
      && ExoPlayerState.Save(r.player) == b.savedStateDuring.value
      && r.trace == b.trace + [EngineBuilt(r.player.id), SurfaceSet(r.player.id, current),
                               StateRestored(r.player.id)]
    // first-attach branch
    ensures b.savedStateDuring.None? && b.needsSurface ==>
      && r.player == b.player.(surface := current)
      && r.nextId == b.nextId
      && r.trace == b.trace + [SurfaceSet(b.player.id, current)]
    // redundant callback
    ensures b.savedStateDuring.None? && !b.needsSurface ==> r == b
    // both acting branches end attached
    ensures b.savedStateDuring.Some? || b.needsSurface ==>
      !r.needsSurface && r.savedStateDuring.None?
    ensures r.media == b.media && b.trace <= r.trace
  {
    if b.savedStateDuring.Some? then
      var built := Build(b.nextId, b.media);
      var attached := SetVideoSurface(built, current);
      var restored := ExoPlayerState.Restore(b.savedStateDuring.value, attached);
      Binding(restored, false, None, b.media, b.nextId + 1,
              b.trace + [EngineBuilt(built.id), SurfaceSet(built.id, current), StateRestored(built.id)])
    else if b.needsSurface then
      b.(player := SetVideoSurface(b.player, current),
         needsSurface := false,
         trace := b.trace + [SurfaceSet(b.player.id, current)])
    else
      b
  }

  /**
   `onSurfaceCleanup`: snapshots the current engine, then releases it, and marks
   the player as needing a surface. There is no guard against being called
   while already suspended.
   */
  function OnSurfaceCleanup(b: Binding): (r: Binding)
    ensures r.savedStateDuring == Some(ExoPlayerState.Save(b.player))
    ensures r.player == Release(b.player)
    ensures r.needsSurface
    ensures PhaseOf(r) == Suspended || PhaseOf(b) == Disposed
    ensures r.media == b.media && r.nextId == b.nextId
    ensures r.trace == b.trace + [StateSaved(b.player.id), EngineReleased(b.player.id)]
  {
    var snapshot := ExoPlayerState.Save(b.player);
    b.(player := Release(b.player),
       needsSurface := true,
       savedStateDuring := Some(snapshot),
       trace := b.trace + [StateSaved(b.player.id), EngineReleased(b.player.id)])
  }

  /**
   `dispose`: the base class releases the engine, then the surface producer is
   released. The engine is released whether or not it already was.
   */
  function Dispose(b: Binding): (r: Binding)
    ensures r.player == Release(b.player)
    ensures PhaseOf(r) == Disposed
    ensures r.needsSurface == b.needsSurface && r.savedStateDuring == b.savedStateDuring
    ensures r.media == b.media && r.nextId == b.nextId
    ensures r.trace == b.trace + [EngineReleased(b.player.id), ProducerReleased]
  {
    b.(player := Release(b.player),
       trace := b.trace + [EngineReleased(b.player.id), ProducerReleased])
  }
}
