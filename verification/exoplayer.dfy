/**
 An abstract playback engine (an ExoPlayer instance): an identity, the media it
 was built for, whether it has been released, the surface it renders to, and the
 playback fields that survive a suspend/resume cycle.
 */
module ExoPlayer {
  import opened Wrappers

  /** Identity of one engine instance; two engines are the same object iff their ids agree. */
  type EngineId = nat

  /** Opaque handle of a rendering surface handed out by a surface producer. */
  datatype Surface = Surface(handle: nat)

  /** Opaque descriptor of the media item an engine plays. */
  datatype MediaItem = MediaItem(uri: string)

  /** The resumable playback fields of an engine. Position is in milliseconds. */
  datatype Playback = Playback(
    position: int,
    tracks: seq<nat>,
    speed: real,
    volume: real,
    playWhenReady: bool)

  /** Playback fields of a freshly built engine. */
  const InitialPlayback := Playback(0, [], 1.0, 1.0, false)

  datatype Player = Player(
    id: EngineId,
    media: MediaItem,
    released: bool,
    surface: Option<Surface>,
    playback: Playback)

  /**
   The engine factory: a live, surface-less engine with the given identity,
   loaded with the given media item.
   */
  function Build(id: EngineId, media: MediaItem): (p: Player)
    ensures p.id == id && p.media == media
    ensures !p.released && p.surface.None?
    ensures p.playback == InitialPlayback
  {
    Player(id, media, false, None, InitialPlayback)
  }

  /** `setVideoSurface`: render to `s` (or to nothing when `s` is None); nothing else changes. */
  function SetVideoSurface(p: Player, s: Option<Surface>): (r: Player)
    ensures r.surface == s
    ensures r.id == p.id && r.media == p.media && r.released == p.released
    ensures r.playback == p.playback
  {
    p.(surface := s)
  }

  /** `release`: frees the engine's resources; identity and last playback fields are kept. */
  function Release(p: Player): (r: Player)
    ensures r.released
    ensures r.id == p.id && r.media == p.media && r.surface == p.surface
    ensures r.playback == p.playback
  {
    p.(released := true)
  }
}
