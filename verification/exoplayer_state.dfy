/**
 The snapshot of an engine's resumable state: taken from one engine by `Save`
 and replayed onto another by `Restore`. Both are plain field copies.
 */
module ExoPlayerState {
  import opened ExoPlayer

  /** A snapshot: the resumable playback fields of one engine at the moment it was taken. */
  datatype State = State(fields: Playback)

  /** Captures every restorable field of `p`. */
  function Save(p: Player): (s: State)
    ensures s.fields.position == p.playback.position
    ensures s.fields.tracks == p.playback.tracks
    ensures s.fields.speed == p.playback.speed
    ensures s.fields.volume == p.playback.volume
    ensures s.fields.playWhenReady == p.playback.playWhenReady
  {
    State(p.playback)
  }

  /**
   Replays the snapshot onto `p`: seeks, reselects tracks, sets speed and
   volume and the play intent. The engine's identity, media, surface and
   released flag are untouched.
   */
  function Restore(s: State, p: Player): (r: Player)
    ensures r.playback.position == s.fields.position
    ensures r.playback.tracks == s.fields.tracks
    ensures r.playback.speed == s.fields.speed
    ensures r.playback.volume == s.fields.volume
    ensures r.playback.playWhenReady == s.fields.playWhenReady
    ensures r.id == p.id && r.media == p.media
    ensures r.surface == p.surface && r.released == p.released
  {
    p.(playback := s.fields)
  }

  /** Restoring a snapshot of `p` onto any engine `q` gives `q` exactly `p`'s playback fields. */
  lemma SaveThenRestore(p: Player, q: Player)
    ensures Restore(Save(p), q).playback == p.playback
    ensures Restore(Save(p), q).id == q.id
  {
  }

  /** A snapshot taken right after a restore is the snapshot that was restored. */
  lemma RestoreThenSave(s: State, q: Player)
    ensures Save(Restore(s, q)) == s
  {
  }
}
