/**
 Sequences of producer callbacks delivered to one player, the producer's
 alternation contract, and the properties of the state machine across them:
 the suspend/resume round trip, idempotence of a redundant callback, the
 invariant kept by every admissible step, and the release order of `Dispose`.
 */
module SurfaceLifecycle {
  import opened Wrappers
  import opened ExoPlayer
  import ExoPlayerState
  import opened TextureVideoPlayer

  /** One callback from the surface producer; `surface` is what `getSurface` returns during it. */
  datatype Signal = SurfaceAvailable(surface: Option<Surface>) | SurfaceCleanup

  function Step(b: Binding, sig: Signal): Binding {
    match sig
    case SurfaceAvailable(s) => OnSurfaceAvailable(b, s)
    case SurfaceCleanup => OnSurfaceCleanup(b)
  }

  /** Delivers `sigs` in order; the trace only grows and the stored media never changes. */
  function Run(b: Binding, sigs: seq<Signal>): (r: Binding)
    ensures b.trace <= r.trace
    ensures r.media == b.media
    ensures r.nextId >= b.nextId
    decreases |sigs|
  {
    if |sigs| == 0 then b else Run(Step(b, sigs[0]), sigs[1..])
  }

  /**
   ASSUMPTION (the producer's contract, not checked by the player): a cleanup
   is only signalled while the player is not suspended, and an available
   callback always finds a surface.
   */
  predicate Admissible(b: Binding, sig: Signal) {
    match sig
    case SurfaceAvailable(s) => s.Some?
    case SurfaceCleanup => b.savedStateDuring.None?
  }

  /** The producer's contract over a whole sequence, starting suspended or not. */
  predicate ProviderContract(suspended: bool, sigs: seq<Signal>)
    decreases |sigs|
  {
    |sigs| == 0 ||
    match sigs[0]
    case SurfaceAvailable(s) => s.Some? && ProviderContract(false, sigs[1..])
    case SurfaceCleanup => !suspended && ProviderContract(true, sigs[1..])
  }

  /** Every admissible callback keeps the binding invariant. */
  lemma StepPreservesValid(b: Binding, sig: Signal)
    requires Valid(b) && Admissible(b, sig)
    ensures Valid(Step(b, sig))
  {
  }

  /**
   Any callback sequence that follows the producer's contract keeps the
   invariant; in particular a snapshot is held exactly when no live engine
   exists, so never both and never neither.
   */
  lemma {:induction false} RunPreservesValid(b: Binding, sigs: seq<Signal>)
    requires Valid(b)
    requires ProviderContract(b.savedStateDuring.Some?, sigs)
    ensures Valid(Run(b, sigs))
    ensures Run(b, sigs).savedStateDuring.Some? <==> Run(b, sigs).player.released
    decreases |sigs|
  {
    if |sigs| > 0 {
      StepPreservesValid(b, sigs[0]);
      RunPreservesValid(Step(b, sigs[0]), sigs[1..]);
    }
  }

  /** A freshly constructed player driven by an admissible callback sequence stays valid. */
  lemma ConstructedRunsStayValid(media: MediaItem, current: Option<Surface>, sigs: seq<Signal>)
    requires ProviderContract(false, sigs)
    ensures Valid(Run(Construct(media, current), sigs))
  {
    RunPreservesValid(Construct(media, current), sigs);
  }

  /**
   Suspend then resume: the new engine carries the old engine's playback
   fields exactly, is a different instance, plays the same media, renders to
   the new surface and leaves the player attached with no snapshot.
   */
  lemma SuspendResumeRoundTrip(b: Binding, s: Option<Surface>)
    requires Valid(b) && b.savedStateDuring.None?
    ensures var r := OnSurfaceAvailable(OnSurfaceCleanup(b), s);
      && r.player.playback == b.player.playback
      && r.player.id != b.player.id
      && r.player.media == b.player.media
      && r.player.surface == s && !r.player.released
      && r.savedStateDuring.None? && !r.needsSurface
  {
  }

  /**
   The resume branch installs an engine the trace has never named, so it is
   distinct from the released one and from every earlier engine.
   */
  lemma ResumeInstallsFreshEngine(b: Binding, s: Option<Surface>)
    requires Valid(b) && b.savedStateDuring.Some?
    ensures var r := OnSurfaceAvailable(b, s);
      && r.player.id != b.player.id
      && forall k :: 0 <= k < |b.trace| && b.trace[k].OnEngine() ==> b.trace[k].engine != r.player.id
  {
  }

  /**
   A second available callback without an intervening cleanup changes nothing,
   whatever surface it finds.
   */
  lemma AvailableIsIdempotent(b: Binding, s1: Option<Surface>, s2: Option<Surface>)
    ensures OnSurfaceAvailable(OnSurfaceAvailable(b, s1), s2) == OnSurfaceAvailable(b, s1)
  {
  }

  /**
   The player does not reject a cleanup while suspended: it saves from the
   already-released engine and releases that engine a second time.
   */
  lemma {:induction false} CleanupWhileSuspendedReleasesTwice(b: Binding)
    requires Valid(b) && b.savedStateDuring.Some?
    ensures !ReleasedAtMostOnce(OnSurfaceCleanup(b).trace)
  {
    var r := OnSurfaceCleanup(b);
    var id := b.player.id;
    var i :| 0 <= i < |b.trace| && b.trace[i] == EngineReleased(id);
    var j := |b.trace| + 1;
    assert r.trace[i] == EngineReleased(id);
    assert r.trace[j] == EngineReleased(id);
  }

  /**
   Dispose releases the engine strictly before the producer: the engine's
   release event precedes every producer release in the trace.
   */
  lemma {:induction false} DisposeReleasesEngineBeforeProducer(b: Binding)
    requires PhaseOf(b) != Disposed
    ensures var r := Dispose(b);
      exists i :: 0 <= i < |r.trace| && r.trace[i] == EngineReleased(b.player.id) &&
        forall k :: 0 <= k < |r.trace| && r.trace[k] == ProducerReleased ==> i < k
  {
    var r := Dispose(b);
    var i := |b.trace|;
    assert r.trace[i] == EngineReleased(b.player.id);
    assert forall k :: 0 <= k < |b.trace| ==> r.trace[k] == b.trace[k];
  }

  const Surface1 := Surface(1)
  const Surface2 := Surface(2)
  const Clip := MediaItem("asset:///clip.mp4")
  const At37s := Playback(37000, [0, 2], 1.5, 0.8, true)

  /**
   A concrete run: built with no surface yet, attached on the first available
   callback, playback moved to 37 s at 1.5x by the caller, suspended, then
   resumed on a new surface with a new engine at the same position and settings.
   */
  lemma ConcreteResumeScenario()
    ensures var b0 := Construct(Clip, None);
      var b1 := OnSurfaceAvailable(b0, Some(Surface1));
      var b2 := b1.(player := b1.player.(playback := At37s));
      var b3 := OnSurfaceCleanup(b2);
      var b4 := OnSurfaceAvailable(b3, Some(Surface2));
      && PhaseOf(b0) == PendingSurface && b0.needsSurface
      && PhaseOf(b1) == Attached
      && PhaseOf(b3) == Suspended && b3.savedStateDuring.value.fields.position == 37000
      && b3.savedStateDuring.value.fields.speed == 1.5
      && PhaseOf(b4) == Attached && b4.player.playback == At37s
      && b4.player.id != b2.player.id && b4.player.surface == Some(Surface2)
  {
  }
}
