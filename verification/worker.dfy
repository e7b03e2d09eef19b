/**
 * One camera's worker: the camera configuration it holds, the `_running`
 * flag, and whether it holds a background thread handle. The thread itself
 * is abstract; only the presence of its handle is modelled.
 */
module Worker {
  import opened Schema

  datatype Worker = Worker(cfg: CameraConfig, running: bool, hasThread: bool)

  /** A worker runs exactly when it holds a thread handle. */
  predicate Consistent(w: Worker) {
    w.running == w.hasThread
  }

  /** A freshly constructed worker holds `cfg` and is idle. */
  function NewWorker(cfg: CameraConfig): (w: Worker)
    ensures w.cfg == cfg && !w.running && !w.hasThread
    ensures Consistent(w)
  {
    Worker(cfg, false, false)
  }

  /** Sets the running flag and spawns a thread, unless already running. */
  function Start(w: Worker): (w': Worker)
    ensures w'.running && w'.cfg == w.cfg
    ensures w.running ==> w' == w
    ensures Consistent(w) ==> Consistent(w') && w'.hasThread
  {
    if w.running then w else w.(running := true, hasThread := true)
  }

  /** Clears the running flag, joins the thread if there is one, and drops its handle. */
  function Stop(w: Worker): (w': Worker)
    ensures !w'.running && !w'.hasThread && w'.cfg == w.cfg
    ensures Consistent(w')
  {
    var w1 := w.(running := false);
    if w1.hasThread then w1.(hasThread := false) else w1
  }

  /** Replaces the hot-swappable part of the held configuration. */
  function ApplyUpdate(w: Worker, cfg: CameraConfig): (w': Worker)
    ensures w'.cfg.zones == cfg.zones
    ensures w'.cfg.detection == cfg.detection
    ensures w'.cfg.retention == cfg.retention
    ensures w'.cfg.name == w.cfg.name && w'.cfg.enabled == w.cfg.enabled && w'.cfg.ffmpeg == w.cfg.ffmpeg
    ensures w'.running == w.running && w'.hasThread == w.hasThread
  {
    w.(cfg := w.cfg.(zones := cfg.zones, detection := cfg.detection, retention := cfg.retention))
  }

  /** Stops the worker, swaps in the whole of `cfg`, and starts it again. */
  function GracefulRestart(w: Worker, cfg: CameraConfig): (w': Worker)
    ensures w'.cfg == cfg && w'.running && w'.hasThread
  {
    Start(Stop(w).(cfg := cfg))
  }

  /** Every transition keeps the running flag and the thread handle in step. */
  lemma TransitionsKeepConsistent(w: Worker, cfg: CameraConfig)
    requires Consistent(w)
    ensures Consistent(Start(w)) && Consistent(Stop(w))
    ensures Consistent(ApplyUpdate(w, cfg)) && Consistent(GracefulRestart(w, cfg))
  {
  }

  /** Starting twice is the same as starting once. */
  lemma StartIdempotent(w: Worker)
    ensures Start(Start(w)) == Start(w)
  {
  }

  /** Stopping twice is safe and leaves the same state as stopping once. */
  lemma StopIdempotent(w: Worker)
    ensures Stop(Stop(w)) == Stop(w)
  {
  }

  lemma ApplyUpdateIdempotent(w: Worker, cfg: CameraConfig)
    ensures ApplyUpdate(ApplyUpdate(w, cfg), cfg) == ApplyUpdate(w, cfg)
  {
  }

  /**
   * A graceful restart forgets the worker's prior state entirely: the result
   * depends on `cfg` alone.
   */
  lemma GracefulRestartForgetsPrior(w1: Worker, w2: Worker, cfg: CameraConfig)
    ensures GracefulRestart(w1, cfg) == GracefulRestart(w2, cfg)
    ensures GracefulRestart(w1, cfg) == Start(NewWorker(cfg))
  {
  }
}
