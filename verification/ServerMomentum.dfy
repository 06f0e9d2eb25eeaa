/** The velocity bound over runs of the whole server, where rollbacks and restarts read models back from disk. */
module ServerMomentum {
  import opened Vectors
  import opened WeightBuffer
  import opened RoundBuffer
  import opened FederatedService
  import opened Steps
  import opened Persistence
  import opened ControlPlane
  import opened Consistency
  import opened Checkpoints
  import opened InForce
  import opened Momentum
  import Crypto

  /** Every submission runs under a valid configuration with this clipping norm and momentum. */
  ghost predicate Steady(s: Step, c: real, m: real) {
    s.Submits? ==> ValidConfig(s.env.cfg) && s.env.cfg.clipNorm == c && s.env.cfg.momentum == m
  }

  ghost predicate AllWithin(vs: seq<Vec>, c: real) {
    forall v :: v in vs ==> Within(v, c)
  }

  lemma SubmitKeepsVelocity(p: Setup, w: World, s: Step, c: real, m: real, limit: real)
    requires IsSqrt(p.sqrt) && c > 0.0 && m < 1.0 && limit >= 0.0 && Times(1.0 - m, limit) == 2.0 * c
    requires s.Submits? && Steady(s, c, m) && Plausible(p, w, s.req, s.env, s.raw, s.verdict)
    requires MomentumInv(w.buffer, c, limit)
    ensures MomentumInv(Moved(p, w, s).buffer, c, limit)
  {
    hide Times, MomentumInv, IsSqrt, ValidConfig, Screened, RoundBuffer.Tried, Moved, Plausible;
    SubmitBuffer(p, w, s);
    if Screened(w, s) {
      TryAllowed(p, w, s);
      hide TryOf;
      AddKeepsMomentum(w.buffer, p.sqrt, p.finite, TryOf(p, w, s), limit);
    }
  }

  lemma SubmitBuffer(p: Setup, w: World, s: Step)
    requires s.Submits?
    ensures Moved(p, w, s).buffer
      == if Screened(w, s) then RoundBuffer.Tried(w.buffer, p.sqrt, TryOf(p, w, s)).buffer else w.buffer
  {
    hide Submit, Screen, ScreenedTables, RoundBuffer.Tried, Settled, FilesAfter, TablesAfter, AttemptOf, TryOf;
    SubmitShape(p, w, s);
    AttemptIsTry(p, w, s);
  }

  lemma TryAllowed(p: Setup, w: World, s: Step)
    requires Screened(w, s) && Plausible(p, w, s.req, s.env, s.raw, s.verdict)
    ensures RoundBuffer.Allowed(w.buffer, p.sqrt, p.finite, TryOf(p, w, s)) && TryOf(p, w, s).at.cfg == s.env.cfg
  {
    hide Screen, Aggregates, Required;
  }

  /** Models read back leave tensors and velocities alone. */
  lemma LatestKeepsVelocity(b: Buffer, b': Buffer, published: seq<Vec>, c: real, limit: real)
    requires MomentumInv(b, c, limit) && b' == b.(latest := b'.latest)
    requires LatestPublished(b'.latest, published) && AllWithin(published, c)
    ensures MomentumInv(b', c, limit)
  {
    hide Within, NormSq;
  }

  lemma EmptyKeepsVelocity(b: Buffer, published: seq<Vec>, c: real, limit: real)
    requires b.weights == map[] && b.sizes == map[] && b.velocity == map[]
    requires LatestPublished(b.latest, published) && AllWithin(published, c)
    ensures MomentumInv(b, c, limit)
  {
    hide Within, NormSq;
  }

  lemma StepKeepsVelocity(p: Setup, tr: ControlPlane.Trace, s: Step, c: real, m: real, limit: real)
    requires IsSqrt(p.sqrt) && c > 0.0 && m < 1.0 && limit >= 0.0 && Times(1.0 - m, limit) == 2.0 * c
    requires Persistent(tr.world) && Steps.Allowed(p, tr.world, s) && Steady(s, c, m)
    requires MomentumInv(tr.world.buffer, c, limit)
    requires LatestPublished(Traced(p, tr, s).world.buffer.latest, Traced(p, tr, s).published)
    requires AllWithin(Traced(p, tr, s).published, c)
    ensures MomentumInv(Traced(p, tr, s).world.buffer, c, limit)
  {
    hide Times, MomentumInv, IsSqrt, Persistent, Moved, LatestPublished, AllWithin, Traced;
    var w, r := tr.world, Traced(p, tr, s);
    TracedWorld(p, tr, s);
    if s.Submits? {
      hide Plausible, Steady;
      SubmitKeepsVelocity(p, w, s, c, m, limit);
    } else if s.Restarts? {
      RestartFinds(p, w, s.now, s.random);
      RestartMoves(p, w, s);
      RestartEmpties(p, w, s.now, s.random);
      EmptyKeepsVelocity(r.world.buffer, r.published, c, limit);
    } else {
      QuietStepMarks(p, w, s);
      LatestKeepsVelocity(w.buffer, r.world.buffer, r.published, c, limit);
    }
  }

  lemma PublishedWithin(p: Setup, start: ControlPlane.Trace, steps: seq<Step>, c: real)
    requires IsSqrt(p.sqrt) && c > 0.0 && Clipping(steps, c) && FirstProcess(p, start)
    ensures AllWithin(ControlPlane.Run(p, start, steps).published, c)
  {
    hide NormSq, FirstProcess, Clipping, ControlPlane.Run, Within;
    RunRespectsNorm(p, start, steps, c);
    var vs := ControlPlane.Run(p, start, steps).published;
    forall v | v in vs ensures Within(v, c) {
      var i :| 0 <= i < |vs| && vs[i] == v;
      NormBoundsCoordinates(v, c);
    }
  }

  /** With momentum m below one, over every run of the server every velocity coordinate stays within 2c / (1 - m):
      across rounds that close or fail, rollbacks, rotations, restarts and rounds filled again after them. */
  lemma {:induction false} VelocityBounded(p: Setup, start: ControlPlane.Trace, steps: seq<Step>, c: real, m: real,
                                           limit: real)
    requires IsSqrt(p.sqrt) && c > 0.0 && m < 1.0 && limit >= 0.0 && Times(1.0 - m, limit) == 2.0 * c
    requires Crypto.IsAead(p.aead) && FirstProcess(p, start) && AllAllowed(p, start, steps)
      && AllFloats(p, start, steps)
    requires forall i :: 0 <= i < |steps| ==> Steady(steps[i], c, m)
    ensures MomentumInv(ControlPlane.Run(p, start, steps).world.buffer, c, limit)
  {
    FirstStart(p, start);
    hide FirstProcess, Times, IsSqrt, Persistent, Safe;
    if |steps| > 0 {
      hide ControlPlane.Run, Traced, Moved, Steps.Allowed, Follows, FloatsOut, MomentumInv, LatestPublished,
           FilesPublished, AllWithin, Steady, Clipping;
      var before := steps[..|steps| - 1];
      RunStep(p, start, steps);
      VelocityBounded(p, start, before, c, m, limit);
      RunSafe(p, start, before);
      RunInForce(p, start, steps);
      SteadyClips(steps, c, m);
      PublishedWithin(p, start, steps, c);
      StepKeepsVelocity(p, ControlPlane.Run(p, start, before), steps[|steps| - 1], c, m, limit);
    }
  }

  lemma SteadyClips(steps: seq<Step>, c: real, m: real)
    requires forall i :: 0 <= i < |steps| ==> Steady(steps[i], c, m)
    ensures Clipping(steps, c)
  {
  }
}
