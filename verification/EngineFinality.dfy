/**
 How final a cancellation is: nothing of the session is published later, unless a
 rename of it was already in flight without a handler when the cancellation came
 (src/core/session.rs:50-72, 227-243; src/core/sink.rs:192-194).
 */
module EngineFinality {
  import opened Lifecycle
  import opened Engine
  import opened EngineInvariant
  import opened EngineCancellation
  import opened EngineIds
  import opened EngineLanding

  /** Upload `u` of session `s` lost its future with its rename in flight. */
  predicate OrphanOf(w: World, u: nat, s: SessionId) {
    u < |w.uploads| && w.uploads[u].pc.Orphaned? && w.uploads[u].session == s
  }

  ghost predicate InFlight(w: World, s: SessionId) {
    exists u: nat :: OrphanOf(w, u, s)
  }

  ghost predicate OnlyOldOrphans(before: World, w: World, s: SessionId) {
    forall u: nat :: OrphanOf(w, u, s) ==> OrphanOf(before, u, s)
  }

  /** Upload `u` of session `s` landed, or still may. */
  predicate MayLand(w: World, u: nat, s: SessionId) {
    u < |w.uploads| && w.uploads[u].session == s && (w.uploads[u].landed || w.uploads[u].pc.Orphaned?)
  }

  ghost predicate OnlyOldLandings(before: World, w: World, s: SessionId) {
    forall u: nat :: MayLand(w, u, s) ==> MayLand(before, u, s)
  }

  /** A closed session gets no new rename in flight, and nothing else of it lands. */
  ghost predicate Final(before: World, w: World, s: SessionId) {
    OnlyOldOrphans(before, w, s) && OnlyOldLandings(before, w, s)
  }

  lemma DropIsFinal(w: World, u: nat, renaming: bool, s: SessionId)
    requires Inv(w) && Closed(w, s)
    ensures Final(w, DoDropUpload(w, u, renaming), s)
  {
    if u < |w.uploads| { HandlerFacts(w, u); }
  }

  lemma CommitIsFinal(w: World, u: nat, ok: bool, s: SessionId)
    requires Inv(w) && Closed(w, s)
    ensures Final(w, DoCommitDone(w, u, ok), s)
  {
    if u < |w.uploads| { HandlerFacts(w, u); }
  }

  /** The other steps of an upload keep its session, and neither land it nor orphan it. */
  predicate LandsNothing(w: World, u: nat, w': World) {
    u < |w.uploads| && u < |w'.uploads| ==>
      && w'.uploads[u].session == w.uploads[u].session
      && (w'.uploads[u].pc.Orphaned? ==> w.uploads[u].pc.Orphaned?)
      && (w'.uploads[u].landed ==> w.uploads[u].landed || w.uploads[u].pc.Orphaned?)
  }

  lemma OthersLandNothing(cfg: Config, w: World, step: Step)
    requires UploadStep(step) && !step.DropUpload? && !step.CommitDone?
    ensures LandsNothing(w, step.u, Apply(cfg, w, step))
  {
  }

  lemma OthersAreFinal(cfg: Config, w: World, step: Step, s: SessionId)
    requires UploadStep(step) && !step.DropUpload? && !step.CommitDone?
    ensures Final(w, Apply(cfg, w, step), s)
  {
    UploadFrame(cfg, w, step);
    OthersLandNothing(cfg, w, step);
  }

  lemma StepIsFinal(cfg: Config, w: World, step: Step, s: SessionId)
    requires Inv(w) && Closed(w, s)
    ensures Final(w, Apply(cfg, w, step), s)
  {
    if PrepareStep(step) || CancelStep(step) {
      PrepareCurrentMoves(cfg, w, step);
    } else if step.Claim? {
      ClaimFrame(w, step.session, step.file, step.token);
      ClaimedIsNew(w, step.session, step.file, step.token);
    } else if step.DropUpload? {
      DropIsFinal(w, step.u, step.renaming, s);
    } else if step.CommitDone? {
      CommitIsFinal(w, step.u, step.ok, s);
    } else {
      OthersAreFinal(cfg, w, step, s);
    }
  }

  lemma ClosedStays(w: World, w': World, s: SessionId)
    requires Closed(w, s) && Preserves(w, w')
    ensures Closed(w', s)
  {
    assert KeepsTerminal(w.sessions[s].slots, w'.sessions[s].slots);
  }

  lemma {:induction false} ClosedRun(cfg: Config, steps: seq<Step>, n: nat, s: SessionId)
    requires n <= |steps| && Closed(Run(cfg, steps[..n]), s)
    ensures Closed(Run(cfg, steps), s) && Final(Run(cfg, steps[..n]), Run(cfg, steps), s)
  {
    if n == |steps| {
      assert steps[..n] == steps;
    } else {
      var k := |steps| - 1;
      assert steps[..k][..n] == steps[..n];
      ClosedRun(cfg, steps[..k], n, s);
      RunKeepsInv(cfg, steps[..k]);
      StepIsFinal(cfg, Run(cfg, steps[..k]), steps[k], s);
      StepPreserves(cfg, Run(cfg, steps[..k]), steps[k]);
      ClosedStays(Run(cfg, steps[..k]), Run(cfg, steps), s);
    }
  }

  /**
   Once a cancellation that honours the answer got `true`, no later step of the run
   starts a publication of that session, and the only thing that can land is a rename
   that was already in flight without its handler.  When it got `false`, the step
   changed nothing.
   */
  lemma CancellationLinearizes(cfg: Config, steps: seq<Step>, i: nat, j: nat, s: SessionId)
    requires i < j < |steps|
    requires AsksToCancel(Run(cfg, steps[..i]), steps[i], s)
    ensures Cancellable(Run(cfg, steps[..i]), s) ==> !StartsPublication(Run(cfg, steps[..j]), steps[j], s)
    ensures Cancellable(Run(cfg, steps[..i]), s) && Lands(Run(cfg, steps[..j]), steps[j], s) ==>
              steps[j].LateCommit? && OrphanOf(Run(cfg, steps[..i]), steps[j].u, s)
    ensures !Cancellable(Run(cfg, steps[..i]), s) ==> Run(cfg, steps[..i + 1]) == Run(cfg, steps[..i])
  {
    assert steps[..i + 1][..i] == steps[..i];
    RunKeepsInv(cfg, steps[..i]);
    CancelOutcome(cfg, Run(cfg, steps[..i]), steps[i], s);
    if Cancellable(Run(cfg, steps[..i]), s) {
      assert steps[..j][..i + 1] == steps[..i + 1];
      ClosedRun(cfg, steps[..j], i + 1, s);
      RunKeepsInv(cfg, steps[..j]);
      ClosedNeverPublishes(Run(cfg, steps[..j]), steps[j], s);
      AskingKeepsUploads(cfg, Run(cfg, steps[..i]), steps[i], s);
      if Lands(Run(cfg, steps[..j]), steps[j], s) { assert OrphanOf(Run(cfg, steps[..j]), steps[j].u, s); }
    }
  }

  lemma AskingKeepsUploads(cfg: Config, w: World, step: Step, s: SessionId)
    requires AsksToCancel(w, step, s)
    ensures Apply(cfg, w, step).uploads == w.uploads
  {
    PrepareCurrentMoves(cfg, w, step);
  }

  /** Something of session `s` lands at the end of this continuation of a schedule. */
  ghost predicate LandsAfter(cfg: Config, steps: seq<Step>, more: seq<Step>, last: Step, s: SessionId) {
    Lands(Run(cfg, steps + more), last, s)
  }

  /**
   A successful cancellation is final, in every continuation of the run, if and only if
   no rename of the session is in flight without its handler at that moment.
   */
  lemma CancellationIsFinalIff(cfg: Config, steps: seq<Step>, step: Step, s: SessionId)
    requires AsksToCancel(Run(cfg, steps), step, s) && Cancellable(Run(cfg, steps), s)
    ensures (forall more, last :: !LandsAfter(cfg, steps + [step], more, last, s)) <==> !InFlight(Run(cfg, steps), s)
  {
    var w := Run(cfg, steps);
    assert (steps + [step])[..|steps|] == steps;
    if InFlight(w, s) {
      var u: nat :| OrphanOf(w, u, s);
      AskingKeepsUploads(cfg, w, step, s);
      assert steps + [step] + [] == steps + [step];
      assert LandsAfter(cfg, steps + [step], [], LateCommit(u, true), s);
    } else {
      forall more, last
        ensures !LandsAfter(cfg, steps + [step], more, last, s)
      {
        var all := steps + [step] + more + [last];
        var i, j := |steps|, |all| - 1;
        assert all[..i] == steps && all[i] == step && all[..j] == steps + [step] + more && all[j] == last;
        CancellationLinearizes(cfg, all, i, j, s);
      }
    }
  }
}
