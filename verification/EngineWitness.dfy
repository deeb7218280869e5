/**
 Runs in which what the conditions of the keeping, landing, finality and progress
 theorems shut out does happen.
 */
module EngineWitness {
  import opened Options
  import opened Lifecycle
  import opened MapSums
  import opened Engine
  import opened EngineCancellation

  const OFFER: Files := map[7 := Meta([0x61], 0, None, false)]

  lemma RunSnoc(cfg: Config, steps: seq<Step>, step: Step)
    ensures Run(cfg, steps + [step]) == Apply(cfg, Run(cfg, steps), step)
  {
    assert (steps + [step])[..|steps|] == steps;
  }

  /** Handler `p` gets an acceptance as its answer, and clears the consent. */
  lemma Answered(cfg: Config, before: seq<Step>, p: nat) returns (steps: seq<Step>)
    requires var w := Run(cfg, before);
             p < |w.prepares| && w.prepares[p].pc.Deciding? && w.prepares[p].reserved !in w.withdrawn
    ensures var w, w' := Run(cfg, before), Run(cfg, steps);
            && w'.prepares == w.prepares[p := w.prepares[p].(pc := Cleared(Accept))]
            && w'.sessions == w.sessions && w'.current == w.current && w'.uploads == w.uploads
  {
    RunSnoc(cfg, before, Decide(p, Accept, false));
    steps := before + [Decide(p, Accept, false)];
    RunSnoc(cfg, steps, ClearConsent(p));
    steps := steps + [ClearConsent(p)];
  }

  lemma WholeOffer(offer: Files)
    requires offer != map[] && forall f :: f in offer ==> !offer[f].preview
    ensures !IsMessage(offer) && AcceptedIds(Accept, offer) != {}
    ensures Restrict(offer, AcceptedIds(Accept, offer)) == offer
  {
    var some :| some in offer;
    assert !offer[some].preview && some in offer.Keys;
  }

  /** Handler `p` installs the accepted session and discloses it. */
  lemma InstalledAndTold(cfg: Config, before: seq<Step>, p: nat) returns (steps: seq<Step>)
    requires var w := Run(cfg, before);
             && p < |w.prepares| && w.prepares[p].pc == Cleared(Accept)
             && w.prepares[p].offered != map[]
             && (forall f :: f in w.prepares[p].offered ==> !w.prepares[p].offered[f].preview)
             && w.current.Some? && w.current.value < |w.sessions|
    ensures var w, w' := Run(cfg, before), Run(cfg, steps);
            && |w'.sessions| == |w.sessions| + 1
            && w'.current == Some(|w.sessions|) && |w.sessions| in w'.disclosed
            && w'.sessions[|w.sessions|] == NewSession(w.prepares[p].offered)
            && w'.uploads == w.uploads
            && |w'.prepares| == |w.prepares|
            && (forall q :: 0 <= q < |w.prepares| && q != p ==> w'.prepares[q] == w.prepares[q])
  {
    var w := Run(cfg, before);
    WholeOffer(w.prepares[p].offered);
    RunSnoc(cfg, before, Resolve(p));
    steps := before + [Resolve(p)];
    assert Run(cfg, steps).prepares[p] == w.prepares[p].(pc := Installed(|w.sessions|));
    RunSnoc(cfg, steps, Respond(p));
    steps := steps + [Respond(p)];
  }

  /** Handler `p` is answered with an acceptance and its response goes out. */
  lemma Accepted(cfg: Config, before: seq<Step>, p: nat, offer: Files) returns (steps: seq<Step>)
    requires offer != map[] && forall f :: f in offer ==> !offer[f].preview
    requires var w := Run(cfg, before);
             && p < |w.prepares| && w.prepares[p].pc.Deciding? && w.prepares[p].offered == offer
             && w.prepares[p].reserved !in w.withdrawn
             && w.current == Some(w.prepares[p].reserved) && w.prepares[p].reserved < |w.sessions|
    ensures var w, w' := Run(cfg, before), Run(cfg, steps);
            && |w'.sessions| == |w.sessions| + 1
            && w'.current == Some(|w.sessions|) && |w.sessions| in w'.disclosed
            && w'.sessions[|w.sessions|] == NewSession(offer)
            && w'.uploads == w.uploads
            && |w'.prepares| == |w.prepares|
            && (forall q :: 0 <= q < |w.prepares| && q != p ==> w'.prepares[q] == w.prepares[q])
  {
    steps := Answered(cfg, before, p);
    steps := InstalledAndTold(cfg, steps, p);
  }

  /** The last upload is `upload`, of file 7 of the current session `s`, whose slot is in `phase`. */
  ghost predicate UploadIs(w: World, u: nat, s: SessionId, phase: Phase, upload: Upload) {
    && s < |w.sessions| && w.current == Some(s) && s in w.disclosed
    && w.sessions[s].files == OFFER
    && w.sessions[s].slots == map[7 := Slot(phase, false)]
    && |w.uploads| == u + 1
    && w.uploads[u] == upload
  }

  /** Streamed and validated, about to commit. */
  ghost predicate AboutToCommit(w: World, u: nat, s: SessionId) {
    UploadIs(w, u, s, Publishing, Upload(Committing, Permit, s, 7, [], 0, false, false))
  }

  /** The rest of the world is as it was. */
  predicate OthersKept(w: World, w': World, s: SessionId)
    requires s < |w.sessions|
  {
    && |w.uploads| <= |w'.uploads| && w'.uploads[..|w.uploads|] == w.uploads
    && w'.prepares == w.prepares
    && s < |w'.sessions| && w'.sessions[s].received == w.sessions[s].received
  }

  lemma Claimed(cfg: Config, before: seq<Step>, s: SessionId) returns (steps: seq<Step>)
    requires var w := Run(cfg, before);
             && s < |w.sessions| && w.current == Some(s) && s in w.disclosed
             && w.sessions[s].files == OFFER && w.sessions[s].slots == map[7 := Slot(Ready, false)]
    ensures var w, w' := Run(cfg, before), Run(cfg, steps);
            && UploadIs(w', |w.uploads|, s, Receiving, Upload(Streaming, Lease, s, 7, [], 0, false, false))
            && OthersKept(w, w', s)
  {
    var u := |Run(cfg, before).uploads|;
    RunSnoc(cfg, before, Claim(s, 7, Issued(s, 7)));
    steps := before + [Claim(s, 7, Issued(s, 7))];
    RunSnoc(cfg, steps, CreateDone(u, true));
    steps := steps + [CreateDone(u, true)];
  }

  lemma Validates(cfg: Config, before: seq<Step>, u: nat, s: SessionId) returns (steps: seq<Step>)
    requires UploadIs(Run(cfg, before), u, s, Receiving, Upload(Streaming, Lease, s, 7, [], 0, false, false))
    ensures AboutToCommit(Run(cfg, steps), u, s)
    ensures Run(cfg, steps).uploads[..u] == Run(cfg, before).uploads[..u]
    ensures Run(cfg, steps).prepares == Run(cfg, before).prepares
    ensures Run(cfg, steps).sessions[s].received == Run(cfg, before).sessions[s].received
  {
    RunSnoc(cfg, before, EndBody(u));
    steps := before + [EndBody(u)];
    assert Run(cfg, steps).uploads[u] == Upload(Validated, Lease, s, 7, [], 0, false, false);
    RunSnoc(cfg, steps, Publish(u));
    steps := steps + [Publish(u)];
  }

  lemma Uploaded(cfg: Config, before: seq<Step>, s: SessionId) returns (steps: seq<Step>)
    requires var w := Run(cfg, before);
             && s < |w.sessions| && w.current == Some(s) && s in w.disclosed
             && w.sessions[s].files == OFFER && w.sessions[s].slots == map[7 := Slot(Ready, false)]
    ensures var w, w' := Run(cfg, before), Run(cfg, steps);
            AboutToCommit(w', |w.uploads|, s) && OthersKept(w, w', s)
  {
    steps := Claimed(cfg, before, s);
    steps := Validates(cfg, steps, |Run(cfg, before).uploads|, s);
  }

  lemma TwoOffers(cfg: Config) returns (steps: seq<Step>)
    ensures var w := Run(cfg, steps);
            && w.prepares == [Prepare(Deciding, 0, OFFER), Prepare(Deciding, 1, OFFER)]
            && |w.sessions| == 2 && w.current == Some(1) && w.withdrawn == {0} && w.uploads == []
  {
    assert 7 in OFFER;
    RunSnoc(cfg, [], Reserve(1, OFFER, false));
    steps := [] + [Reserve(1, OFFER, false)];
    assert Run(cfg, steps).awaiting == Some(Reservation(0, 1)) && Run(cfg, steps).current == Some(0);
    RunSnoc(cfg, steps, WithdrawOffer(1));
    steps := steps + [WithdrawOffer(1)];
    assert Run(cfg, steps).current.None? && Run(cfg, steps).withdrawn == {0};
    RunSnoc(cfg, steps, Reserve(2, OFFER, false));
    steps := steps + [Reserve(2, OFFER, false)];
  }

  lemma OneOffer(cfg: Config, offer: Files) returns (steps: seq<Step>)
    requires offer != map[]
    ensures var w := Run(cfg, steps);
            && w.prepares == [Prepare(Deciding, 0, offer)]
            && |w.sessions| == 1 && w.current == Some(0) && w.withdrawn == {} && w.uploads == []
  {
    RunSnoc(cfg, [], Reserve(1, offer, false));
    steps := [] + [Reserve(1, offer, false)];
  }

  /** The parked handler of prepare 0 wakes up while session `s` is publishing, and declines. */
  lemma DeclinedMeanwhile(cfg: Config, before: seq<Step>, s: SessionId) returns (steps: seq<Step>)
    requires var w := Run(cfg, before);
             AboutToCommit(w, 0, s) && |w.prepares| > 0 && w.prepares[0] == Prepare(Deciding, 0, OFFER)
    ensures var w, w' := Run(cfg, before), Run(cfg, steps);
            w'.current.None? && w'.sessions == w.sessions && w'.uploads == w.uploads
  {
    var w := Run(cfg, before);
    RunSnoc(cfg, before, Decide(0, Decline, false));
    steps := before + [Decide(0, Decline, false)];
    RunSnoc(cfg, steps, ClearConsent(0));
    steps := steps + [ClearConsent(0)];
    assert At(w.sessions[s].slots, 7, Publishing);
    RunSnoc(cfg, steps, Resolve(0));
    steps := steps + [Resolve(0)];
    assert Run(cfg, steps).sessions == w.sessions;
  }

  lemma RecordedTooLate(cfg: Config, before: seq<Step>, s: SessionId) returns (steps: seq<Step>)
    requires var w := Run(cfg, before);
             && w.current.None? && s < |w.sessions|
             && w.sessions[s].files == OFFER && w.sessions[s].slots == map[7 := Slot(Publishing, false)]
             && w.uploads == [Upload(Committing, Permit, s, 7, [], 0, false, false)]
    ensures var w, w' := Run(cfg, before), Run(cfg, steps);
            && w'.current.None? && w'.sessions == w.sessions
            && w'.uploads == [Upload(Leaving, Permit, s, 7, [], 0, true, false)]
  {
    RunSnoc(cfg, before, CommitDone(0, true));
    steps := before + [CommitDone(0, true)];
    RunSnoc(cfg, steps, Record(0));
    steps := steps + [Record(0)];
  }

  /**
   Peer 1 withdraws its offer, peer 2 takes the slot and its file is being
   published; peer 1's parked handler then declines, which evicts peer 2's session,
   and the committed file finds no session to be recorded in.
   */
  lemma ParkedDeclineEvictsAnother(cfg: Config) returns (steps: seq<Step>)
    ensures var w := Run(cfg, steps);
            && |w.uploads| > 0 && w.uploads[0].landed && w.uploads[0].pc.Leaving?
            && w.current.None?
            && w.uploads[0].session < |w.sessions|
            && w.sessions[w.uploads[0].session].received == {}
  {
    steps := TwoOffers(cfg);
    assert 7 in OFFER;
    steps := Accepted(cfg, steps, 1, OFFER);
    steps := Uploaded(cfg, steps, 2);
    steps := DeclinedMeanwhile(cfg, steps, 2);
    steps := RecordedTooLate(cfg, steps, 2);
  }

  /** The future of the only upload is dropped right after its commit. */
  lemma DroppedAfterCommit(cfg: Config, before: seq<Step>, s: SessionId) returns (steps: seq<Step>)
    requires AboutToCommit(Run(cfg, before), 0, s)
    ensures var w, w' := Run(cfg, before), Run(cfg, steps);
            && |w'.sessions| == |w.sessions| && w'.current == Some(s) && s in w'.disclosed
            && w'.sessions[s].files == OFFER && w'.sessions[s].slots == map[7 := Slot(Ready, false)]
            && w'.uploads == [Upload(Gone, NoHold, s, 7, [], 0, true, true)]
  {
    RunSnoc(cfg, before, CommitDone(0, true));
    steps := before + [CommitDone(0, true)];
    RunSnoc(cfg, steps, DropUpload(0, false));
    steps := steps + [DropUpload(0, false)];
  }

  /** A committed upload is lost, and its slot is free again. */
  lemma LostCommit(cfg: Config) returns (steps: seq<Step>)
    ensures var w := Run(cfg, steps);
            && 1 < |w.sessions| && w.current == Some(1) && 1 in w.disclosed
            && w.sessions[1].files == OFFER && w.sessions[1].slots == map[7 := Slot(Ready, false)]
            && w.uploads == [Upload(Gone, NoHold, 1, 7, [], 0, true, true)]
  {
    assert 7 in OFFER;
    steps := OneOffer(cfg, OFFER);
    steps := Accepted(cfg, steps, 0, OFFER);
    steps := Uploaded(cfg, steps, 1);
    steps := DroppedAfterCommit(cfg, steps, 1);
  }

  lemma CommitLands(cfg: Config, before: seq<Step>, u: nat, s: SessionId) returns (steps: seq<Step>)
    requires AboutToCommit(Run(cfg, before), u, s)
    ensures Run(cfg, steps).uploads ==
              Run(cfg, before).uploads[u := Upload(Committed, Permit, s, 7, [], 0, true, false)]
  {
    RunSnoc(cfg, before, CommitDone(u, true));
    steps := before + [CommitDone(u, true)];
  }

  /**
   An upload future dropped between its commit and its record frees the slot, and
   the same file of the same session lands a second time.
   */
  lemma LostCommitLandsTwice(cfg: Config) returns (steps: seq<Step>)
    ensures var w := Run(cfg, steps);
            && |w.uploads| == 2
            && w.uploads[0].session == w.uploads[1].session && w.uploads[0].file == w.uploads[1].file
            && w.uploads[0].landed && w.uploads[1].landed
  {
    steps := LostCommit(cfg);
    ghost var uploads := Run(cfg, steps).uploads;
    steps := Uploaded(cfg, steps, 1);
    assert Run(cfg, steps).uploads[0] == uploads[0] by {
      assert Run(cfg, steps).uploads[..1][0] == uploads[0];
    }
    steps := CommitLands(cfg, steps, 1, 1);
  }

  // ---- a rename in flight ----

  lemma DroppedWhileRenaming(cfg: Config, before: seq<Step>, s: SessionId) returns (steps: seq<Step>)
    requires AboutToCommit(Run(cfg, before), 0, s)
    ensures UploadIs(Run(cfg, steps), 0, s, Ready, Upload(Orphaned, NoHold, s, 7, [], 0, false, false))
  {
    RunSnoc(cfg, before, DropUpload(0, true));
    steps := before + [DropUpload(0, true)];
  }

  lemma StopsWhileRenaming(cfg: Config, steps: seq<Step>, s: SessionId)
    requires UploadIs(Run(cfg, steps), 0, s, Ready, Upload(Orphaned, NoHold, s, 7, [], 0, false, false))
    ensures AsksToCancel(Run(cfg, steps), Stop, s) && Cancellable(Run(cfg, steps), s)
    ensures Lands(Run(cfg, steps + [Stop]), LateCommit(0, true), s)
  {
    RunSnoc(cfg, steps, Stop);
    assert !At(Run(cfg, steps).sessions[s].slots, 7, Publishing);
  }

  /**
   The future of an upload is dropped with its rename in flight, the session is then
   cancelled with success, and the file lands all the same.
   */
  lemma LateRenameLandsAfterCancellation(cfg: Config) returns (steps: seq<Step>, i: nat, s: SessionId)
    ensures i < |steps| - 1
    ensures AsksToCancel(Run(cfg, steps[..i]), steps[i], s) && Cancellable(Run(cfg, steps[..i]), s)
    ensures Lands(Run(cfg, steps[..|steps| - 1]), steps[|steps| - 1], s)
  {
    assert 7 in OFFER;
    var before := OneOffer(cfg, OFFER);
    before := Accepted(cfg, before, 0, OFFER);
    before := Uploaded(cfg, before, 1);
    before := DroppedWhileRenaming(cfg, before, 1);
    StopsWhileRenaming(cfg, before, 1);
    i, s := |before|, 1;
    steps := before + [Stop] + [LateCommit(0, true)];
    assert steps[..i] == before && steps[..|steps| - 1] == before + [Stop] && steps[i] == Stop;
  }

  // ---- an overrun ----

  const TWO_FILES: Files := map[7 := Meta([0x61], 1, None, false), 8 := Meta([0x62], 1, None, false)]

  lemma TwoFilesTotal()
    ensures TotalBytes(TWO_FILES) == 2
  {
    var sizes := Sizes(TWO_FILES);
    assert sizes == map[7 := 1, 8 := 1];
    SumRemove(sizes, 7);
    assert sizes - {7} == map[8 := 1];
    SumRemove(sizes - {7}, 8);
    assert sizes - {7} - {8} == map[];
  }

  /** Session `s` is being uploaded to: its files, its counter, and who may upload. */
  ghost predicate OpenSession(w: World, s: SessionId, counter: nat) {
    && s < |w.sessions| && w.current == Some(s) && s in w.disclosed
    && w.sessions[s].files == TWO_FILES && w.sessions[s].slots.Keys == TWO_FILES.Keys
    && w.sessions[s].receivedBytes == counter
  }

  lemma Begins(cfg: Config, before: seq<Step>, s: SessionId, f: FileId, counter: nat) returns (steps: seq<Step>)
    requires OpenSession(Run(cfg, before), s, counter) && At(Run(cfg, before).sessions[s].slots, f, Ready)
    ensures OpenSession(Run(cfg, steps), s, counter)
    ensures Run(cfg, steps).uploads ==
            Run(cfg, before).uploads + [Upload(Streaming, Lease, s, f, [], 0, false, false)]
    ensures forall g :: g in TWO_FILES && g != f ==>
              Run(cfg, steps).sessions[s].slots[g] == Run(cfg, before).sessions[s].slots[g]
  {
    var u := |Run(cfg, before).uploads|;
    RunSnoc(cfg, before, Claim(s, f, Issued(s, f)));
    steps := before + [Claim(s, f, Issued(s, f))];
    assert Run(cfg, steps).uploads == Run(cfg, before).uploads + [Upload(Creating, Lease, s, f, [], 0, false, false)];
    RunSnoc(cfg, steps, CreateDone(u, true));
    steps := steps + [CreateDone(u, true)];
  }

  lemma Writes(cfg: Config, before: seq<Step>, u: nat, s: SessionId, f: FileId, bytes: Bytes) returns (steps: seq<Step>)
    requires u < |Run(cfg, before).uploads|
    requires Run(cfg, before).uploads[u] == Upload(Streaming, Lease, s, f, [], 0, false, false)
    ensures Run(cfg, steps) == WithUpload(Run(cfg, before), u, Upload(Streaming, Lease, s, f, [bytes], 0, false, false))
  {
    var w := Run(cfg, before);
    assert Body(w.uploads[u]) == [] && w.uploads[u].chunks + [bytes] == [bytes];
    assert DoWriteChunk(w, u, bytes) == WithUpload(w, u, w.uploads[u].(chunks := w.uploads[u].chunks + [bytes]));
    RunSnoc(cfg, before, WriteChunk(u, bytes));
    steps := before + [WriteChunk(u, bytes)];
  }

  lemma Reports(cfg: Config, before: seq<Step>, u: nat, s: SessionId, f: FileId, counter: nat, bytes: Bytes)
    returns (steps: seq<Step>)
    requires OpenSession(Run(cfg, before), s, counter) && f in TWO_FILES && counter <= 2 && |bytes| <= 3
    requires u < |Run(cfg, before).uploads|
    requires Run(cfg, before).uploads[u] == Upload(Streaming, Lease, s, f, [bytes], 0, false, false)
    ensures OpenSession(Run(cfg, steps), s, Min(counter + |bytes|, 2))
    ensures Run(cfg, steps).uploads ==
            Run(cfg, before).uploads[u := Upload(Streaming, Lease, s, f, [bytes], |bytes|, false, false)]
    ensures Run(cfg, steps).sessions[s].slots == Run(cfg, before).sessions[s].slots
  {
    TwoFilesTotal();
    assert Flatten([bytes]) == bytes by { assert [bytes][..0] == []; }
    RunSnoc(cfg, before, Report(u));
    steps := before + [Report(u)];
  }

  /** The first file has reported its byte, the second one three. */
  lemma BothReport(cfg: Config) returns (steps: seq<Step>)
    ensures OpenSession(Run(cfg, steps), 1, 2)
    ensures Run(cfg, steps).uploads == [Upload(Streaming, Lease, 1, 7, [[1]], 1, false, false),
                                        Upload(Streaming, Lease, 1, 8, [[1, 2, 3]], 3, false, false)]
  {
    assert 7 in TWO_FILES;
    steps := OneOffer(cfg, TWO_FILES);
    steps := Accepted(cfg, steps, 0, TWO_FILES);
    steps := Begins(cfg, steps, 1, 7, 0);
    steps := Writes(cfg, steps, 0, 1, 7, [1]);
    steps := Reports(cfg, steps, 0, 1, 7, 0, [1]);
    steps := Begins(cfg, steps, 1, 8, 1);
    steps := Writes(cfg, steps, 1, 1, 8, [1, 2, 3]);
    steps := Reports(cfg, steps, 1, 1, 8, 1, [1, 2, 3]);
  }

  lemma GivesUp(cfg: Config, before: seq<Step>) returns (steps: seq<Step>)
    requires OpenSession(Run(cfg, before), 1, 2) && |Run(cfg, before).uploads| == 2
    requires Run(cfg, before).uploads[1] == Upload(Streaming, Lease, 1, 8, [[1, 2, 3]], 3, false, false)
    ensures OpenSession(Run(cfg, steps), 1, 0)
    ensures Run(cfg, steps).uploads ==
            Run(cfg, before).uploads[1 := Upload(Aborting, Lease, 1, 8, [[1, 2, 3]], 0, false, false)]
  {
    RunSnoc(cfg, before, FailBody(1));
    steps := before + [FailBody(1)];
    assert Run(cfg, steps).uploads[1] == Upload(RollingBack(3), Lease, 1, 8, [[1, 2, 3]], 3, false, false);
    RunSnoc(cfg, steps, Rollback(1));
    steps := steps + [Rollback(1)];
  }

  /**
   Two files of one byte each.  The first upload has reported its byte; the second
   overruns, its report is clamped at the total, and its rollback then takes the
   first one's byte off the counter as well.
   */
  lemma OverrunTakesAnothersBytes(cfg: Config) returns (steps: seq<Step>)
    ensures var w := Run(cfg, steps);
            && OpenSession(w, 1, 0)
            && w.uploads == [Upload(Streaming, Lease, 1, 7, [[1]], 1, false, false),
                             Upload(Aborting, Lease, 1, 8, [[1, 2, 3]], 0, false, false)]
  {
    steps := BothReport(cfg);
    steps := GivesUp(cfg, steps);
  }
}
