/**
 The byte counter of a session, shared by its concurrent uploads
 (src/server/handlers.rs:461-480, 693-791).
 */
module EngineProgress {
  import opened Options
  import opened Lifecycle
  import opened MapSums
  import opened Engine
  import opened EngineInvariant
  import opened EngineCancellation
  import opened EngineIds
  import opened EngineLanding

  /** What the uploads of one file have put on the counter and not taken back. */
  function SlotCredit(uploads: seq<Upload>, s: SessionId, f: FileId): nat {
    if uploads == [] then 0
    else
      var last := uploads[|uploads| - 1];
      SlotCredit(uploads[..|uploads| - 1], s, f) + if last.session == s && last.file == f then last.reported else 0
  }

  function Credits(w: World, s: SessionId): map<FileId, nat>
    requires s < |w.sessions|
  {
    map f | f in w.sessions[s].files :: SlotCredit(w.uploads, s, f)
  }

  /** The handler runs to its end: its future is not dropped at an await. */
  predicate Returning(step: Step) {
    !step.DropUpload?
  }

  /** Bodies stay within the declared size, and declared totals fit in 64 bits. */
  ghost predicate Bounded(w: World, step: Step) {
    match step
    case WriteChunk(u, chunk) => Known(w, u) ==> |Body(w.uploads[u])| + |chunk| <= MetaOf(w, u).size
    case Claim(s, _, _) => s < |w.sessions| ==> SumOf(Sizes(w.sessions[s].files)) <= U64_MAX
    case _ => true
  }

  /** The guard of the clamp in `add`: this report would take the counter beyond the declared total. */
  ghost predicate Clamps(w: World, step: Step) {
    && step.Report?
    && InPc(w, step.u, Streaming) && Known(w, step.u)
    && var me := w.uploads[step.u]; var s := w.sessions[me.session];
       s.receivedBytes + SaturatingSub(|Body(me)|, me.reported) > TotalBytes(s.files)
  }

  /** A checked upload is all of its file; a landed one has reported it; one that let go owes nothing. */
  ghost predicate AccountOk(w: World, u: nat)
    requires Known(w, u)
  {
    var me := w.uploads[u];
    && (me.pc.Validated? || me.pc.Committing? || me.pc.Committed? || me.landed ==> |Body(me)| == MetaOf(w, u).size)
    && (me.landed ==> me.reported == |Body(me)|)
    && me.reported <= |Body(me)|
    && !me.lost && !me.pc.Orphaned?
    && (me.pc.Gone? && !me.landed ==> me.reported == 0)
    && (me.hold.NoHold? && me.reported > 0 ==> Terminal(SlotOf(w, u).phase) || w.current != Some(me.session))
  }

  /** The body is within the file, and the declared total in 64 bits. */
  ghost predicate FitOk(w: World, u: nat)
    requires Known(w, u)
  {
    && |Body(w.uploads[u])| <= MetaOf(w, u).size
    && SumOf(Sizes(w.sessions[w.uploads[u].session].files)) <= U64_MAX
  }

  ghost predicate FitsOk(w: World)
    requires WellFormed(w)
  {
    forall u :: 0 <= u < |w.uploads| ==> FitOk(w, u)
  }

  ghost predicate AccountsOk(w: World)
    requires WellFormed(w)
  {
    && (forall u :: 0 <= u < |w.uploads| ==> AccountOk(w, u))
    && (forall u, v :: 0 <= u < v < |w.uploads| && SameSlot(w.uploads[u], w.uploads[v]) ==> w.uploads[u].reported == 0)
  }

  ghost predicate CountersOk(w: World) {
    forall s :: 0 <= s < |w.sessions| ==> w.sessions[s].receivedBytes == SumOf(Credits(w, s))
  }

  // ---- accounts of uploads ----

  lemma SameUploadsAccounts(w: World, w': World)
    requires Inv(w) && AccountsOk(w) && Inv(w') && Preserves(w, w')
    requires CurrentMoves(w, w') && w'.uploads == w.uploads
    ensures AccountsOk(w')
  {
    forall u | 0 <= u < |w'.uploads|
      ensures AccountOk(w', u)
    {
      HandlerFacts(w, u);
      assert AccountOk(w, u);
    }
  }

  lemma ClaimAccounts(w: World, s: SessionId, f: FileId, token: Token)
    requires Inv(w) && LandOk(w) && AccountsOk(w)
    ensures var w' := DoClaim(w, s, f, token); Inv(w') && LandOk(w') && AccountsOk(w')
  {
    var w' := DoClaim(w, s, f, token);
    ClaimLands(w, s, f, token);
    ClaimPreserves(w, s, f, token);
    if w' != w {
      var n := |w.uploads|;
      assert w'.uploads == w.uploads + [Claimant(s, f)];
      forall u | 0 <= u < |w'.uploads|
        ensures AccountOk(w', u)
        ensures u < n && SameSlot(w'.uploads[u], w'.uploads[n]) ==> w'.uploads[u].reported == 0
      {
        if u < n {
          HandlerFacts(w, u);
          assert AccountOk(w, u);
          assert InOrder(w'.uploads[u], w'.uploads[n]);
        }
      }
    }
  }

  lemma MoveAccounts(w: World, u: nat, w': World)
    requires Inv(w) && LandOk(w) && AccountsOk(w) && Inv(w') && Preserves(w, w') && CurrentMoves(w, w')
    requires OnlyUpload(w, u, w') && u < |w.uploads|
    requires w.uploads[u].hold.NoHold? ==> w'.uploads[u].reported <= w.uploads[u].reported
    requires AccountOk(w', u)
    ensures AccountsOk(w')
  {
    forall v | 0 <= v < |w'.uploads|
      ensures AccountOk(w', v)
    {
      if v != u {
        HandlerFacts(w, v);
        assert AccountOk(w, v);
      }
    }
    forall a, b | 0 <= a < b < |w'.uploads| && SameSlot(w'.uploads[a], w'.uploads[b])
      ensures w'.uploads[a].reported == 0
    {
      assert InOrder(w.uploads[a], w.uploads[b]);
      assert SameSlot(w.uploads[a], w.uploads[b]);
    }
  }

  lemma QuietAccount(cfg: Config, w: World, step: Step)
    requires Inv(w) && LandOk(w) && AccountsOk(w) && UploadStep(step) && Quiet(step) && step.u < |w.uploads|
    ensures Known(Apply(cfg, w, step), step.u) && AccountOk(Apply(cfg, w, step), step.u)
  {
    HandlerFacts(w, step.u);
    assert AccountOk(w, step.u);
    if step.WriteChunk? { FlattenAppend(w.uploads[step.u].chunks, step.chunk); }
  }

  lemma PublishAccount(w: World, u: nat)
    requires Inv(w) && LandOk(w) && AccountsOk(w) && u < |w.uploads|
    ensures Known(DoPublish(w, u), u) && AccountOk(DoPublish(w, u), u)
    ensures DoPublish(w, u).uploads[u].reported == w.uploads[u].reported
  {
    HandlerFacts(w, u);
    assert AccountOk(w, u) && Settled(w, u);
  }

  lemma RecordAccount(w: World, u: nat)
    requires Inv(w) && LandOk(w) && AccountsOk(w) && u < |w.uploads|
    ensures Known(DoRecord(w, u), u) && AccountOk(DoRecord(w, u), u)
    ensures DoRecord(w, u).uploads[u].reported == w.uploads[u].reported
  {
    HandlerFacts(w, u);
    assert AccountOk(w, u) && Settled(w, u);
  }

  lemma DropHoldAccount(w: World, u: nat)
    requires Inv(w) && LandOk(w) && AccountsOk(w) && u < |w.uploads|
    ensures Known(DoDropHold(w, u), u) && AccountOk(DoDropHold(w, u), u)
    ensures DoDropHold(w, u).uploads[u].reported == w.uploads[u].reported
  {
    HandlerFacts(w, u);
    assert AccountOk(w, u) && Settled(w, u);
  }

  lemma OutsideStepKeepsAccounts(cfg: Config, w: World, step: Step)
    requires Inv(w) && LandOk(w) && AccountsOk(w) && (PrepareStep(step) || CancelStep(step))
    ensures Inv(Apply(cfg, w, step)) && LandOk(Apply(cfg, w, step)) && AccountsOk(Apply(cfg, w, step))
  {
    StepKeepsLand(cfg, w, step);
    StepPreserves(cfg, w, step);
    PrepareCurrentMoves(cfg, w, step);
    SameUploadsAccounts(w, Apply(cfg, w, step));
  }

  lemma StepKeepsAccounts(cfg: Config, w: World, step: Step)
    requires Inv(w) && LandOk(w) && AccountsOk(w) && Returning(step)
    ensures Inv(Apply(cfg, w, step)) && LandOk(Apply(cfg, w, step)) && AccountsOk(Apply(cfg, w, step))
  {
    if step.Claim? {
      ClaimAccounts(w, step.session, step.file, step.token);
    } else if !UploadStep(step) {
      OutsideStepKeepsAccounts(cfg, w, step);
    } else if step.u < |w.uploads| {
      UploadStepKeepsAccounts(cfg, w, step);
    } else {
      NobodysStep(cfg, w, step);
    }
  }

  lemma UploadStepKeepsAccounts(cfg: Config, w: World, step: Step)
    requires Inv(w) && LandOk(w) && AccountsOk(w) && UploadStep(step) && step.u < |w.uploads| && Returning(step)
    ensures Inv(Apply(cfg, w, step)) && LandOk(Apply(cfg, w, step)) && AccountsOk(Apply(cfg, w, step))
  {
    var u := step.u;
    StepKeepsLand(cfg, w, step);
    StepPreserves(cfg, w, step);
    HandlerFacts(w, u);
    UploadFrame(cfg, w, step);
    if Quiet(step) {
      QuietUpload(cfg, w, step);
      QuietAccount(cfg, w, step);
      QuietReport(cfg, w, step);
    } else {
      TokenStepFacts(cfg, w, step);
    }
    MoveAccounts(w, u, Apply(cfg, w, step));
  }

  lemma QuietReport(cfg: Config, w: World, step: Step)
    requires UploadStep(step) && Quiet(step) && step.u < |w.uploads| && UploadOk(w.uploads[step.u])
    ensures w.uploads[step.u].hold.NoHold? ==>
              Apply(cfg, w, step).uploads[step.u].reported <= w.uploads[step.u].reported
  {
  }

  lemma TokenStepFacts(cfg: Config, w: World, step: Step)
    requires Inv(w) && LandOk(w) && AccountsOk(w) && UploadStep(step) && step.u < |w.uploads| && Returning(step)
    requires !Quiet(step)
    ensures var w' := Apply(cfg, w, step);
            && |w'.uploads| == |w.uploads| && Known(w', step.u) && AccountOk(w', step.u)
            && w'.uploads[step.u].reported == w.uploads[step.u].reported && CurrentMoves(w, w')
  {
    UploadFrame(cfg, w, step);
    match step
    case Publish(u) => PublishAccount(w, u);
    case Record(u) => RecordAccount(w, u);
    case DropHold(u) => DropHoldAccount(w, u);
    case _ =>
  }

  // ---- credits ----

  lemma {:induction false} SameCredit(a: seq<Upload>, b: seq<Upload>, s: SessionId, f: FileId)
    requires |a| == |b|
    requires forall i :: 0 <= i < |a| ==> SameSlot(a[i], b[i]) && a[i].reported == b[i].reported
    ensures SlotCredit(a, s, f) == SlotCredit(b, s, f)
  {
    if a != [] {
      SameCredit(a[..|a| - 1], b[..|b| - 1], s, f);
    }
  }

  lemma {:induction false} MovedCredit(a: seq<Upload>, u: nat, x: Upload, s: SessionId, f: FileId)
    requires u < |a| && SameSlot(a[u], x)
    ensures x.session == s && x.file == f ==>
              SlotCredit(a[u := x], s, f) == SlotCredit(a, s, f) - a[u].reported + x.reported &&
              a[u].reported <= SlotCredit(a, s, f)
    ensures !(x.session == s && x.file == f) ==> SlotCredit(a[u := x], s, f) == SlotCredit(a, s, f)
  {
    var k := |a| - 1;
    if u == k {
      assert a[u := x][..k] == a[..k];
    } else {
      assert a[u := x][..k] == a[..k][u := x];
      MovedCredit(a[..k], u, x, s, f);
    }
  }

  /** At most one upload of a slot has credit, and it is within the file. */
  lemma {:induction false} CreditBound(a: seq<Upload>, s: SessionId, f: FileId, limit: nat)
    requires forall i :: 0 <= i < |a| && a[i].session == s && a[i].file == f ==> a[i].reported <= limit
    requires forall i, j :: 0 <= i < j < |a| && SameSlot(a[i], a[j]) ==> a[i].reported == 0
    ensures SlotCredit(a, s, f) <= limit
    ensures |a| > 0 && a[|a| - 1].session == s && a[|a| - 1].file == f ==> SlotCredit(a[..|a| - 1], s, f) == 0
  {
    if a != [] {
      var k := |a| - 1;
      CreditBound(a[..k], s, f, limit);
      if a[k].session == s && a[k].file == f {
        NoCredit(a[..k], s, f);
      }
    }
  }

  lemma {:induction false} NoCredit(a: seq<Upload>, s: SessionId, f: FileId)
    requires forall i :: 0 <= i < |a| && a[i].session == s && a[i].file == f ==> a[i].reported == 0
    ensures SlotCredit(a, s, f) == 0
  {
    if a != [] {
      NoCredit(a[..|a| - 1], s, f);
    }
  }

  /** All other uploads of the slot are at zero: the credit is this upload's. */
  lemma CreditOfOnly(a: seq<Upload>, u: nat)
    requires u < |a|
    requires forall v :: 0 <= v < |a| && v != u && SameSlot(a[u], a[v]) ==> a[v].reported == 0
    ensures SlotCredit(a, a[u].session, a[u].file) == a[u].reported
  {
    var x := a[u].(reported := 0);
    MovedCredit(a, u, x, x.session, x.file);
    NoCredit(a[u := x], x.session, x.file);
  }

  // ---- counters ----

  lemma CreditsWithin(w: World, s: SessionId)
    requires Inv(w) && AccountsOk(w) && FitsOk(w) && s < |w.sessions|
    ensures SumOf(Credits(w, s)) <= SumOf(Sizes(w.sessions[s].files))
  {
    forall f | f in w.sessions[s].files
      ensures SlotCredit(w.uploads, s, f) <= w.sessions[s].files[f].size
    {
      forall i | 0 <= i < |w.uploads| && w.uploads[i].session == s && w.uploads[i].file == f
        ensures w.uploads[i].reported <= w.sessions[s].files[f].size
      {
        assert AccountOk(w, i) && FitOk(w, i);
      }
      CreditBound(w.uploads, s, f, w.sessions[s].files[f].size);
    }
    SumMonotone(Credits(w, s), Sizes(w.sessions[s].files));
  }

  predicate SameCounters(w: World, w': World) {
    && |w.sessions| <= |w'.sessions|
    && (forall s :: 0 <= s < |w.sessions| ==>
          w'.sessions[s].receivedBytes == w.sessions[s].receivedBytes && w'.sessions[s].files == w.sessions[s].files)
    && (forall s :: |w.sessions| <= s < |w'.sessions| ==> w'.sessions[s].receivedBytes == 0)
    && |w.uploads| <= |w'.uploads|
    && (forall u :: 0 <= u < |w.uploads| ==>
          SameSlot(w'.uploads[u], w.uploads[u]) && w'.uploads[u].reported == w.uploads[u].reported)
    && (forall u :: |w.uploads| <= u < |w'.uploads| ==> w'.uploads[u].reported == 0)
  }

  lemma {:induction false} GrownCredit(a: seq<Upload>, n: nat, s: SessionId, f: FileId)
    requires n <= |a| && forall u :: n <= u < |a| ==> a[u].reported == 0
    ensures SlotCredit(a, s, f) == SlotCredit(a[..n], s, f)
  {
    if n < |a| {
      assert a[..|a| - 1][..n] == a[..n];
      GrownCredit(a[..|a| - 1], n, s, f);
    } else {
      assert a[..n] == a;
    }
  }

  lemma KeptCredit(w: World, w': World, s: SessionId, f: FileId)
    requires SameCounters(w, w')
    ensures SlotCredit(w'.uploads, s, f) == SlotCredit(w.uploads, s, f)
  {
    GrownCredit(w'.uploads, |w.uploads|, s, f);
    SameCredit(w'.uploads[..|w.uploads|], w.uploads, s, f);
  }

  lemma NewSessionCredit(w: World, w': World, s: SessionId, f: FileId)
    requires WellFormed(w) && SameCounters(w, w') && s >= |w.sessions|
    ensures SlotCredit(w'.uploads, s, f) == 0
  {
    KeptCredit(w, w', s, f);
    forall u | 0 <= u < |w.uploads|
      ensures w.uploads[u].session != s
    {
      assert Known(w, u);
    }
    NoCredit(w.uploads, s, f);
  }

  lemma SameCountersOk(w: World, w': World)
    requires WellFormed(w) && WellFormed(w') && CountersOk(w) && SameCounters(w, w')
    ensures CountersOk(w')
  {
    forall s | 0 <= s < |w'.sessions|
      ensures w'.sessions[s].receivedBytes == SumOf(Credits(w', s))
    {
      if s < |w.sessions| {
        forall f | f in w'.sessions[s].files
          ensures SlotCredit(w'.uploads, s, f) == SlotCredit(w.uploads, s, f)
        {
          KeptCredit(w, w', s, f);
        }
        assert Credits(w', s) == Credits(w, s);
      } else {
        forall f | f in w'.sessions[s].files
          ensures SlotCredit(w'.uploads, s, f) == 0
        {
          NewSessionCredit(w, w', s, f);
        }
        SumZero(Credits(w', s));
      }
    }
  }

  lemma NewSessionCounters(w: World, p: nat, peer: Peer, offered: Files, timedOut: bool)
    ensures SameCounters(w, DoReserve(w, peer, offered, timedOut))
    ensures SameCounters(w, DoResolve(w, p))
  {
  }

  lemma PrepareCounters(cfg: Config, w: World, step: Step)
    requires PrepareStep(step)
    ensures SameCounters(w, Apply(cfg, w, step))
  {
    if step.Reserve? {
      NewSessionCounters(w, 0, step.peer, step.offered, step.timedOut);
    } else if step.Resolve? {
      NewSessionCounters(w, step.p, 0, map[], false);
    }
  }

  lemma ReleaseCounters(w: World, reserved: SessionId, peer: Peer)
    ensures SameCounters(w, DoRelease(w, reserved))
    ensures SameCounters(w, DoWithdrawOffer(w, peer))
  {
  }

  lemma ClaimCounters(w: World, s: SessionId, f: FileId, token: Token)
    ensures SameCounters(w, DoClaim(w, s, f, token))
  {
  }

  lemma CancelCounters(cfg: Config, w: World, step: Step)
    requires CancelStep(step)
    ensures SameCounters(w, Apply(cfg, w, step))
  {
    match step
    case Release(reserved) => ReleaseCounters(w, reserved, 0);
    case WithdrawOffer(peer) => ReleaseCounters(w, 0, peer);
    case _ =>
  }

  lemma PublishCounters(w: World, u: nat)
    ensures SameCounters(w, DoPublish(w, u))
  {
  }

  lemma RecordCounters(w: World, u: nat)
    ensures SameCounters(w, DoRecord(w, u))
  {
  }

  lemma DropHoldCounters(w: World, u: nat)
    ensures SameCounters(w, DoDropHold(w, u))
  {
  }

  /** A step other than a report or a rollback moves no counter. */
  lemma StillCounters(cfg: Config, w: World, step: Step)
    requires !step.Report? && !step.Rollback?
    ensures SameCounters(w, Apply(cfg, w, step))
  {
    if UploadStep(step) {
      UploadCounters(cfg, w, step);
    } else if PrepareStep(step) {
      PrepareCounters(cfg, w, step);
    } else if step.Claim? {
      ClaimCounters(w, step.session, step.file, step.token);
    } else {
      CancelCounters(cfg, w, step);
    }
  }

  lemma DropCounters(w: World, u: nat, renaming: bool)
    ensures SameCounters(w, DoDropUpload(w, u, renaming))
  {
  }

  lemma BodyCounters(cfg: Config, w: World, step: Step)
    requires UploadStep(step) && Quiet(step) && !step.Report? && !step.Rollback?
    ensures SameCounters(w, Apply(cfg, w, step))
  {
  }

  lemma UploadCounters(cfg: Config, w: World, step: Step)
    requires UploadStep(step) && !step.Report? && !step.Rollback?
    ensures SameCounters(w, Apply(cfg, w, step))
  {
    if Quiet(step) {
      BodyCounters(cfg, w, step);
    } else if step.DropUpload? {
      DropCounters(w, step.u, step.renaming);
    } else if step.DropHold? {
      DropHoldCounters(w, step.u);
    } else if step.Publish? {
      PublishCounters(w, step.u);
    } else {
      RecordCounters(w, step.u);
    }
  }

  /** The counter of the upload's session moved by what the upload's report moved. */
  lemma MovedCounter(w: World, u: nat, w': World)
    requires WellFormed(w) && CountersOk(w) && OnlyUpload(w, u, w') && u < |w.uploads|
    requires forall s :: 0 <= s < |w.sessions| ==> w'.sessions[s].files == w.sessions[s].files
    requires var s := w.uploads[u].session;
             && s < |w.sessions|
             && w'.sessions[s].receivedBytes ==
                  w.sessions[s].receivedBytes - w.uploads[u].reported + w'.uploads[u].reported
    ensures CountersOk(w')
  {
    var me := w.uploads[u];
    assert Known(w, u);
    assert w'.uploads == w.uploads[u := w'.uploads[u]];
    forall s | 0 <= s < |w'.sessions|
      ensures w'.sessions[s].receivedBytes == SumOf(Credits(w', s))
    {
      forall f | f in w.sessions[s].files
        ensures s == me.session && f == me.file ==>
                  SlotCredit(w'.uploads, s, f) == SlotCredit(w.uploads, s, f) - me.reported + w'.uploads[u].reported
        ensures !(s == me.session && f == me.file) ==> SlotCredit(w'.uploads, s, f) == SlotCredit(w.uploads, s, f)
      {
        MovedCredit(w.uploads, u, w'.uploads[u], s, f);
      }
      if s == me.session {
        assert Credits(w', s) == Credits(w, s)[me.file := SlotCredit(w'.uploads, s, me.file)];
        SumUpdate(Credits(w, s), me.file, SlotCredit(w'.uploads, s, me.file));
      } else {
        assert Credits(w', s) == Credits(w, s);
      }
    }
  }

  /** The world after a report into a counter without a clamp. */
  function Unbounded(w: World, u: nat): World
    requires u < |w.uploads| && w.uploads[u].session < |w.sessions| && w.uploads[u].reported <= |Body(w.uploads[u])|
  {
    var me, s := w.uploads[u], w.uploads[u].session;
    var gained := |Body(me)| - me.reported;
    w.(sessions := w.sessions[s := w.sessions[s].(receivedBytes := w.sessions[s].receivedBytes + gained)],
       uploads := w.uploads[u := me.(reported := |Body(me)|)])
  }

  lemma UnboundedCounts(w: World, u: nat)
    requires Inv(w) && CountersOk(w) && InPc(w, u, Streaming)
    ensures Known(w, u) && w.uploads[u].reported <= |Body(w.uploads[u])| && CountersOk(Unbounded(w, u))
  {
    HandlerFacts(w, u);
    MovedCounter(w, u, Unbounded(w, u));
  }

  lemma SameCreditsOf(w: World, w': World, s: SessionId)
    requires s < |w.sessions| == |w'.sessions| && w'.uploads == w.uploads && w'.sessions[s].files == w.sessions[s].files
    ensures Credits(w', s) == Credits(w, s)
  {
  }

  /** A report is the unbounded one, but for the clamp. */
  lemma ReportIsClamped(w: World, u: nat)
    requires Inv(w) && InPc(w, u, Streaming) && Known(w, u) && w.uploads[u].reported <= |Body(w.uploads[u])|
    ensures !Clamps(w, Report(u)) ==> DoReport(w, u) == Unbounded(w, u)
    ensures var s, w1 := w.uploads[u].session, Unbounded(w, u); var w' := DoReport(w, u);
            && |w'.sessions| == |w.sessions| && w'.uploads == w1.uploads
            && w'.sessions[s].files == w1.sessions[s].files == w.sessions[s].files
            && (Clamps(w, Report(u)) ==> w'.sessions[s].receivedBytes < w1.sessions[s].receivedBytes)
  {
  }

  /** A report keeps the sum exactly when it is not clamped. */
  lemma ReportCounts(w: World, u: nat)
    requires Inv(w) && CountersOk(w)
    ensures CountersOk(DoReport(w, u)) <==> !Clamps(w, Report(u))
  {
    if InPc(w, u, Streaming) {
      UnboundedCounts(w, u);
      ReportIsClamped(w, u);
      var s, w1, w' := w.uploads[u].session, Unbounded(w, u), DoReport(w, u);
      SameCreditsOf(w1, w', s);
      if Clamps(w, Report(u)) { assert w1.sessions[s].receivedBytes == SumOf(Credits(w1, s)); }
    }
  }

  lemma RollbackCounts(w: World, u: nat)
    requires Inv(w) && CountersOk(w)
    ensures CountersOk(DoRollback(w, u))
  {
    if u < |w.uploads| && w.uploads[u].pc.RollingBack? {
      HandlerFacts(w, u);
      var me := w.uploads[u];
      MovedCredit(w.uploads, u, me, me.session, me.file);
      SumRemove(Credits(w, me.session), me.file);
      assert me.reported <= w.sessions[me.session].receivedBytes;
      CounterFrame(w, u);
      MovedCounter(w, u, DoRollback(w, u));
    }
  }

  /** One step keeps every counter the sum of its credits, exactly when it is not clamped. */
  lemma StepKeepsCountersIff(cfg: Config, w: World, step: Step, w': World)
    requires Inv(w) && CountersOk(w) && w' == Apply(cfg, w, step)
    ensures CountersOk(w') <==> !Clamps(w, step)
  {
    match step
    case Report(u) => ReportCounts(w, u);
    case Rollback(u) => RollbackCounts(w, u);
    case _ => StillKeepsCounters(cfg, w, step, w');
  }

  lemma StillKeepsCounters(cfg: Config, w: World, step: Step, w': World)
    requires Inv(w) && CountersOk(w) && !step.Report? && !step.Rollback? && w' == Apply(cfg, w, step)
    ensures CountersOk(w')
  {
    StepKeepsInv(cfg, w, step);
    StillCounters(cfg, w, step);
    SameCountersOk(w, w');
  }

  // ---- runs ----

  ghost predicate ClampsAt(cfg: Config, steps: seq<Step>, n: nat)
    requires n < |steps|
  {
    Clamps(Run(cfg, steps[..n]), steps[n])
  }

  ghost predicate NeverClamps(cfg: Config, steps: seq<Step>) {
    forall n :: 0 <= n < |steps| ==> !ClampsAt(cfg, steps, n)
  }

  lemma NeverClampsBefore(cfg: Config, steps: seq<Step>, k: nat)
    requires k <= |steps| && NeverClamps(cfg, steps)
    ensures NeverClamps(cfg, steps[..k])
  {
    forall n | 0 <= n < k
      ensures !ClampsAt(cfg, steps[..k], n)
    {
      assert steps[..k][..n] == steps[..n];
      assert !ClampsAt(cfg, steps, n);
    }
  }

  lemma {:induction false} RunKeepsCounters(cfg: Config, steps: seq<Step>)
    requires NeverClamps(cfg, steps)
    ensures Inv(Run(cfg, steps)) && CountersOk(Run(cfg, steps))
  {
    RunKeepsInv(cfg, steps);
    if steps != [] {
      var k := |steps| - 1;
      NeverClampsBefore(cfg, steps, k);
      RunKeepsCounters(cfg, steps[..k]);
      assert !ClampsAt(cfg, steps, k);
      StepKeepsCountersIff(cfg, Run(cfg, steps[..k]), steps[k], Run(cfg, steps));
    }
  }

  predicate ReturningRun(steps: seq<Step>) {
    forall n :: 0 <= n < |steps| ==> Returning(steps[n])
  }

  lemma {:induction false} RunKeepsAccounts(cfg: Config, steps: seq<Step>)
    requires ReturningRun(steps)
    ensures var w := Run(cfg, steps); Inv(w) && LandOk(w) && AccountsOk(w)
  {
    RunKeepsLand(cfg, steps);
    if steps != [] {
      var k := |steps| - 1;
      RunKeepsAccounts(cfg, steps[..k]);
      StepKeepsAccounts(cfg, Run(cfg, steps[..k]), steps[k]);
    }
  }

  ghost predicate BoundedAt(cfg: Config, steps: seq<Step>, n: nat)
    requires n < |steps|
  {
    Bounded(Run(cfg, steps[..n]), steps[n])
  }

  ghost predicate BoundedRun(cfg: Config, steps: seq<Step>) {
    forall n :: 0 <= n < |steps| ==> BoundedAt(cfg, steps, n)
  }

  lemma BoundedBefore(cfg: Config, steps: seq<Step>, k: nat)
    requires k <= |steps| && BoundedRun(cfg, steps)
    ensures BoundedRun(cfg, steps[..k])
  {
    forall n | 0 <= n < k
      ensures BoundedAt(cfg, steps[..k], n)
    {
      assert steps[..k][..n] == steps[..n];
      assert BoundedAt(cfg, steps, n);
    }
  }

  lemma WriteKeepsFit(w: World, u: nat, chunk: Bytes)
    requires Inv(w) && FitsOk(w) && Bounded(w, WriteChunk(u, chunk))
    ensures Inv(DoWriteChunk(w, u, chunk)) && FitsOk(DoWriteChunk(w, u, chunk))
  {
    WriteChunkKeepsInv(w, u, chunk);
    var w' := DoWriteChunk(w, u, chunk);
    if w' != w { FlattenAppend(w.uploads[u].chunks, chunk); }
    forall v | 0 <= v < |w'.uploads|
      ensures FitOk(w', v)
    {
      HandlerFacts(w, v);
      assert FitOk(w, v);
    }
  }

  predicate SameBodies(w: World, w': World) {
    && |w.uploads| <= |w'.uploads|
    && forall v :: 0 <= v < |w.uploads| ==>
         SameSlot(w'.uploads[v], w.uploads[v]) && w'.uploads[v].chunks == w.uploads[v].chunks
  }

  lemma UploadBodies(cfg: Config, w: World, step: Step)
    requires UploadStep(step) && !step.WriteChunk?
    ensures SameBodies(w, Apply(cfg, w, step)) && |Apply(cfg, w, step).uploads| == |w.uploads|
  {
    UploadFrame(cfg, w, step);
  }

  lemma StepKeepsFit(cfg: Config, w: World, step: Step)
    requires Inv(w) && FitsOk(w) && Bounded(w, step)
    ensures Inv(Apply(cfg, w, step)) && FitsOk(Apply(cfg, w, step))
  {
    if step.WriteChunk? {
      WriteKeepsFit(w, step.u, step.chunk);
    } else {
      var w' := Apply(cfg, w, step);
      StepKeepsInv(cfg, w, step);
      StepPreserves(cfg, w, step);
      if UploadStep(step) {
        UploadBodies(cfg, w, step);
      } else if step.Claim? {
        ClaimedIsNew(w, step.session, step.file, step.token);
      } else {
        PrepareCurrentMoves(cfg, w, step);
      }
      SameBodiesFit(w, w', step);
    }
  }

  lemma SameBodiesFit(w: World, w': World, step: Step)
    requires Inv(w) && Inv(w') && FitsOk(w) && Bounded(w, step) && Preserves(w, w') && SameBodies(w, w')
    requires forall v :: |w.uploads| <= v < |w'.uploads| ==>
               w'.uploads[v].chunks == [] && step.Claim? && w'.uploads[v].session == step.session < |w.sessions|
    ensures FitsOk(w')
  {
    forall v | 0 <= v < |w'.uploads|
      ensures FitOk(w', v)
    {
      HandlerFacts(w', v);
      if v < |w.uploads| {
        HandlerFacts(w, v);
        assert FitOk(w, v);
      }
    }
  }

  lemma {:induction false} RunKeepsFit(cfg: Config, steps: seq<Step>)
    requires BoundedRun(cfg, steps)
    ensures Inv(Run(cfg, steps)) && FitsOk(Run(cfg, steps))
  {
    RunKeepsInv(cfg, steps);
    if steps != [] {
      var k := |steps| - 1;
      BoundedBefore(cfg, steps, k);
      RunKeepsFit(cfg, steps[..k]);
      assert BoundedAt(cfg, steps, k);
      StepKeepsFit(cfg, Run(cfg, steps[..k]), steps[k]);
    }
  }

  /** A report of a fitting body does not reach the clamp. */
  lemma ReportFits(w: World, u: nat)
    requires Inv(w) && LandOk(w) && AccountsOk(w) && FitsOk(w) && CountersOk(w)
    ensures !Clamps(w, Report(u))
  {
    if InPc(w, u, Streaming) {
      HandlerFacts(w, u);
      assert FitOk(w, u);
      UnboundedCounts(w, u);
      ReportIsClamped(w, u);
      var s, w1, w' := w.uploads[u].session, Unbounded(w, u), DoReport(w, u);
      StepKeepsAccounts(Config(_ => ""), w, Report(u));
      StepKeepsFit(Config(_ => ""), w, Report(u));
      CreditsWithin(w', s);
      SameCreditsOf(w1, w', s);
      assert w1.sessions[s].receivedBytes == SumOf(Credits(w1, s));
    }
  }

  // ---- theorems ----

  /** Some upload of the file landed on disk. */
  predicate Landed(w: World, s: SessionId, f: FileId) {
    exists u :: 0 <= u < |w.uploads| && w.uploads[u].session == s && w.uploads[u].file == f && w.uploads[u].landed
  }

  predicate AllGone(w: World, s: SessionId) {
    forall u :: 0 <= u < |w.uploads| && w.uploads[u].session == s ==> w.uploads[u].pc.Gone?
  }

  /** What the counter owes to a file that landed is all of it. */
  lemma LandedCredit(w: World, u: nat)
    requires Inv(w) && LandOk(w) && AccountsOk(w) && u < |w.uploads| && w.uploads[u].landed
    ensures SlotCredit(w.uploads, w.uploads[u].session, w.uploads[u].file) == MetaOf(w, u).size
  {
    assert AccountOk(w, u);
    var me := w.uploads[u];
    if me.reported == 0 {
      forall v | 0 <= v < |w.uploads| && SameSlot(me, w.uploads[v])
        ensures w.uploads[v].reported == 0
      {
        assert AccountOk(w, u) && AccountOk(w, v);
        assert u < v ==> InOrder(w.uploads[u], w.uploads[v]);
      }
      NoCredit(w.uploads, me.session, me.file);
    } else {
      forall v | 0 <= v < |w.uploads| && v != u && SameSlot(me, w.uploads[v])
        ensures w.uploads[v].reported == 0
      {
        assert SameSlot(w.uploads[v], w.uploads[u]) && SameSlot(w.uploads[u], w.uploads[v]);
      }
      CreditOfOnly(w.uploads, u);
    }
  }

  /** What it owes to a file an upload is at work on is what that upload reported. */
  lemma OwnerCredit(w: World, u: nat)
    requires Inv(w) && LandOk(w) && u < |w.uploads| && !w.uploads[u].hold.NoHold?
    requires AccountsOk(w)
    ensures SlotCredit(w.uploads, w.uploads[u].session, w.uploads[u].file) == w.uploads[u].reported
  {
    var me := w.uploads[u];
    assert Owns(w, u, me.session, me.file);
    forall v | 0 <= v < |w.uploads| && v != u && SameSlot(me, w.uploads[v])
      ensures w.uploads[v].reported == 0
    {
      assert v > u ==> InOrder(w.uploads[u], w.uploads[v]);
    }
    CreditOfOnly(w.uploads, u);
  }

  /** It owes nothing to a file that did not land once the uploads of the session are over. */
  lemma RestCredit(w: World, s: SessionId, f: FileId)
    requires Inv(w) && AccountsOk(w) && AllGone(w, s) && !Landed(w, s, f)
    ensures SlotCredit(w.uploads, s, f) == 0
  {
    forall u | 0 <= u < |w.uploads| && w.uploads[u].session == s && w.uploads[u].file == f
      ensures w.uploads[u].reported == 0
    {
      assert AccountOk(w, u);
    }
    NoCredit(w.uploads, s, f);
  }

  /** What the counter of session `s` is at rest: the sizes of the files that landed. */
  ghost function LandedSizes(w: World, s: SessionId): map<FileId, nat>
    requires s < |w.sessions|
  {
    map f | f in w.sessions[s].files :: if Landed(w, s, f) then w.sessions[s].files[f].size else 0
  }

  /**
   Through a whole run every counter is the sum of what its uploads put on it and did
   not take back, if and only if no report of the run was clamped at the declared
   total.  Bodies may overrun, futures may be dropped, totals may exceed 64 bits.
   */
  lemma CountersExactIffUnclamped(cfg: Config, steps: seq<Step>)
    ensures (forall n :: 0 <= n <= |steps| ==> CountersOk(Run(cfg, steps[..n]))) <==> NeverClamps(cfg, steps)
  {
    if NeverClamps(cfg, steps) {
      forall n | 0 <= n <= |steps|
        ensures CountersOk(Run(cfg, steps[..n]))
      {
        NeverClampsBefore(cfg, steps, n);
        RunKeepsCounters(cfg, steps[..n]);
      }
    } else {
      var n :| 0 <= n < |steps| && ClampsAt(cfg, steps, n);
      RunKeepsInv(cfg, steps[..n]);
      assert steps[..n + 1][..n] == steps[..n];
      if CountersOk(Run(cfg, steps[..n])) {
        StepKeepsCountersIff(cfg, Run(cfg, steps[..n]), steps[n], Run(cfg, steps[..n + 1]));
        assert !CountersOk(Run(cfg, steps[..n + 1]));
      }
    }
  }

  /** Handlers that return, bodies within their size and totals within 64 bits are enough for that. */
  lemma {:induction false} FittingRunsNeverClamp(cfg: Config, steps: seq<Step>)
    requires ReturningRun(steps) && BoundedRun(cfg, steps)
    ensures NeverClamps(cfg, steps)
  {
    forall n | 0 <= n < |steps|
      ensures !ClampsAt(cfg, steps, n)
    {
      BoundedBefore(cfg, steps, n);
      FittingRunsNeverClamp(cfg, steps[..n]);
      RunKeepsCounters(cfg, steps[..n]);
      RunKeepsAccounts(cfg, steps[..n]);
      RunKeepsFit(cfg, steps[..n]);
      if steps[n].Report? { ReportFits(Run(cfg, steps[..n]), steps[n].u); }
    }
  }

  /**
   In a run without a clamp the counter is the sum over the files of what landed or is
   being reported; if its handlers return, then once every one is gone it is the total
   of the files that landed.
   */
  lemma ProgressConserved(cfg: Config, steps: seq<Step>, w: World, s: SessionId)
    requires w == Run(cfg, steps)
    requires NeverClamps(cfg, steps) && s < |w.sessions|
    ensures w.sessions[s].receivedBytes == SumOf(Credits(w, s))
    ensures ReturningRun(steps) && AllGone(w, s) ==> w.sessions[s].receivedBytes == SumOf(LandedSizes(w, s))
  {
    RunKeepsCounters(cfg, steps);
    if ReturningRun(steps) && AllGone(w, s) {
      RunKeepsAccounts(cfg, steps);
      forall f | f in w.sessions[s].files
        ensures Credits(w, s)[f] == LandedSizes(w, s)[f]
      {
        if Landed(w, s, f) {
          var u :| 0 <= u < |w.uploads| && w.uploads[u].session == s && w.uploads[u].file == f && w.uploads[u].landed;
          LandedCredit(w, u);
        } else {
          RestCredit(w, s, f);
        }
      }
      assert Credits(w, s) == LandedSizes(w, s);
    }
  }

  /** Rolling one upload back takes its own bytes off the counter and leaves every other file's. */
  lemma RollbackTakesItsOwn(cfg: Config, steps: seq<Step>, w: World, u: nat)
    requires w == Run(cfg, steps)
    requires NeverClamps(cfg, steps)
    requires u < |w.uploads| && w.uploads[u].pc.RollingBack?
    ensures var me := w.uploads[u]; var w' := DoRollback(w, u);
            && me.session < |w.sessions| && |w'.sessions| == |w.sessions|
            && me.file in w.sessions[me.session].files && w'.sessions[me.session].files == w.sessions[me.session].files
            && me.pc.amount == me.reported <= w.sessions[me.session].receivedBytes
            && w'.sessions[me.session].receivedBytes == w.sessions[me.session].receivedBytes - me.reported
            && forall g :: g in w.sessions[me.session].files && g != me.file ==>
                 Credits(w', me.session)[g] == Credits(w, me.session)[g]
  {
    RunKeepsCounters(cfg, steps);
    HandlerFacts(w, u);
    var me := w.uploads[u];
    var w' := DoRollback(w, u);
    MovedCredit(w.uploads, u, me, me.session, me.file);
    SumRemove(Credits(w, me.session), me.file);
    forall g | g in w.sessions[me.session].files && g != me.file
      ensures SlotCredit(w'.uploads, me.session, g) == SlotCredit(w.uploads, me.session, g)
    {
      MovedCredit(w.uploads, u, w'.uploads[u], me.session, g);
    }
  }

  // ---- with no hypothesis ----

  ghost predicate CountersInRange(w: World) {
    forall s :: 0 <= s < |w.sessions| ==> w.sessions[s].receivedBytes <= TotalBytes(w.sessions[s].files)
  }

  lemma StepKeepsRange(cfg: Config, w: World, step: Step)
    requires CountersInRange(w)
    ensures CountersInRange(Apply(cfg, w, step))
  {
    if step.Report? || step.Rollback? {
      ReportKeepsRange(w, step.u);
    } else {
      StillCounters(cfg, w, step);
      SameRange(w, Apply(cfg, w, step));
    }
  }

  lemma ReportKeepsRange(w: World, u: nat)
    requires CountersInRange(w)
    ensures CountersInRange(DoReport(w, u)) && CountersInRange(DoRollback(w, u))
  {
  }

  lemma SameRange(w: World, w': World)
    requires CountersInRange(w) && SameCounters(w, w')
    ensures CountersInRange(w')
  {
  }

  /** In every run whatever, no counter ever exceeds the declared total of its session. */
  lemma {:induction false} ProgressWithinTotal(cfg: Config, steps: seq<Step>)
    ensures CountersInRange(Run(cfg, steps))
  {
    if steps != [] {
      ProgressWithinTotal(cfg, steps[..|steps| - 1]);
      StepKeepsRange(cfg, Run(cfg, steps[..|steps| - 1]), steps[|steps| - 1]);
    }
  }

  /**
   Reporting a body and rolling it back restores the counter if and only if the
   report was not clamped at the total (or there was nothing to lose).
   */
  lemma RollbackRestoresIffUnclamped(w: World, u: nat)
    requires InPc(w, u, Streaming) && Known(w, u) && w.uploads[u].reported == 0
    requires w.sessions[w.uploads[u].session].receivedBytes <= TotalBytes(w.sessions[w.uploads[u].session].files)
    ensures var s := w.uploads[u].session; var w' := DoRollback(DoFailBody(DoReport(w, u), u), u);
            && |w'.sessions| == |w.sessions|
            && (w'.sessions[s].receivedBytes == w.sessions[s].receivedBytes <==>
                  || w.sessions[s].receivedBytes == 0
                  || w.sessions[s].receivedBytes + |Body(w.uploads[u])| <= TotalBytes(w.sessions[s].files))
  {
  }
}
