/**
 The persisted TLS identity shared by several processes: an optimistic unlocked
 read, a locked re-read, and two separate renames, with a crash or an I/O failure
 possible at every file operation (src/crypto/tls.rs:99-308, 375-386).
 */
module Identity {
  import opened Options

  /** What one of the two files holds; halves match iff they were generated together. */
  datatype Blob = Missing | Junk(n: nat) | Half(generation: nat)

  predicate Matching(cert: Blob, key: Blob) {
    cert.Half? && cert == key
  }

  datatype Reading = Content(blob: Blob) | NotFound | Failed

  function Read(file: Blob, fault: bool): Reading {
    if fault then Failed else if file.Missing? then NotFound else Content(file)
  }

  /** One call of `load_or_generate_tls_certificate`. */
  datatype Pc =
    | FastCert
    | FastKey(cert: Blob)
    | Locking
    | ReadCert
    | ReadKey(reading: Reading)
    | Generate
    | StageCert(generation: nat)
    | StageKey(generation: nat)
    | PublishCert(generation: nat)
    | PublishKey(generation: nat)
    | UndoCert(generation: nat)
    | BackCert(generation: nat)
    | BackKey(generation: nat, reading: Reading)
    | Returned(result: Option<nat>)
    | Crashed

  datatype World = World(cert: Blob, key: Blob, lock: Option<nat>, nextGeneration: nat, calls: seq<Pc>)

  datatype Step = Call | Advance(p: nat, fault: bool) | Crash(p: nat)

  predicate Locked(pc: Pc) {
    !pc.FastCert? && !pc.FastKey? && !pc.Locking? && !pc.Returned? && !pc.Crashed?
  }

  function Goto(w: World, p: nat, pc: Pc): World
    requires p < |w.calls|
  {
    w.(calls := w.calls[p := pc])
  }

  /** Returning, or dying, gives the lock up. */
  function Leave(w: World, p: nat, pc: Pc): World
    requires p < |w.calls|
  {
    Goto(w, p, pc).(lock := if Locked(w.calls[p]) then None else w.lock)
  }

  function Return(w: World, p: nat, result: Option<nat>): World
    requires p < |w.calls|
  {
    Leave(w, p, Returned(result))
  }

  function DoAdvance(w: World, p: nat, fault: bool): World
    requires p < |w.calls|
  {
    match w.calls[p]
    case FastCert =>
      var r := Read(w.cert, fault);
      Goto(w, p, if r.Content? then FastKey(r.blob) else Locking)
    case FastKey(cert) =>
      var r := Read(w.key, fault);
      if r.Content? && Matching(cert, r.blob) then Return(w, p, Some(cert.generation)) else Goto(w, p, Locking)
    case Locking =>
      if fault then Return(w, p, None)
      else if w.lock.Some? then w
      else Goto(w, p, ReadCert).(lock := Some(p))
    case ReadCert => Goto(w, p, ReadKey(Read(w.cert, fault)))
    case ReadKey(cert) =>
      var key := Read(w.key, fault);
      if cert.Content? && key.Content? then
        if Matching(cert.blob, key.blob) then Return(w, p, Some(cert.blob.generation)) else Goto(w, p, Generate)
      else if cert.NotFound? && key.NotFound? then Goto(w, p, Generate)
      else Return(w, p, None)
    case Generate =>
      if fault then Return(w, p, None)
      else Goto(w, p, StageCert(w.nextGeneration)).(nextGeneration := w.nextGeneration + 1)
    case StageCert(g) => if fault then Return(w, p, None) else Goto(w, p, StageKey(g))
    case StageKey(g) => if fault then Return(w, p, None) else Goto(w, p, PublishCert(g))
    case PublishCert(g) => if fault then Return(w, p, None) else Goto(w, p, PublishKey(g)).(cert := Half(g))
    case PublishKey(g) => if fault then Goto(w, p, UndoCert(g)) else Goto(w, p, BackCert(g)).(key := Half(g))
    case UndoCert(g) => if fault then Return(w, p, None) else Return(w, p, None).(cert := Missing)
    case BackCert(g) => Goto(w, p, BackKey(g, Read(w.cert, fault)))
    case BackKey(g, cert) =>
      var key := Read(w.key, fault);
      if cert.Content? && key.Content? then
        Return(w, p, if Matching(cert.blob, key.blob) then Some(cert.blob.generation) else None)
      else Return(w, p, Some(g))
    case Returned(_) => w
    case Crashed => w
  }

  function Apply(w: World, step: Step): World {
    match step
    case Call => w.(calls := w.calls + [FastCert])
    case Advance(p, fault) => if p < |w.calls| then DoAdvance(w, p, fault) else w
    case Crash(p) => if p < |w.calls| && !w.calls[p].Returned? then Leave(w, p, Crashed) else w
  }

  /** Any two files, whose generations are older than any generated later. */
  predicate Start(w: World) {
    && w.calls == [] && w.lock.None?
    && (w.cert.Half? ==> w.cert.generation < w.nextGeneration)
    && (w.key.Half? ==> w.key.generation < w.nextGeneration)
  }

  function Run(start: World, steps: seq<Step>): World {
    if steps == [] then start else Apply(Run(start, steps[..|steps| - 1]), steps[|steps| - 1])
  }

  // ---- invariant ----

  predicate Consistent(w: World) {
    Matching(w.cert, w.key)
  }

  predicate Agrees(reading: Reading, file: Blob) {
    match reading
    case Content(blob) => blob == file && !file.Missing?
    case NotFound => file.Missing?
    case Failed => true
  }

  /** What a call knows at each point; whoever is about to write knows the pair on disk is unusable. */
  predicate CallOk(w: World, pc: Pc) {
    match pc
    case FastKey(cert) => cert.Half? ==> cert.generation < w.nextGeneration && (w.key == cert ==> w.cert == cert)
    case ReadKey(cert) => Agrees(cert, w.cert)
    case Generate => !Consistent(w)
    case StageCert(g) => !Consistent(w) && g < w.nextGeneration && w.cert != Half(g) && w.key != Half(g)
    case StageKey(g) => !Consistent(w) && g < w.nextGeneration && w.cert != Half(g) && w.key != Half(g)
    case PublishCert(g) => !Consistent(w) && g < w.nextGeneration && w.cert != Half(g) && w.key != Half(g)
    case PublishKey(g) => g < w.nextGeneration && w.cert == Half(g) && w.key != Half(g)
    case UndoCert(g) => g < w.nextGeneration && w.cert == Half(g) && w.key != Half(g)
    case BackCert(g) => w.cert == Half(g) == w.key
    case BackKey(g, cert) => w.cert == Half(g) == w.key && Agrees(cert, w.cert)
    case Returned(result) => result.Some? ==> w.cert == Half(result.value) == w.key
    case _ => true
  }

  predicate Inv(w: World) {
    && (w.cert.Half? ==> w.cert.generation < w.nextGeneration)
    && (w.key.Half? ==> w.key.generation < w.nextGeneration)
    && (forall p :: 0 <= p < |w.calls| ==> CallOk(w, w.calls[p]))
    && (forall p :: 0 <= p < |w.calls| && Locked(w.calls[p]) ==> w.lock == Some(p))
  }

  /** Everybody else keeps what it knows when one call moves. */
  lemma MoveKeepsInv(w: World, p: nat, w': World)
    requires Inv(w) && p < |w.calls| == |w'.calls| && w'.calls == w.calls[p := w'.calls[p]]
    requires w'.nextGeneration >= w.nextGeneration
    requires CallOk(w', w'.calls[p])
    requires Locked(w'.calls[p]) ==> w'.lock == Some(p)
    requires w'.lock == w.lock || (w.lock.None? && w'.lock == Some(p)) || (w.lock == Some(p) && w'.lock.None?)
    requires (w'.cert == w.cert && w'.key == w.key) || (Locked(w.calls[p]) && !Consistent(w))
    requires w'.cert.Half? ==> w'.cert.generation < w'.nextGeneration
    requires w'.key.Half? ==> w'.key.generation < w'.nextGeneration
    requires w'.key != w.key ==> w'.key == w'.cert
    ensures Inv(w')
  {
    forall q | 0 <= q < |w'.calls|
      ensures CallOk(w', w'.calls[q]) && (Locked(w'.calls[q]) ==> w'.lock == Some(q))
    {
      if q != p {
        assert CallOk(w, w.calls[q]) && (Locked(w.calls[q]) ==> w.lock == Some(q));
        assert Locked(w.calls[p]) ==> w.lock == Some(p);
      }
    }
  }

  lemma ReadingKeepsInv(w: World, p: nat, fault: bool)
    requires Inv(w) && p < |w.calls|
    requires var pc := w.calls[p]; pc.FastCert? || pc.FastKey? || pc.ReadCert? || pc.ReadKey?
    ensures Inv(DoAdvance(w, p, fault))
  {
    assert CallOk(w, w.calls[p]) && (Locked(w.calls[p]) ==> w.lock == Some(p));
    MoveKeepsInv(w, p, DoAdvance(w, p, fault));
  }

  lemma StagingKeepsInv(w: World, p: nat, fault: bool)
    requires Inv(w) && p < |w.calls|
    requires var pc := w.calls[p]; pc.Locking? || pc.Generate? || pc.StageCert? || pc.StageKey?
    ensures Inv(DoAdvance(w, p, fault))
  {
    assert CallOk(w, w.calls[p]) && (Locked(w.calls[p]) ==> w.lock == Some(p));
    if DoAdvance(w, p, fault) != w { MoveKeepsInv(w, p, DoAdvance(w, p, fault)); }
  }

  lemma PublishingKeepsInv(w: World, p: nat, fault: bool)
    requires Inv(w) && p < |w.calls|
    requires var pc := w.calls[p]; pc.PublishCert? || pc.PublishKey? || pc.UndoCert? || pc.BackCert? || pc.BackKey?
    ensures Inv(DoAdvance(w, p, fault))
  {
    assert CallOk(w, w.calls[p]) && (Locked(w.calls[p]) ==> w.lock == Some(p));
    MoveKeepsInv(w, p, DoAdvance(w, p, fault));
  }

  lemma StepKeepsInv(w: World, step: Step)
    requires Inv(w)
    ensures Inv(Apply(w, step))
  {
    match step
    case Call =>
    case Advance(p, fault) =>
      if p < |w.calls| {
        match w.calls[p]
        case FastCert | ReadCert | FastKey(_) | ReadKey(_) => ReadingKeepsInv(w, p, fault);
        case Locking | Generate | StageCert(_) | StageKey(_) => StagingKeepsInv(w, p, fault);
        case Returned(_) | Crashed =>
        case _ => PublishingKeepsInv(w, p, fault);
      }
    case Crash(p) =>
      if p < |w.calls| && !w.calls[p].Returned? {
        assert Locked(w.calls[p]) ==> w.lock == Some(p);
        MoveKeepsInv(w, p, Apply(w, step));
      }
  }

  lemma {:induction false} RunKeepsInv(start: World, steps: seq<Step>)
    requires Start(start)
    ensures Inv(Run(start, steps))
  {
    if steps != [] {
      RunKeepsInv(start, steps[..|steps| - 1]);
      StepKeepsInv(Run(start, steps[..|steps| - 1]), steps[|steps| - 1]);
    }
  }

  // ---- theorems ----

  /** A usable pair on disk is never overwritten or removed. */
  lemma UsablePairIsKept(start: World, steps: seq<Step>, step: Step)
    requires Start(start) && Consistent(Run(start, steps))
    ensures var w, w' := Run(start, steps), Apply(Run(start, steps), step);
            w'.cert == w.cert && w'.key == w.key
  {
    RunKeepsInv(start, steps);
    var w := Run(start, steps);
    if step.Advance? && step.p < |w.calls| {
      assert CallOk(w, w.calls[step.p]);
    }
  }

  lemma {:induction false} UsablePairStays(start: World, steps: seq<Step>, n: nat)
    requires Start(start) && n <= |steps| && Consistent(Run(start, steps[..n]))
    ensures Run(start, steps).cert == Run(start, steps[..n]).cert && Run(start, steps).key == Run(start, steps[..n]).key
  {
    if n == |steps| {
      assert steps[..n] == steps;
    } else {
      var k := |steps| - 1;
      assert steps[..k][..n] == steps[..n];
      UsablePairStays(start, steps[..k], n);
      UsablePairIsKept(start, steps[..k], steps[k]);
    }
  }

  /**
   All loads agree: whatever interleaving, crashes and I/O failures, every call that
   returns Ok returns a pair generated together, the same pair for all calls of the
   run, and it is the pair on disk; a pair that was usable at the start is that pair.
   */
  lemma AllLoadsAgree(start: World, steps: seq<Step>, p: nat, q: nat, g: nat, h: nat)
    requires Start(start)
    requires p < |Run(start, steps).calls| && Run(start, steps).calls[p] == Returned(Some(g))
    requires q < |Run(start, steps).calls| && Run(start, steps).calls[q] == Returned(Some(h))
    ensures g == h && Run(start, steps).cert == Half(g) && Run(start, steps).key == Half(g)
    ensures Consistent(start) ==> start.cert == Half(g)
  {
    RunKeepsInv(start, steps);
    var w := Run(start, steps);
    assert CallOk(w, w.calls[p]) && CallOk(w, w.calls[q]);
    if Consistent(start) {
      assert steps[..0] == [];
      UsablePairStays(start, steps, 0);
    }
  }

  /** The read-back after a publication never sees a foreign half: its error exit is unreachable. */
  lemma ReadBackMatches(start: World, steps: seq<Step>, p: nat, fault: bool)
    requires Start(start)
    requires p < |Run(start, steps).calls| && Run(start, steps).calls[p].BackKey?
    ensures var w := Run(start, steps); DoAdvance(w, p, fault).calls[p] == Returned(Some(w.calls[p].generation))
  {
    RunKeepsInv(start, steps);
    assert CallOk(Run(start, steps), Run(start, steps).calls[p]);
  }

  /** At most one call is inside the locked section. */
  lemma LockedSectionIsExclusive(start: World, steps: seq<Step>, p: nat, q: nat)
    requires Start(start)
    requires p < |Run(start, steps).calls| && Locked(Run(start, steps).calls[p])
    requires q < |Run(start, steps).calls| && Locked(Run(start, steps).calls[q])
    ensures p == q
  {
    RunKeepsInv(start, steps);
    var w := Run(start, steps);
    assert Some(p) == w.lock == Some(q);
  }

  // ---- incomplete pairs ----

  predicate Incomplete(w: World) {
    w.cert.Missing? != w.key.Missing?
  }

  /** Past the decision to write a new pair. */
  predicate Writing(pc: Pc) {
    Locked(pc) && !pc.ReadCert? && !pc.ReadKey?
  }

  /** Whoever has not published anything yet found the pair whole, or nothing at all. */
  predicate WholeUntilPublished(w: World) {
    forall p :: 0 <= p < |w.calls| && Unpublished(w.calls[p]) ==> !Incomplete(w)
  }

  predicate Unpublished(pc: Pc) {
    pc.Generate? || pc.StageCert? || pc.StageKey? || pc.PublishCert?
  }

  /** Half a pair, and nobody at work who could complete it. */
  predicate Broken(w: World) {
    Incomplete(w) && forall p :: 0 <= p < |w.calls| ==> !Writing(w.calls[p])
  }

  /**
   The steps that leave half a pair: taking the certificate back from beside an old key,
   failing to take it back from beside no key, and dying between the two renames.
   */
  predicate Breaks(w: World, step: Step) {
    match step
    case Call => false
    case Advance(p, fault) => p < |w.calls| && w.calls[p].UndoCert? && (fault <==> w.key.Missing?)
    case Crash(p) => p < |w.calls| && (w.calls[p].PublishKey? || w.calls[p].UndoCert?) && w.key.Missing?
  }

  lemma AdvanceKeepsWhole(w: World, p: nat, fault: bool)
    requires Inv(w) && WholeUntilPublished(w) && p < |w.calls|
    ensures WholeUntilPublished(DoAdvance(w, p, fault))
  {
    assert CallOk(w, w.calls[p]) && (Locked(w.calls[p]) ==> w.lock == Some(p));
    var w' := DoAdvance(w, p, fault);
    forall q | 0 <= q < |w'.calls| && Unpublished(w'.calls[q])
      ensures !Incomplete(w')
    {
      assert q != p ==> w'.calls[q] == w.calls[q] && (Locked(w.calls[q]) ==> w.lock == Some(q));
    }
  }

  lemma StepKeepsWhole(w: World, step: Step)
    requires Inv(w) && WholeUntilPublished(w)
    ensures WholeUntilPublished(Apply(w, step))
  {
    match step
    case Call =>
    case Advance(p, fault) => if p < |w.calls| { AdvanceKeepsWhole(w, p, fault); }
    case Crash(_) =>
  }

  lemma {:induction false} RunKeepsWhole(start: World, steps: seq<Step>)
    requires Start(start)
    ensures Inv(Run(start, steps)) && WholeUntilPublished(Run(start, steps))
  {
    RunKeepsInv(start, steps);
    if steps != [] {
      RunKeepsWhole(start, steps[..|steps| - 1]);
      StepKeepsWhole(Run(start, steps[..|steps| - 1]), steps[|steps| - 1]);
    }
  }

  /** Half a pair stays as it is. */
  lemma BrokenStays(w: World, step: Step)
    requires Inv(w) && Broken(w)
    ensures var w' := Apply(w, step); Broken(w') && w'.cert == w.cert && w'.key == w.key
  {
    if step.Advance? && step.p < |w.calls| { BrokenAdvances(w, step.p, step.fault); }
  }

  lemma BrokenAdvances(w: World, p: nat, fault: bool)
    requires Inv(w) && Broken(w) && p < |w.calls|
    ensures var w' := DoAdvance(w, p, fault); Broken(w') && w'.cert == w.cert && w'.key == w.key
  {
    assert CallOk(w, w.calls[p]) && !Writing(w.calls[p]);
  }

  /** The one call that writes is the one that holds the lock. */
  lemma OthersDoNotWrite(w: World, p: nat)
    requires Inv(w) && p < |w.calls| && Locked(w.calls[p])
    ensures forall q :: 0 <= q < |w.calls| && q != p ==> !Locked(w.calls[q])
  {
    assert w.lock == Some(p);
  }

  lemma AdvanceBreaks(w: World, p: nat, fault: bool)
    requires Inv(w) && WholeUntilPublished(w) && !Broken(w) && p < |w.calls|
    ensures Broken(DoAdvance(w, p, fault)) <==> Breaks(w, Advance(p, fault))
  {
    assert CallOk(w, w.calls[p]);
    var w' := DoAdvance(w, p, fault);
    if Locked(w.calls[p]) {
      OthersDoNotWrite(w, p);
      assert Incomplete(w) ==> Writing(w.calls[p]);
      forall q | 0 <= q < |w'.calls| && q != p
        ensures !Writing(w'.calls[q])
      {
        assert w'.calls[q] == w.calls[q];
      }
      assert Broken(w') <==> Incomplete(w') && !Writing(w'.calls[p]);
    } else {
      assert w'.cert == w.cert && w'.key == w.key;
      if Incomplete(w) {
        var q :| 0 <= q < |w.calls| && Writing(w.calls[q]);
        assert Writing(w'.calls[q]);
      }
    }
  }

  lemma CrashBreaks(w: World, p: nat)
    requires Inv(w) && WholeUntilPublished(w) && !Broken(w)
    ensures Broken(Apply(w, Crash(p))) <==> Breaks(w, Crash(p))
  {
    var w' := Apply(w, Crash(p));
    if p < |w.calls| && Locked(w.calls[p]) {
      OthersDoNotWrite(w, p);
      assert CallOk(w, w.calls[p]);
    } else if Incomplete(w) {
      var q :| 0 <= q < |w.calls| && Writing(w.calls[q]);
      assert Writing(w'.calls[q]);
    }
  }

  /** One step breaks a pair exactly when it is one of those. */
  lemma StepBreaksIff(w: World, step: Step)
    requires Inv(w) && WholeUntilPublished(w) && !Broken(w)
    ensures Broken(Apply(w, step)) <==> Breaks(w, step)
  {
    match step
    case Call =>
      if Incomplete(w) {
        var q :| 0 <= q < |w.calls| && Writing(w.calls[q]);
        assert Writing(Apply(w, step).calls[q]);
      }
    case Advance(p, fault) => if p < |w.calls| { AdvanceBreaks(w, p, fault); }
    case Crash(p) => CrashBreaks(w, p);
  }

  predicate BreaksAt(start: World, steps: seq<Step>, n: nat)
    requires n < |steps|
  {
    Breaks(Run(start, steps[..n]), steps[n])
  }

  /**
   A pair of which one file is missing is never repaired and never destroyed: from the
   point on at which nobody is at work on it the files stay, nobody gets as far as
   writing, and every call of the run that returns, returns an error.
   */
  lemma {:induction false} IncompletePairStays(start: World, steps: seq<Step>, n: nat)
    requires Start(start) && n <= |steps| && Broken(Run(start, steps[..n]))
    ensures var w0, w := Run(start, steps[..n]), Run(start, steps);
            && w.cert == w0.cert && w.key == w0.key && Broken(w)
            && forall p :: 0 <= p < |w.calls| && w.calls[p].Returned? ==> w.calls[p].result.None?
  {
    RunKeepsInv(start, steps);
    if n == |steps| {
      assert steps[..n] == steps;
    } else {
      var k := |steps| - 1;
      assert steps[..k][..n] == steps[..n];
      IncompletePairStays(start, steps[..k], n);
      RunKeepsInv(start, steps[..k]);
      BrokenStays(Run(start, steps[..k]), steps[k]);
    }
    forall p | 0 <= p < |Run(start, steps).calls| && Run(start, steps).calls[p].Returned?
      ensures Run(start, steps).calls[p].result.None?
    {
      assert CallOk(Run(start, steps), Run(start, steps).calls[p]);
    }
  }

  ghost predicate EverBreaks(start: World, steps: seq<Step>) {
    exists n :: 0 <= n < |steps| && BreaksAt(start, steps, n)
  }

  lemma BreaksSnoc(start: World, steps: seq<Step>)
    requires steps != []
    ensures var k := |steps| - 1;
            EverBreaks(start, steps) <==> EverBreaks(start, steps[..k]) || Breaks(Run(start, steps[..k]), steps[k])
  {
    var k := |steps| - 1;
    assert BreaksAt(start, steps, k) <==> Breaks(Run(start, steps[..k]), steps[k]);
    forall n | 0 <= n < k
      ensures BreaksAt(start, steps, n) <==> BreaksAt(start, steps[..k], n)
    {
      assert steps[..k][..n] == steps[..n];
    }
  }

  /** Half a pair is left by a run if and only if it was there at the start or one of those steps was taken. */
  lemma {:induction false} HalfPairIff(start: World, steps: seq<Step>, w: World)
    requires Start(start) && w == Run(start, steps)
    ensures Broken(w) <==> Incomplete(start) || EverBreaks(start, steps)
  {
    if steps == [] {
      assert w.calls == [];
    } else {
      var k := |steps| - 1;
      var w0 := Run(start, steps[..k]);
      HalfPairIff(start, steps[..k], w0);
      RunKeepsWhole(start, steps[..k]);
      BreaksSnoc(start, steps);
      if Broken(w0) { BrokenStays(w0, steps[k]); } else { StepBreaksIff(w0, steps[k]); }
    }
  }

  lemma RunSnoc(start: World, steps: seq<Step>, step: Step)
    ensures Run(start, steps + [step]) == Apply(Run(start, steps), step)
  {
    assert (steps + [step])[..|steps|] == steps;
  }

  /** The only call of a run goes on. */
  lemma Alone(start: World, steps: seq<Step>, w: World, fault: bool) returns (longer: seq<Step>, w': World)
    requires Run(start, steps) == w && |w.calls| == 1
    ensures Run(start, longer) == w' == DoAdvance(w, 0, fault) && |w'.calls| == 1
  {
    RunSnoc(start, steps, Advance(0, fault));
    longer, w' := steps + [Advance(0, fault)], DoAdvance(w, 0, fault);
  }

  lemma OneCall(start: World)
    requires Start(start)
    ensures Run(start, [Call]) == start.(calls := [FastCert])
  {
    RunSnoc(start, [], Call);
    assert [] + [Call] == [Call];
    assert Run(start, []) == start && start.calls + [FastCert] == [FastCert];
  }

  lemma Damaged(start: World) returns (steps: seq<Step>)
    requires Start(start) && !start.cert.Missing? && !start.key.Missing? && !Consistent(start)
    ensures Run(start, steps) == start.(calls := [Generate], lock := Some(0))
  {
    OneCall(start);
    steps := [Call];
    var w := start.(calls := [FastCert]);
    steps, w := Alone(start, steps, w, false);
    steps, w := Alone(start, steps, w, false);
    assert w == start.(calls := [Locking]);
    steps := Reread(start, steps, w);
  }

  lemma Reread(start: World, before: seq<Step>, w0: World) returns (steps: seq<Step>)
    requires Run(start, before) == w0 && w0.calls == [Locking] && w0.lock.None?
    requires !w0.cert.Missing? && !w0.key.Missing? && !Consistent(w0)
    ensures Run(start, steps) == w0.(calls := [Generate], lock := Some(0))
  {
    var w := w0;
    steps, w := Alone(start, before, w, false);
    steps, w := Alone(start, steps, w, false);
    assert w == w0.(calls := [ReadKey(Content(w0.cert))], lock := Some(0));
    steps, w := Alone(start, steps, w, false);
  }

  lemma Replaced(start: World, before: seq<Step>, w0: World) returns (steps: seq<Step>)
    requires Run(start, before) == w0 && w0.calls == [Generate]
    ensures var g := w0.nextGeneration;
            Run(start, steps) == w0.(calls := [PublishKey(g)], nextGeneration := g + 1, cert := Half(g))
  {
    var w, g := w0, w0.nextGeneration;
    steps, w := Alone(start, before, w, false);
    steps, w := Alone(start, steps, w, false);
    assert w == w0.(calls := [StageKey(g)], nextGeneration := g + 1);
    steps, w := Alone(start, steps, w, false);
    steps, w := Alone(start, steps, w, false);
  }

  /**
   A pair that does not match is there to be replaced.  If the rename of the new key
   then fails, taking the new certificate back leaves the old key beside no certificate.
   */
  lemma UndoLeavesHalfAPair(start: World) returns (steps: seq<Step>)
    requires Start(start) && !start.cert.Missing? && !start.key.Missing? && !Consistent(start)
    ensures var w := Run(start, steps);
            w.calls == [Returned(None)] && w.cert.Missing? && w.key == start.key && Broken(w)
  {
    steps := Damaged(start);
    var w := start.(calls := [Generate], lock := Some(0));
    steps := Replaced(start, steps, w);
    w := Run(start, steps);
    steps, w := Alone(start, steps, w, true);
    steps, w := Alone(start, steps, w, false);
  }
}
