/**
 One call of `load_or_generate_tls_certificate` as the code runs it, and the run of
 module Identity it amounts to (src/crypto/tls.rs:105-308).
 */
module IdentityFiles {
  import opened Options
  import opened Identity

  predicate LeadsTo(start: World, steps: seq<Step>, w: World) {
    Run(start, steps) == w
  }

  /** The run leads to this world. */
  ghost predicate Reaches(start: World, steps: seq<Step>, w: World) {
    forall v :: LeadsTo(start, steps, v) ==> v == w
  }

  lemma ReachedWorld(start: World, steps: seq<Step>, w: World)
    requires Reaches(start, steps, w)
    ensures Run(start, steps) == w
  {
    assert LeadsTo(start, steps, Run(start, steps));
  }

  lemma Calls(start: World)
    requires start.calls == []
    ensures Reaches(start, [Call], start.(calls := [FastCert]))
  {
    assert [Call][..0] == [];
    assert Run(start, []) == start;
  }

  /** The only call of the run makes one more step. */
  lemma Next(start: World, steps: seq<Step>, w: World, fault: bool) returns (longer: seq<Step>, w': World)
    requires Reaches(start, steps, w) && |w.calls| == 1
    ensures Reaches(start, longer, w') && w' == DoAdvance(w, 0, fault)
  {
    ReachedWorld(start, steps, w);
    longer, w' := steps + [Advance(0, fault)], DoAdvance(w, 0, fault);
    assert longer[..|steps|] == steps;
  }

  /** The two files of an identity directory; on a healthy disk no call fails. */
  class IdentityFiles {
    const healthy: bool
    var cert: Blob
    var key: Blob
    var nextGeneration: nat

    /** What is on disk was generated before anything still to come. */
    predicate Valid()
      reads this
    {
      && (cert.Half? ==> cert.generation < nextGeneration)
      && (key.Half? ==> key.generation < nextGeneration)
    }

    function Alone(pc: Option<Pc>, locked: bool): World
      reads this
    {
      World(cert, key, if locked then Some(0) else None, nextGeneration, if pc.None? then [] else [pc.value])
    }

    constructor (cert: Blob, key: Blob, nextGeneration: nat, healthy: bool)
      requires cert.Half? ==> cert.generation < nextGeneration
      requires key.Half? ==> key.generation < nextGeneration
      ensures this.cert == cert && this.key == key && this.nextGeneration == nextGeneration && Valid()
    {
      this.cert := cert;
      this.key := key;
      this.nextGeneration := nextGeneration;
      this.healthy := healthy;
    }

    method Fault() returns (fault: bool)
      ensures healthy ==> !fault
    {
      fault := *;
      if healthy { fault := false; }
    }

    /** `load_valid_identity`: the fast path, without the lock. */
    method LoadValidIdentity(ghost start: World, ghost before: seq<Step>)
      returns (result: Option<nat>, ghost steps: seq<Step>)
      requires Reaches(start, before, Alone(Some(FastCert), false))
      ensures Reaches(start, steps, Alone(Some(if result.Some? then Returned(result) else Locking), false))
      ensures result.Some? ==> Matching(cert, key) && result.value == cert.generation
      ensures healthy && Matching(cert, key) ==> result.Some?
    {
      ghost var w := Alone(Some(FastCert), false);
      var fault := Fault();
      var first := Read(cert, fault);
      steps, w := Next(start, before, w, fault);
      if !first.Content? {
        return None, steps;
      }
      fault := Fault();
      var second := Read(key, fault);
      steps, w := Next(start, steps, w, fault);
      result := if second.Content? && Matching(first.blob, second.blob) then Some(first.blob.generation) else None;
    }

    /** The two renames; a key that does not go through takes the certificate back. */
    method Publish(g: nat, ghost start: World, ghost before: seq<Step>) returns (ok: bool, ghost steps: seq<Step>)
      requires Reaches(start, before, Alone(Some(PublishCert(g)), true))
      modifies this`cert, this`key
      ensures ok ==> cert == Half(g) == key
      ensures Reaches(start, steps, if ok then Alone(Some(BackCert(g)), true) else Alone(Some(Returned(None)), false))
      ensures healthy ==> ok
    {
      ghost var w := Alone(Some(PublishCert(g)), true);
      var fault := Fault();
      steps, w := Next(start, before, w, fault);
      if fault {
        return false, steps;
      }
      cert := Half(g);
      fault := Fault();
      steps, w := Next(start, steps, w, fault);
      if fault {
        fault := Fault();
        steps, w := Next(start, steps, w, fault);
        if !fault {
          cert := Missing;
        }
        return false, steps;
      }
      key := Half(g);
      return true, steps;
    }

    /** A read-back that fails falls back on what was generated. */
    method ReadBack(g: nat, ghost start: World, ghost before: seq<Step>)
      returns (result: Option<nat>, ghost steps: seq<Step>)
      requires Reaches(start, before, Alone(Some(BackCert(g)), true)) && cert == Half(g) == key
      ensures Reaches(start, steps, Alone(Some(Returned(result)), false))
      ensures result == Some(g)
    {
      ghost var w := Alone(Some(BackCert(g)), true);
      var fault := Fault();
      var first := Read(cert, fault);
      steps, w := Next(start, before, w, fault);
      fault := Fault();
      var second := Read(key, fault);
      steps, w := Next(start, steps, w, fault);
      if first.Content? && second.Content? {
        result := if Matching(first.blob, second.blob) then Some(first.blob.generation) else None;
      } else {
        result := Some(g);
      }
    }

    /** Both halves are generated and staged before either is published. */
    method StageBoth(ghost start: World, ghost before: seq<Step>) returns (staged: Option<nat>, ghost steps: seq<Step>)
      requires Reaches(start, before, Alone(Some(Generate), true))
      modifies this`nextGeneration
      ensures staged.Some? ==> staged.value == old(nextGeneration)
      ensures Reaches(start, steps, if staged.Some? then Alone(Some(PublishCert(staged.value)), true)
                                    else Alone(Some(Returned(None)), false))
      ensures healthy ==> staged.Some?
    {
      ghost var w := Alone(Some(Generate), true);
      var fault := Fault();
      steps, w := Next(start, before, w, fault);
      if fault {
        return None, steps;
      }
      var g := nextGeneration;
      nextGeneration := nextGeneration + 1;
      fault := Fault();
      steps, w := Next(start, steps, w, fault);
      if fault {
        return None, steps;
      }
      fault := Fault();
      steps, w := Next(start, steps, w, fault);
      staged := if fault then None else Some(g);
    }

    /** `write_new_identity`, under the lock. */
    method WriteNewIdentity(ghost start: World, ghost before: seq<Step>)
      returns (result: Option<nat>, ghost steps: seq<Step>)
      requires Reaches(start, before, Alone(Some(Generate), true))
      modifies this`cert, this`key, this`nextGeneration
      ensures Reaches(start, steps, Alone(Some(Returned(result)), false))
      ensures result.Some? ==> result.value == old(nextGeneration) && cert == Half(result.value) == key
      ensures healthy ==> result.Some?
    {
      var staged;
      staged, steps := StageBoth(start, before);
      if staged.None? {
        return None, steps;
      }
      var ok;
      ok, steps := Publish(staged.value, start, steps);
      if !ok {
        return None, steps;
      }
      result, steps := ReadBack(staged.value, start, steps);
    }

    /** The locked read of both files: usable, to be replaced, or an error. */
    method ReadLocked(ghost start: World, ghost before: seq<Step>)
      returns (usable: Option<nat>, replace: bool, ghost steps: seq<Step>)
      requires Reaches(start, before, Alone(Some(ReadCert), true))
      ensures Reaches(start, steps,
                      if replace then Alone(Some(Generate), true) else Alone(Some(Returned(usable)), false))
      ensures usable.Some? ==> Matching(cert, key) && usable.value == cert.generation
      ensures replace ==> usable.None? && !Matching(cert, key) && (cert.Missing? <==> key.Missing?)
      ensures healthy ==>
                && (Matching(cert, key) ==> usable.Some?)
                && (usable.Some? || replace <==> (cert.Missing? <==> key.Missing?))
    {
      ghost var w := Alone(Some(ReadCert), true);
      var fault := Fault();
      var first := Read(cert, fault);
      steps, w := Next(start, before, w, fault);
      fault := Fault();
      var second := Read(key, fault);
      steps, w := Next(start, steps, w, fault);
      usable := None;
      if first.Content? && second.Content? && Matching(first.blob, second.blob) {
        usable := Some(first.blob.generation);
      }
      replace := usable.None? &&
                 ((first.Content? && second.Content?) || (first.NotFound? && second.NotFound?));
    }

    /**
     The call is a run of the protocol in which it is the only caller, and so keeps what
     every run keeps.  What it returns is the pair on disk: the old one if that was usable,
     else a new one.  On a healthy disk it fails for an incomplete pair and for nothing else.
     */
    method LoadOrGenerate() returns (result: Option<nat>, ghost steps: seq<Step>)
      requires Valid()
      modifies this`cert, this`key, this`nextGeneration
      ensures Reaches(old(Alone(None, false)), steps, Alone(Some(Returned(result)), false))
      ensures result.Some? ==> cert == Half(result.value) == key
      ensures result.Some? ==>
                if old(Matching(cert, key)) then Half(result.value) == old(cert)
                else result.value == old(nextGeneration)
      ensures old(Matching(cert, key)) || old(cert.Missing? != key.Missing?) ==> cert == old(cert) && key == old(key)
      ensures old(cert.Missing? != key.Missing?) ==> result.None?
      ensures healthy ==> (result.Some? <==> (old(cert).Missing? <==> old(key).Missing?))
    {
      ghost var start := Alone(None, false);
      Calls(start);
      assert start.(calls := [FastCert]) == Alone(Some(FastCert), false);
      result, steps := LoadValidIdentity(start, [Call]);
      if result.Some? {
        return;
      }
      ghost var w := Alone(Some(Locking), false);
      var fault := Fault();
      steps, w := Next(start, steps, w, fault);
      if fault {
        return;
      }
      assert w == Alone(Some(ReadCert), true);
      var replace;
      result, replace, steps := ReadLocked(start, steps);
      if replace {
        result, steps := WriteNewIdentity(start, steps);
      }
    }
  }
}
