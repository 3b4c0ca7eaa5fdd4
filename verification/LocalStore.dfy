/** `LocalTrustedStore.write` as one imperative call, specified by `Write` and shown to be a run of the protocol. */
module LocalStore {
  import opened Prelude
  import opened Dsse
  import opened Hashing
  import opened StoreProtocol
  import TrustedStore
  import JsonText
  import Canonical
  import opened Json
  import Signing
  import Statement

  /**
   What the environment contributes to one call: the random part of the temporary name, what re-hashing and copying
   the quarantined files meet, the exception, if any, raised by the step at a program point, whether clean-up is
   unable to delete, and the entry that a subject which is no digest happens to resolve to.
   */
  datatype World = World(
    nonce: string, live: Tree, files: seq<string>, copied: Tree, fault: Pc -> Option<PyError>, stuck: bool,
    foreign: Option<Tree>)

  // ---- what one call does --------------------------------------------------

  /** `os.path.exists(complete)`. */
  predicate SeesMarker(h: Digests, w: Writer, disk: Disk, o: World, pc: Pc) {
    o.fault(pc).None? && if h.spells(w.bare) then Complete(disk, KeyDir(w.bare)) else o.foreign.Some?
  }

  function TreeAtKey(h: Digests, w: Writer, disk: Disk, o: World): Tree {
    if h.spells(w.bare) then StoredTree(disk, KeyDir(w.bare))
    else match o.foreign case Some(t) => t case None => []
  }

  /** `_assert_stored_matches`, and the return that follows it. */
  function Match(h: Digests, w: Writer, disk: Disk, o: World, late: bool): Outcome {
    match o.fault(MatchingTree(late))
    case Some(e) => Broke(e)
    case None =>
      match h.whole(TreeAtKey(h, w, disk, o))
      case Raised(e) => Broke(e)
      case Ok(stored) =>
        if !h.matches(stored, w.bare) then Refused
        else match o.fault(MatchingBytes(late))
          case Some(e) => if e.OSError? then Refused else Broke(e)
          case None =>
            var key := KeyDir(w.bare);
            if h.spells(w.bare) && key in disk && disk[key].att == Some(w.att) then Returned(true) else Refused
  }

  /** The tree at the key hashes to the subject, and the attestation beside it is this call's, byte for byte. */
  predicate Holds(h: Digests, w: Writer, disk: Disk, o: World) {
    var stored, key := h.whole(TreeAtKey(h, w, disk, o)), KeyDir(w.bare);
    && stored.Ok? && h.matches(stored.value, w.bare)
    && h.spells(w.bare) && key in disk && disk[key].att == Some(w.att)
  }

  /** Neither read of `_assert_stored_matches` fails. */
  predicate ReadsWell(o: World, late: bool) { o.fault(MatchingTree(late)).None? && o.fault(MatchingBytes(late)).None? }

  /** The rename would find its target free. */
  predicate Free(w: Writer, disk: Disk) { KeyDir(w.bare) !in disk || Empty(disk[KeyDir(w.bare)]) }

  /** `_stage`: nothing on success, and the disk either way. */
  function StageEffect(h: Digests, w: Writer, disk: Disk, o: World): (Option<Outcome>, Disk) {
    var p := TmpDir(w.bare, w.nonce);
    var made := Dir(w.nonce, None, None, None, false);
    var copied := made.(artifact := Some(o.copied));
    if o.fault(MakingTmp).Some? then (Some(Broke(o.fault(MakingTmp).value)), disk)
    else if o.fault(MakingArtifact).Some? then (Some(Broke(o.fault(MakingArtifact).value)), disk[p := made])
    else if o.fault(Copying).Some? then (Some(Broke(o.fault(Copying).value)), disk[p := copied])
    else if o.fault(CheckingCopy).Some? then (Some(Broke(o.fault(CheckingCopy).value)), disk[p := copied])
    else match h.whole(o.copied)
      case Raised(e) => (Some(Broke(e)), disk[p := copied])
      case Ok(staged) =>
        if !h.matches(staged, w.bare) then (Some(Refused), disk[p := copied])
        else StageBlobs(w, disk, o, copied)
  }

  /** The attestation, the receipt and, last, the marker. */
  function StageBlobs(w: Writer, disk: Disk, o: World, copied: Dir): (Option<Outcome>, Disk) {
    var p := TmpDir(w.bare, w.nonce);
    var attested := copied.(att := Some(w.att));
    if o.fault(CreatingAtt).Some? then (Some(Broke(o.fault(CreatingAtt).value)), disk[p := copied])
    else if o.fault(FillingAtt).Some?
    then (Some(Broke(o.fault(FillingAtt).value)), disk[p := copied.(att := Some([]))])
    else if w.receipt.Raised? then (Some(Broke(w.receipt.error)), disk[p := attested])
    else if o.fault(CreatingReceipt).Some? then (Some(Broke(o.fault(CreatingReceipt).value)), disk[p := attested])
    else if o.fault(FillingReceipt).Some?
    then (Some(Broke(o.fault(FillingReceipt).value)), disk[p := attested.(receipt := Some([]))])
    else
      var full := attested.(receipt := Some(w.receipt.value));
      if o.fault(Marking).Some? then (Some(Broke(o.fault(Marking).value)), disk[p := full])
      else (None, disk[p := full.(complete := true)])
  }

  /** The rename, and what follows when it fails. */
  function CommitEffect(h: Digests, w: Writer, disk: Disk, o: World): (Outcome, Disk)
    requires TmpDir(w.bare, w.nonce) in disk
  {
    var p, key := TmpDir(w.bare, w.nonce), KeyDir(w.bare);
    var failed := o.fault(Renaming);
    if failed.Some? && !failed.value.OSError? then (Broke(failed.value), disk)
    else if failed.None? && (key !in disk || Empty(disk[key])) then (Returned(false), (disk - {p})[key := disk[p]])
    else if SeesMarker(h, w, disk, o, LookingAgain) then (Match(h, w, disk, o, true), disk)
    else (Refused, disk)
  }

  /** `rmtree(tmp, ignore_errors=True)`. */
  function CleanUp(w: Writer, disk: Disk, o: World): Disk {
    if o.stuck then disk else disk - {TmpDir(w.bare, w.nonce)}
  }

  /** `write`, from the marker check on. */
  function WriteEffect(h: Digests, w: Writer, disk: Disk, o: World): (Outcome, Disk) {
    if SeesMarker(h, w, disk, o, Looking) then (Match(h, w, disk, o, false), disk)
    else if o.fault(Rehashing).Some? then (Broke(o.fault(Rehashing).value), disk)
    else match h.listed(o.live, o.files)
      case Raised(e) => (Broke(e), disk)
      case Ok(live) =>
        if !h.matches(live, w.bare) then (Refused, disk)
        else if o.fault(MakingShard).Some? then (Broke(o.fault(MakingShard).value), disk)
        else
          var (stopped, staged) := StageEffect(h, w, disk, o);
          match stopped
          case Some(outcome) => (outcome, CleanUp(w, staged, o))
          case None =>
            var (outcome, after) := CommitEffect(h, w, staged, o);
            (outcome, CleanUp(w, after, o))
  }

  /** How an outcome reaches the caller. */
  function Reported(o: Outcome, bare: string): Result<(string, bool)> {
    match o
    case Returned(already) => Ok((Uri(bare), already))
    case Refused => Raised(PromotionError)
    case Broke(e) => Raised(e)
  }

  function CallOf(env: Envelope, bare: string, receipt: Result<Bytes>, nonce: string): Writer {
    Writer(env, bare, EnvelopeBytes(env), receipt, nonce, Looking, false)
  }

  class LocalTrustedStore {
    const h: Digests
    var disk: Disk

    constructor (h: Digests)
      ensures this.h == h && disk == map[]
    {
      this.h := h;
      disk := map[];
    }

    method Write(env: Envelope, receipt: Result<Bytes>, o: World) returns (r: Result<(string, bool)>)
      modifies `disk
      ensures match SubjectOf(env)
        case Raised(e) => r == Raised(e) && disk == old(disk)
        case Ok(bare) =>
          var (outcome, after) := WriteEffect(h, CallOf(env, bare, receipt, o.nonce), old(disk), o);
          r == Reported(outcome, bare) && disk == after
    {
      var subject := SubjectOf(env);
      if subject.Raised? {
        return Raised(subject.error);
      }
      var bare := subject.value;
      var w := CallOf(env, bare, receipt, o.nonce);
      if SeesMarker(h, w, disk, o, Looking) {
        var outcome := AssertStoredMatches(w, o, false);
        return Reported(outcome, bare);
      }
      if o.fault(Rehashing).Some? {
        return Raised(o.fault(Rehashing).value);
      }
      var live := h.listed(o.live, o.files);
      if live.Raised? {
        return Raised(live.error);
      }
      if !h.matches(live.value, bare) {
        return Raised(PromotionError);
      }
      if o.fault(MakingShard).Some? {
        return Raised(o.fault(MakingShard).value);
      }
      var stopped := StageTree(w, o);
      var outcome;
      if stopped.Some? {
        outcome := stopped.value;
      } else {
        outcome := Replace(w, o);
      }
      if !o.stuck {
        disk := disk - {TmpDir(bare, o.nonce)};
      }
      return Reported(outcome, bare);
    }

    method AssertStoredMatches(w: Writer, o: World, late: bool) returns (outcome: Outcome)
      ensures outcome == Match(h, w, disk, o, late)
      ensures outcome == Returned(true) <==> ReadsWell(o, late) && Holds(h, w, disk, o)
      ensures outcome != Returned(false)
      ensures ReadsWell(o, late) && outcome != Returned(true) ==>
        match h.whole(TreeAtKey(h, w, disk, o)) case Raised(e) => outcome == Broke(e) case Ok(_) => outcome == Refused
      ensures match o.fault(MatchingTree(late))
        case Some(e) => outcome == Broke(e)
        case None =>
          match h.whole(TreeAtKey(h, w, disk, o))
          case Raised(e) => outcome == Broke(e)
          case Ok(stored) =>
            && (!h.matches(stored, w.bare) ==> outcome == Refused)
            && (h.matches(stored, w.bare) && o.fault(MatchingBytes(late)).Some? ==>
                  var e := o.fault(MatchingBytes(late)).value; outcome == if e.OSError? then Refused else Broke(e))
    {
      if o.fault(MatchingTree(late)).Some? {
        return Broke(o.fault(MatchingTree(late)).value);
      }
      var stored := h.whole(TreeAtKey(h, w, disk, o));
      if stored.Raised? {
        return Broke(stored.error);
      }
      if !h.matches(stored.value, w.bare) {
        return Refused;
      }
      if o.fault(MatchingBytes(late)).Some? {
        var e := o.fault(MatchingBytes(late)).value;
        return if e.OSError? then Refused else Broke(e);
      }
      var key := KeyDir(w.bare);
      if h.spells(w.bare) && key in disk && disk[key].att == Some(w.att) {
        return Returned(true);
      }
      return Refused;
    }

    method StageTree(w: Writer, o: World) returns (stopped: Option<Outcome>)
      modifies `disk
      ensures (stopped, disk) == StageEffect(h, w, old(disk), o)
      ensures stopped.None? ==> TmpDir(w.bare, w.nonce) in disk
    {
      var p := TmpDir(w.bare, w.nonce);
      if o.fault(MakingTmp).Some? {
        return Some(Broke(o.fault(MakingTmp).value));
      }
      disk := disk[p := Dir(w.nonce, None, None, None, false)];
      if o.fault(MakingArtifact).Some? {
        return Some(Broke(o.fault(MakingArtifact).value));
      }
      disk := disk[p := disk[p].(artifact := Some([]))];
      disk := disk[p := disk[p].(artifact := Some(o.copied))];
      ghost var copied := Dir(w.nonce, Some(o.copied), None, None, false);
      assert disk == old(disk)[p := copied];
      if o.fault(Copying).Some? {
        return Some(Broke(o.fault(Copying).value));
      }
      if o.fault(CheckingCopy).Some? {
        return Some(Broke(o.fault(CheckingCopy).value));
      }
      var staged := h.whole(StoredTree(disk, p));
      if staged.Raised? {
        return Some(Broke(staged.error));
      }
      if !h.matches(staged.value, w.bare) {
        return Some(Refused);
      }
      stopped := WriteBlobs(w, o, old(disk), copied);
    }

    /** The three `_write_blob` calls; each opens its file, then fills it. */
    method WriteBlobs(w: Writer, o: World, ghost was: Disk, ghost copied: Dir) returns (stopped: Option<Outcome>)
      requires disk == was[TmpDir(w.bare, w.nonce) := copied]
      modifies `disk
      ensures (stopped, disk) == StageBlobs(w, was, o, copied)
      ensures TmpDir(w.bare, w.nonce) in disk
    {
      var p := TmpDir(w.bare, w.nonce);
      if o.fault(CreatingAtt).Some? {
        return Some(Broke(o.fault(CreatingAtt).value));
      }
      disk := disk[p := disk[p].(att := Some([]))];
      assert disk == was[p := copied.(att := Some([]))];
      if o.fault(FillingAtt).Some? {
        return Some(Broke(o.fault(FillingAtt).value));
      }
      disk := disk[p := disk[p].(att := Some(w.att))];
      ghost var attested := copied.(att := Some(w.att));
      assert disk == was[p := attested];
      if w.receipt.Raised? {
        return Some(Broke(w.receipt.error));
      }
      if o.fault(CreatingReceipt).Some? {
        return Some(Broke(o.fault(CreatingReceipt).value));
      }
      disk := disk[p := disk[p].(receipt := Some([]))];
      assert disk == was[p := attested.(receipt := Some([]))];
      if o.fault(FillingReceipt).Some? {
        return Some(Broke(o.fault(FillingReceipt).value));
      }
      disk := disk[p := disk[p].(receipt := Some(w.receipt.value))];
      assert disk == was[p := attested.(receipt := Some(w.receipt.value))];
      if o.fault(Marking).Some? {
        return Some(Broke(o.fault(Marking).value));
      }
      disk := disk[p := disk[p].(complete := true)];
      assert disk == was[p := attested.(receipt := Some(w.receipt.value)).(complete := true)];
      return None;
    }

    /** `os.replace`, with its handler. */
    method Replace(w: Writer, o: World) returns (outcome: Outcome)
      requires TmpDir(w.bare, w.nonce) in disk
      modifies `disk
      ensures (outcome, disk) == CommitEffect(h, w, old(disk), o)
      ensures outcome == Returned(false) <==> o.fault(Renaming).None? && Free(w, old(disk))
      ensures outcome == Returned(true) <==>
        && (match o.fault(Renaming) case Some(e) => e.OSError? case None => !Free(w, old(disk)))
        && SeesMarker(h, w, old(disk), o, LookingAgain) && ReadsWell(o, true) && Holds(h, w, old(disk), o)
      ensures disk == if outcome != Returned(false) then old(disk)
                      else (old(disk) - {TmpDir(w.bare, w.nonce)})[KeyDir(w.bare) := old(disk)[TmpDir(w.bare, w.nonce)]]
    {
      var p, key := TmpDir(w.bare, w.nonce), KeyDir(w.bare);
      var failed := o.fault(Renaming);
      if failed.Some? && !failed.value.OSError? {
        return Broke(failed.value);
      }
      if failed.None? && (key !in disk || Empty(disk[key])) {
        disk := (disk - {p})[key := disk[p]];
        return Returned(false);
      }
      if SeesMarker(h, w, disk, o, LookingAgain) {
        outcome := AssertStoredMatches(w, o, true);
        return outcome;
      }
      return Refused;
    }
  }

  // ---- a call is a run of the protocol --------------------------------------

  ghost predicate Reaches(h: Digests, s: State, t: State) {
    exists log :: Run(h, s, log) == Some(t)
  }

  /** `s` with the call `n` standing at `pc` over `disk`. */
  function Mid(s: State, n: string, pc: Pc, disk: Disk): State
    requires n in s.writers
  {
    State(disk, s.writers[n := s.writers[n].(pc := pc)])
  }

  lemma Extend(h: Digests, s: State, t: State, e: Event)
    requires Reaches(h, s, t) && Apply(h, t, e).Some?
    ensures Reaches(h, s, Apply(h, t, e).value)
  {
    var log :| Run(h, s, log) == Some(t);
    assert (log + [e])[..|log|] == log;
    assert Run(h, s, log + [e]) == Apply(h, t, e);
  }

  lemma Onward(h: Digests, s0: State, s: State, n: string, pc: Pc, disk: Disk, a: Action, pc2: Pc, disk2: Disk)
    requires n in s.writers && Reaches(h, s0, Mid(s, n, pc, disk))
    requires Step(h, s.writers[n].(pc := pc), disk, a) == Some(Local(s.writers[n].(pc := pc2), disk2))
    ensures Reaches(h, s0, Mid(s, n, pc2, disk2))
  {
    var t := Mid(s, n, pc, disk);
    Extend(h, s0, t, Do(n, a));
    assert t.writers[n := s.writers[n].(pc := pc2)] == s.writers[n := s.writers[n].(pc := pc2)];
    assert Apply(h, t, Do(n, a)) == Some(Mid(s, n, pc2, disk2));
  }

  /** A step that raises goes to clean-up with the disk as it is. */
  lemma Stopped(h: Digests, s0: State, s: State, n: string, pc: Pc, disk: Disk, e: PyError)
    requires n in s.writers && Reaches(h, s0, Mid(s, n, pc, disk))
    requires pc.MakingTmp? || (InTmp(pc) && (pc.Renaming? ==> !e.OSError?))
    ensures Reaches(h, s0, Mid(s, n, CleaningUp(Broke(e)), disk))
  {
    Onward(h, s0, s, n, pc, disk, Fault(e), CleaningUp(Broke(e)), disk);
  }

  /** Where `_stage` leaves the call. */
  function Staging(stopped: Option<Outcome>): Pc {
    match stopped case None => Renaming case Some(outcome) => CleaningUp(outcome)
  }

  lemma StageIsRun(h: Digests, s0: State, s: State, n: string, o: World)
    requires n in s.writers && s.writers[n].nonce == n && Reaches(h, s0, Mid(s, n, MakingTmp, s.disk))
    requires TmpDir(s.writers[n].bare, n) !in s.disk && WellFormed(o.copied)
    ensures var (stopped, after) := StageEffect(h, s.writers[n], s.disk, o);
      Reaches(h, s0, Mid(s, n, Staging(stopped), after))
  {
    var w := s.writers[n];
    var p := TmpDir(w.bare, n);
    var made := Dir(n, None, None, None, false);
    var copied := made.(artifact := Some(o.copied));
    if o.fault(MakingTmp).Some? {
      Stopped(h, s0, s, n, MakingTmp, s.disk, o.fault(MakingTmp).value);
    } else {
      Onward(h, s0, s, n, MakingTmp, s.disk, Go, MakingArtifact, s.disk[p := made]);
      if o.fault(MakingArtifact).Some? {
        Stopped(h, s0, s, n, MakingArtifact, s.disk[p := made], o.fault(MakingArtifact).value);
      } else {
        CopyReached(h, s0, s, n, o, made);
        CheckIsRun(h, s0, s, n, o, copied);
      }
    }
  }

  lemma CopyReached(h: Digests, s0: State, s: State, n: string, o: World, made: Dir)
    requires n in s.writers && s.writers[n].nonce == n && WellFormed(o.copied)
    requires Reaches(h, s0, Mid(s, n, MakingArtifact, s.disk[TmpDir(s.writers[n].bare, n) := made]))
    ensures Reaches(h, s0, Mid(s, n, Copying, s.disk[TmpDir(s.writers[n].bare, n) := made.(artifact := Some(o.copied))]))
  {
    var p := TmpDir(s.writers[n].bare, n);
    var begun, copied := made.(artifact := Some([])), made.(artifact := Some(o.copied));
    assert s.disk[p := made][p := begun] == s.disk[p := begun];
    Onward(h, s0, s, n, MakingArtifact, s.disk[p := made], Go, Copying, s.disk[p := begun]);
    assert s.disk[p := begun][p := copied] == s.disk[p := copied];
    Onward(h, s0, s, n, Copying, s.disk[p := begun], Copy(o.copied), Copying, s.disk[p := copied]);
  }

  lemma CheckIsRun(h: Digests, s0: State, s: State, n: string, o: World, copied: Dir)
    requires n in s.writers && s.writers[n].nonce == n && copied == Dir(n, Some(o.copied), None, None, false)
    requires o.fault(MakingTmp).None? && o.fault(MakingArtifact).None?
    requires Reaches(h, s0, Mid(s, n, Copying, s.disk[TmpDir(s.writers[n].bare, n) := copied]))
    ensures var (stopped, after) := StageEffect(h, s.writers[n], s.disk, o);
      Reaches(h, s0, Mid(s, n, Staging(stopped), after))
  {
    var w := s.writers[n];
    var disk := s.disk[TmpDir(w.bare, n) := copied];
    if o.fault(Copying).Some? {
      Stopped(h, s0, s, n, Copying, disk, o.fault(Copying).value);
    } else {
      Onward(h, s0, s, n, Copying, disk, Go, CheckingCopy, disk);
      if o.fault(CheckingCopy).Some? {
        Stopped(h, s0, s, n, CheckingCopy, disk, o.fault(CheckingCopy).value);
      } else {
        var staged := h.whole(o.copied);
        var pc := match staged
          case Raised(e) => CleaningUp(Broke(e))
          case Ok(d) => if h.matches(d, w.bare) then CreatingAtt else CleaningUp(Refused);
        Onward(h, s0, s, n, CheckingCopy, disk, Go, pc, disk);
        if pc.CreatingAtt? { AttIsRun(h, s0, s, n, o, copied); }
      }
    }
  }

  lemma AttIsRun(h: Digests, s0: State, s: State, n: string, o: World, copied: Dir)
    requires n in s.writers && s.writers[n].nonce == n && copied == Dir(n, Some(o.copied), None, None, false)
    requires Reaches(h, s0, Mid(s, n, CreatingAtt, s.disk[TmpDir(s.writers[n].bare, n) := copied]))
    ensures var (stopped, after) := StageBlobs(s.writers[n], s.disk, o, copied);
      Reaches(h, s0, Mid(s, n, Staging(stopped), after))
  {
    var w := s.writers[n];
    var p := TmpDir(w.bare, n);
    var opened1, attested := copied.(att := Some([])), copied.(att := Some(w.att));
    if o.fault(CreatingAtt).Some? {
      Stopped(h, s0, s, n, CreatingAtt, s.disk[p := copied], o.fault(CreatingAtt).value);
    } else {
      assert s.disk[p := copied][p := opened1] == s.disk[p := opened1];
      Onward(h, s0, s, n, CreatingAtt, s.disk[p := copied], Go, FillingAtt, s.disk[p := opened1]);
      if o.fault(FillingAtt).Some? {
        Stopped(h, s0, s, n, FillingAtt, s.disk[p := opened1], o.fault(FillingAtt).value);
      } else {
        assert s.disk[p := opened1][p := attested] == s.disk[p := attested];
        Onward(h, s0, s, n, FillingAtt, s.disk[p := opened1], Go, CreatingReceipt, s.disk[p := attested]);
        ReceiptIsRun(h, s0, s, n, o, copied, attested);
      }
    }
  }

  lemma ReceiptIsRun(h: Digests, s0: State, s: State, n: string, o: World, copied: Dir, attested: Dir)
    requires n in s.writers && s.writers[n].nonce == n && copied == Dir(n, Some(o.copied), None, None, false)
    requires attested == copied.(att := Some(s.writers[n].att)) && o.fault(CreatingAtt).None? && o.fault(FillingAtt).None?
    requires Reaches(h, s0, Mid(s, n, CreatingReceipt, s.disk[TmpDir(s.writers[n].bare, n) := attested]))
    ensures var (stopped, after) := StageBlobs(s.writers[n], s.disk, o, copied);
      Reaches(h, s0, Mid(s, n, Staging(stopped), after))
  {
    var w := s.writers[n];
    var p := TmpDir(w.bare, n);
    var begun := attested.(receipt := Some([]));
    if w.receipt.Raised? {
      Onward(h, s0, s, n, CreatingReceipt, s.disk[p := attested], Go, CleaningUp(Broke(w.receipt.error)),
             s.disk[p := attested]);
    } else if o.fault(CreatingReceipt).Some? {
      Stopped(h, s0, s, n, CreatingReceipt, s.disk[p := attested], o.fault(CreatingReceipt).value);
    } else {
      assert s.disk[p := attested][p := begun] == s.disk[p := begun];
      Onward(h, s0, s, n, CreatingReceipt, s.disk[p := attested], Go, FillingReceipt, s.disk[p := begun]);
      if o.fault(FillingReceipt).Some? {
        Stopped(h, s0, s, n, FillingReceipt, s.disk[p := begun], o.fault(FillingReceipt).value);
      } else {
        var full := attested.(receipt := Some(w.receipt.value));
        assert s.disk[p := begun][p := full] == s.disk[p := full];
        Onward(h, s0, s, n, FillingReceipt, s.disk[p := begun], Go, Marking, s.disk[p := full]);
        MarkIsRun(h, s0, s, n, o, full);
      }
    }
  }

  lemma MarkIsRun(h: Digests, s0: State, s: State, n: string, o: World, full: Dir)
    requires n in s.writers && s.writers[n].nonce == n && !full.complete
    requires Reaches(h, s0, Mid(s, n, Marking, s.disk[TmpDir(s.writers[n].bare, n) := full]))
    ensures var p := TmpDir(s.writers[n].bare, n);
      if o.fault(Marking).Some? then Reaches(h, s0, Mid(s, n, CleaningUp(Broke(o.fault(Marking).value)), s.disk[p := full]))
      else Reaches(h, s0, Mid(s, n, Renaming, s.disk[p := full.(complete := true)]))
  {
    var p := TmpDir(s.writers[n].bare, n);
    if o.fault(Marking).Some? {
      Stopped(h, s0, s, n, Marking, s.disk[p := full], o.fault(Marking).value);
    } else {
      assert s.disk[p := full][p := full.(complete := true)] == s.disk[p := full.(complete := true)];
      Onward(h, s0, s, n, Marking, s.disk[p := full], Go, Renaming, s.disk[p := full.(complete := true)]);
    }
  }

  lemma MatchIsRun(h: Digests, s0: State, s: State, n: string, disk: Disk, o: World, late: bool)
    requires n in s.writers && Reaches(h, s0, Mid(s, n, MatchingTree(late), disk))
    ensures Reaches(h, s0, Mid(s, n, Finish(late, Match(h, s.writers[n], disk, o, late)), disk))
  {
    var w := s.writers[n];
    if o.fault(MatchingTree(late)).Some? {
      var e := o.fault(MatchingTree(late)).value;
      Onward(h, s0, s, n, MatchingTree(late), disk, Fault(e), Finish(late, Broke(e)), disk);
    } else {
      var foreign := match o.foreign case Some(t) => t case None => [];
      var pc := match h.whole(TreeAtKey(h, w, disk, o))
        case Raised(e) => Finish(late, Broke(e))
        case Ok(stored) => if h.matches(stored, w.bare) then MatchingBytes(late) else Finish(late, Refused);
      Onward(h, s0, s, n, MatchingTree(late), disk, MatchTree(foreign), pc, disk);
      if pc.MatchingBytes? { BytesIsRun(h, s0, s, n, disk, o, late); }
    }
  }

  lemma BytesIsRun(h: Digests, s0: State, s: State, n: string, disk: Disk, o: World, late: bool)
    requires n in s.writers && Reaches(h, s0, Mid(s, n, MatchingBytes(late), disk))
    requires o.fault(MatchingTree(late)).None? && h.whole(TreeAtKey(h, s.writers[n], disk, o)).Ok?
    requires h.matches(h.whole(TreeAtKey(h, s.writers[n], disk, o)).value, s.writers[n].bare)
    ensures Reaches(h, s0, Mid(s, n, Finish(late, Match(h, s.writers[n], disk, o, late)), disk))
  {
    var outcome := Match(h, s.writers[n], disk, o, late);
    var a := match o.fault(MatchingBytes(late)) case Some(e) => Fault(e) case None => Go;
    Onward(h, s0, s, n, MatchingBytes(late), disk, a, Finish(late, outcome), disk);
  }

  lemma LookIsRun(h: Digests, s0: State, s: State, n: string, pc: Pc, disk: Disk, o: World)
    requires n in s.writers && Reaches(h, s0, Mid(s, n, pc, disk)) && (pc.Looking? || pc.LookingAgain?)
    ensures var found := SeesMarker(h, s.writers[n], disk, o, pc);
      Reaches(h, s0, Mid(s, n,
        if found then MatchingTree(pc.LookingAgain?) else if pc.Looking? then Rehashing else CleaningUp(Refused), disk))
  {
    var found := SeesMarker(h, s.writers[n], disk, o, pc);
    var pc2 := if found then MatchingTree(pc.LookingAgain?) else if pc.Looking? then Rehashing else CleaningUp(Refused);
    Onward(h, s0, s, n, pc, disk, Look(found), pc2, disk);
  }

  /** The record of a call that ended with `outcome`. */
  function EndedWith(w: Writer, pc: Pc, outcome: Outcome): Writer {
    w.(pc := pc, committed := outcome == Returned(false))
  }

  lemma CommitIsRun(h: Digests, s0: State, s: State, n: string, disk: Disk, o: World)
    requires n in s.writers && s.writers[n].nonce == n && !s.writers[n].committed
    requires TmpDir(s.writers[n].bare, n) in disk && Reaches(h, s0, Mid(s, n, Renaming, disk))
    ensures var (outcome, after) := CommitEffect(h, s.writers[n], disk, o);
      Reaches(h, s0, State(after, s.writers[n := EndedWith(s.writers[n], CleaningUp(outcome), outcome)]))
  {
    var w := s.writers[n];
    var p, key := TmpDir(w.bare, n), KeyDir(w.bare);
    var failed := o.fault(Renaming);
    if failed.Some? && !failed.value.OSError? {
      Stopped(h, s0, s, n, Renaming, disk, failed.value);
    } else if failed.None? && (key !in disk || Empty(disk[key])) {
      RenameIsRun(h, s0, s, n, disk);
    } else {
      var a := match failed case Some(e) => Fault(e) case None => Go;
      Onward(h, s0, s, n, Renaming, disk, a, LookingAgain, disk);
      LookIsRun(h, s0, s, n, LookingAgain, disk, o);
      if SeesMarker(h, w, disk, o, LookingAgain) { MatchIsRun(h, s0, s, n, disk, o, true); }
    }
  }

  lemma RenameIsRun(h: Digests, s0: State, s: State, n: string, disk: Disk)
    requires n in s.writers && s.writers[n].nonce == n
    requires TmpDir(s.writers[n].bare, n) in disk && Reaches(h, s0, Mid(s, n, Renaming, disk))
    requires KeyDir(s.writers[n].bare) !in disk || Empty(disk[KeyDir(s.writers[n].bare)])
    ensures var p := TmpDir(s.writers[n].bare, n);
      Reaches(h, s0, State((disk - {p})[KeyDir(s.writers[n].bare) := disk[p]],
                           s.writers[n := EndedWith(s.writers[n], CleaningUp(Returned(false)), Returned(false))]))
  {
    var w := s.writers[n];
    var t := Mid(s, n, Renaming, disk);
    var w2 := EndedWith(w, CleaningUp(Returned(false)), Returned(false));
    Extend(h, s0, t, Do(n, Go));
    assert t.writers[n := w2] == s.writers[n := w2];
  }

  lemma CleanUpIsRun(h: Digests, s0: State, s: State, n: string, disk: Disk, o: World, outcome: Outcome)
    requires n in s.writers && s.writers[n].nonce == n && Reaches(h, s0, Mid(s, n, CleaningUp(outcome), disk))
    ensures Reaches(h, s0, Mid(s, n, Ended(outcome), CleanUp(s.writers[n], disk, o)))
  {
    var p := TmpDir(s.writers[n].bare, n);
    var after := CleanUp(s.writers[n], disk, o);
    if !o.stuck && p in disk {
      Onward(h, s0, s, n, CleaningUp(outcome), disk, Trim(None), CleaningUp(outcome), after);
    } else {
      assert after == disk;
    }
    Onward(h, s0, s, n, CleaningUp(outcome), after, Go, Ended(outcome), after);
  }

  /** From re-hashing to the end. */
  lemma RestIsRun(h: Digests, s0: State, s: State, n: string, o: World)
    requires n in s.writers && s.writers[n].nonce == n && !s.writers[n].committed && WellFormed(o.copied)
    requires TmpDir(s.writers[n].bare, n) !in s.disk
    requires Reaches(h, s0, Mid(s, n, MakingTmp, s.disk))
    ensures var w := s.writers[n];
      var (stopped, staged) := StageEffect(h, w, s.disk, o);
      var (outcome, after) := if stopped.Some? then (stopped.value, staged) else CommitEffect(h, w, staged, o);
      Reaches(h, s0, State(CleanUp(w, after, o), s.writers[n := EndedWith(w, Ended(outcome), outcome)]))
  {
    var w := s.writers[n];
    var (stopped, staged) := StageEffect(h, w, s.disk, o);
    StageIsRun(h, s0, s, n, o);
    if stopped.Some? {
      CleanUpIsRun(h, s0, s, n, staged, o, stopped.value);
    } else {
      var (outcome, after) := CommitEffect(h, w, staged, o);
      CommitIsRun(h, s0, s, n, staged, o);
      var u := s.(writers := s.writers[n := EndedWith(w, CleaningUp(outcome), outcome)]);
      assert Mid(u, n, CleaningUp(outcome), after) == State(after, u.writers);
      CleanUpIsRun(h, s0, u, n, after, o, outcome);
      assert u.writers[n := EndedWith(w, Ended(outcome), outcome)] == s.writers[n := EndedWith(w, Ended(outcome), outcome)];
    }
  }

  ghost predicate Fresh(s: State, o: World) {
    o.nonce !in s.writers && |o.nonce| == 16 && WellFormed(o.copied)
  }

  /** The imperative call, made on a store in any reachable state, is a run of the protocol. */
  lemma WriteIsRun(h: Digests, s: State, env: Envelope, receipt: Result<Bytes>, o: World)
    requires Honest(h) && Inv(h, s) && Fresh(s, o) && SubjectOf(env).Ok?
    ensures var w := CallOf(env, SubjectOf(env).value, receipt, o.nonce);
      var (outcome, after) := WriteEffect(h, w, s.disk, o);
      Reaches(h, s, State(after, s.writers[o.nonce := EndedWith(w, Ended(outcome), outcome)]))
  {
    var w := CallOf(env, SubjectOf(env).value, receipt, o.nonce);
    CallStarts(h, s, env, receipt, o.nonce);
    NoTmpYet(h, s, o.nonce, w.bare);
    StartedIsRun(h, s, w, o);
  }

  lemma StartedIsRun(h: Digests, s: State, w: Writer, o: World)
    requires w.nonce == o.nonce && !w.committed && WellFormed(o.copied) && TmpDir(w.bare, o.nonce) !in s.disk
    requires var u := s.(writers := s.writers[o.nonce := w]);
      Reaches(h, s, u) && Mid(u, o.nonce, Looking, s.disk) == u
    ensures var (outcome, after) := WriteEffect(h, w, s.disk, o);
      Reaches(h, s, State(after, s.writers[o.nonce := EndedWith(w, Ended(outcome), outcome)]))
  {
    var n := o.nonce;
    var u := s.(writers := s.writers[n := w]);
    CallIsRun(h, s, u, n, o);
    var (outcome, after) := WriteEffect(h, w, s.disk, o);
    assert u.writers[n := EndedWith(w, Ended(outcome), outcome)] == s.writers[n := EndedWith(w, Ended(outcome), outcome)];
  }

  lemma CallStarts(h: Digests, s: State, env: Envelope, receipt: Result<Bytes>, n: string)
    requires n !in s.writers && |n| == 16 && SubjectOf(env).Ok?
    ensures var u := s.(writers := s.writers[n := CallOf(env, SubjectOf(env).value, receipt, n)]);
      Reaches(h, s, u) && Mid(u, n, Looking, s.disk) == u
  {
    var w := CallOf(env, SubjectOf(env).value, receipt, n);
    var u := s.(writers := s.writers[n := w]);
    assert Run(h, s, []) == Some(s);
    Extend(h, s, s, Call(n, env, receipt));
    assert u.writers[n := w] == u.writers;
  }

  /** A fresh temporary name is not on disk. */
  lemma NoTmpYet(h: Digests, s: State, n: string, bare: string)
    requires Inv(h, s) && n !in s.writers
    ensures TmpDir(bare, n) !in s.disk
  {
    if TmpDir(bare, n) in s.disk { assert false; }
  }

  lemma CallIsRun(h: Digests, s0: State, s: State, n: string, o: World)
    requires n in s.writers && s.writers[n].nonce == n && !s.writers[n].committed && WellFormed(o.copied)
    requires TmpDir(s.writers[n].bare, n) !in s.disk && Reaches(h, s0, Mid(s, n, Looking, s.disk))
    ensures var (outcome, after) := WriteEffect(h, s.writers[n], s.disk, o);
      Reaches(h, s0, State(after, s.writers[n := EndedWith(s.writers[n], Ended(outcome), outcome)]))
  {
    var w := s.writers[n];
    LookIsRun(h, s0, s, n, Looking, s.disk, o);
    if SeesMarker(h, w, s.disk, o, Looking) {
      MatchIsRun(h, s0, s, n, s.disk, o, false);
    } else if o.fault(Rehashing).Some? {
      var e := o.fault(Rehashing).value;
      Onward(h, s0, s, n, Rehashing, s.disk, Fault(e), Ended(Broke(e)), s.disk);
    } else {
      var pc := match h.listed(o.live, o.files)
        case Raised(e) => Ended(Broke(e))
        case Ok(live) => if h.matches(live, w.bare) then MakingShard else Ended(Refused);
      Onward(h, s0, s, n, Rehashing, s.disk, Rehash(o.live, o.files), pc, s.disk);
      if pc.MakingShard? {
        if o.fault(MakingShard).Some? {
          var e := o.fault(MakingShard).value;
          Onward(h, s0, s, n, MakingShard, s.disk, Fault(e), Ended(Broke(e)), s.disk);
        } else {
          Onward(h, s0, s, n, MakingShard, s.disk, Go, MakingTmp, s.disk);
          RestIsRun(h, s0, s, n, o);
        }
      }
    }
  }

  // ---- what the caller can rely on ------------------------------------------

  /** The entry this call would publish. */
  function NewEntry(w: Writer, o: World): Dir
    requires w.receipt.Ok?
  {
    Dir(w.nonce, Some(o.copied), Some(w.att), Some(w.receipt.value), true)
  }

  /** The quarantined files and their copy both hash to the subject, and the receipt can be encoded. */
  predicate Publishable(h: Digests, w: Writer, o: World) {
    && h.listed(o.live, o.files).Ok? && h.matches(h.listed(o.live, o.files).value, w.bare)
    && h.whole(o.copied).Ok? && h.matches(h.whole(o.copied).value, w.bare) && w.receipt.Ok?
  }

  lemma StageOutcomes(h: Digests, w: Writer, disk: Disk, o: World)
    requires TmpDir(w.bare, w.nonce) !in disk
    ensures var (stopped, after) := StageEffect(h, w, disk, o); var p := TmpDir(w.bare, w.nonce);
      && SameOff(disk, after, p)
      && (stopped.None? ==> h.whole(o.copied).Ok? && h.matches(h.whole(o.copied).value, w.bare) && w.receipt.Ok?
                            && after == disk[p := NewEntry(w, o)])
      && (stopped.Some? ==> !stopped.value.Returned?)
      && ((forall pc :: o.fault(pc).None?) ==>
            (stopped.None? <==> h.whole(o.copied).Ok? && h.matches(h.whole(o.copied).value, w.bare) && w.receipt.Ok?))
  {
  }

  /** Whatever fails: a returning call leaves its own envelope under its key, and one that raises has changed no
      entry at all; apart from its temporary directory, and its key when it publishes, nothing on disk moves. */
  lemma WriteOutcomes(h: Digests, w: Writer, disk: Disk, o: World)
    requires TmpDir(w.bare, w.nonce) !in disk
    ensures var (outcome, after) := WriteEffect(h, w, disk, o); var key, p := KeyDir(w.bare), TmpDir(w.bare, w.nonce);
      match outcome
      case Returned(true) => SameOff(disk, after, p) && key in disk && disk[key].att == Some(w.att)
      case Returned(false) =>
        && Publishable(h, w, o) && (key !in disk || Empty(disk[key]))
        && after == disk[key := NewEntry(w, o)]
      case _ => SameOff(disk, after, p)
  {
    StageOutcomes(h, w, disk, o);
    var (stopped, staged) := StageEffect(h, w, disk, o);
    if stopped.None? { CommitOutcomes(h, w, disk, o); }
  }

  /** Whatever fails short of a crash: if files can be deleted at all, the temporary directory is gone when the call ends,
      and a call that does not report a fresh publication leaves exactly the disk it found. */
  lemma FailuresLeaveNothing(h: Digests, w: Writer, disk: Disk, o: World)
    requires TmpDir(w.bare, w.nonce) !in disk && !o.stuck
    ensures var (outcome, after) := WriteEffect(h, w, disk, o);
      TmpDir(w.bare, w.nonce) !in after && (outcome != Returned(false) ==> after == disk)
  {
    WriteOutcomes(h, w, disk, o);
    var p := TmpDir(w.bare, w.nonce);
    var (outcome, after) := WriteEffect(h, w, disk, o);
    assert p !in after;
    if outcome != Returned(false) { SameEverywhere(disk, after, p); }
  }

  /** The steps of a call that finds no entry, in order. */
  const STEPS: seq<Pc> := [
    Rehashing, MakingShard, MakingTmp, MakingArtifact, Copying, CheckingCopy, CreatingAtt, FillingAtt, CreatingReceipt,
    FillingReceipt, Marking, Renaming
  ]

  /** Of several failing steps the first one decides how such a call ends: with its own exception, save that a failing
      rename is a refusal. If none fails it publishes. */
  lemma FirstFaultSurfaces(h: Digests, w: Writer, disk: Disk, o: World, i: nat)
    requires Publishable(h, w, o) && KeyDir(w.bare) !in disk && (o.foreign.None? || h.spells(w.bare))
    requires i <= |STEPS| && (forall j :: 0 <= j < i ==> o.fault(STEPS[j]).None?)
    requires i < |STEPS| ==> o.fault(STEPS[i]).Some?
    ensures var outcome := WriteEffect(h, w, disk, o).0;
      if i == |STEPS| then outcome == Returned(false)
      else
        var e := o.fault(STEPS[i]).value;
        outcome == if STEPS[i].Renaming? && e.OSError? then Refused else Broke(e)
  {
    if i >= 2 { FirstFaultInStage(h, w, disk, o, i); }
    if i >= 1 { assert o.fault(STEPS[0]).None?; }
    if i >= 2 { assert o.fault(STEPS[1]).None?; }
    if i == 12 { assert o.fault(STEPS[11]).None?; }
    if i >= 11 { RenameLast(h, w, StageEffect(h, w, disk, o).1, o); }
  }

  lemma FirstFaultInStage(h: Digests, w: Writer, disk: Disk, o: World, i: nat)
    requires Publishable(h, w, o) && 2 <= i <= |STEPS| && (forall j :: 0 <= j < i ==> o.fault(STEPS[j]).None?)
    requires i < |STEPS| ==> o.fault(STEPS[i]).Some?
    ensures var (stopped, after) := StageEffect(h, w, disk, o);
      if i < 11 then stopped == Some(Broke(o.fault(STEPS[i]).value))
      else stopped.None? && after == disk[TmpDir(w.bare, w.nonce) := NewEntry(w, o)]
  {
    if i > 2 { assert o.fault(STEPS[2]).None?; }
    if i > 3 { assert o.fault(STEPS[3]).None?; }
    if i > 4 { assert o.fault(STEPS[4]).None?; }
    if i > 5 {
      assert o.fault(STEPS[5]).None?;
      FirstFaultInBlobs(w, disk, o, Dir(w.nonce, Some(o.copied), None, None, false), i);
    }
  }

  lemma FirstFaultInBlobs(w: Writer, disk: Disk, o: World, copied: Dir, i: nat)
    requires w.receipt.Ok? && 6 <= i <= |STEPS| && (forall j :: 0 <= j < i ==> o.fault(STEPS[j]).None?)
    requires i < |STEPS| ==> o.fault(STEPS[i]).Some?
    ensures var (stopped, after) := StageBlobs(w, disk, o, copied);
      if i < 11 then stopped == Some(Broke(o.fault(STEPS[i]).value))
      else
        && stopped.None?
        && after == disk[TmpDir(w.bare, w.nonce) :=
             copied.(att := Some(w.att), receipt := Some(w.receipt.value), complete := true)]
  {
    if i > 6 { assert o.fault(STEPS[6]).None?; }
    if i > 7 { assert o.fault(STEPS[7]).None?; }
    if i > 8 { assert o.fault(STEPS[8]).None?; }
    if i > 9 { assert o.fault(STEPS[9]).None?; }
    if i > 10 { assert o.fault(STEPS[10]).None?; }
  }

  lemma RenameLast(h: Digests, w: Writer, disk: Disk, o: World)
    requires TmpDir(w.bare, w.nonce) in disk && KeyDir(w.bare) !in disk && (o.foreign.None? || h.spells(w.bare))
    ensures CommitEffect(h, w, disk, o).0 ==
      match o.fault(Renaming)
      case None => Returned(false)
      case Some(e) => if e.OSError? then Refused else Broke(e)
  {
  }

  lemma SameEverywhere(a: Disk, b: Disk, p: Path)
    requires SameOff(a, b, p) && p !in a && p !in b
    ensures b == a
  {
  }

  lemma CommitOutcomes(h: Digests, w: Writer, disk: Disk, o: World)
    requires TmpDir(w.bare, w.nonce) !in disk && w.receipt.Ok?
    ensures var key, p := KeyDir(w.bare), TmpDir(w.bare, w.nonce); var staged := disk[p := NewEntry(w, o)];
      var (outcome, after) := CommitEffect(h, w, staged, o); var cleaned := CleanUp(w, after, o);
      match outcome
      case Returned(true) => SameOff(disk, cleaned, p) && key in disk && disk[key].att == Some(w.att)
      case Returned(false) => (key !in disk || Empty(disk[key])) && cleaned == disk[key := NewEntry(w, o)]
      case _ => SameOff(disk, cleaned, p)
  {
    var key, p := KeyDir(w.bare), TmpDir(w.bare, w.nonce);
    var staged := disk[p := NewEntry(w, o)];
    assert (staged - {p})[key := NewEntry(w, o)] == disk[key := NewEntry(w, o)];
    assert disk[key := NewEntry(w, o)] - {p} == disk[key := NewEntry(w, o)];
  }

  ghost predicate Quiet(o: World) { !o.stuck && forall pc :: o.fault(pc).None? }

  /** With nothing failing, an entry that is there decides: the same envelope is a verified no-op, another is refused. */
  lemma QuietRepeat(h: Digests, s: State, w: Writer, o: World)
    requires Honest(h) && Inv(h, s) && Quiet(o) && KeyDir(w.bare) in s.disk
    ensures WriteEffect(h, w, s.disk, o) ==
      (if s.disk[KeyDir(w.bare)].att == Some(w.att) then Returned(true) else Refused, s.disk)
  {
    KeyIsEntry(h, s, KeyDir(w.bare));
    assert Placed(h, KeyDir(w.bare), s.disk[KeyDir(w.bare)], s.writers);
  }

  /** With nothing failing, a call that finds its key taken when it renames ends as a call that came later would:
      already present for the entry's own envelope, refused for any other. */
  lemma QuietLoser(h: Digests, s: State, w: Writer, o: World)
    requires Honest(h) && Inv(h, s) && Quiet(o) && KeyDir(w.bare) in s.disk && TmpDir(w.bare, w.nonce) in s.disk
    ensures CommitEffect(h, w, s.disk, o) ==
      (if s.disk[KeyDir(w.bare)].att == Some(w.att) then Returned(true) else Refused, s.disk)
  {
    KeyIsEntry(h, s, KeyDir(w.bare));
    assert Placed(h, KeyDir(w.bare), s.disk[KeyDir(w.bare)], s.writers);
  }

  /** With nothing failing, a staged directory is renamed to a key that is free. */
  lemma QuietCommits(h: Digests, w: Writer, disk: Disk, o: World)
    requires Quiet(o) && KeyDir(w.bare) !in disk && TmpDir(w.bare, w.nonce) !in disk && w.receipt.Ok?
    ensures CommitEffect(h, w, disk[TmpDir(w.bare, w.nonce) := NewEntry(w, o)], o) ==
      (Returned(false), disk[KeyDir(w.bare) := NewEntry(w, o)])
    ensures CleanUp(w, disk[KeyDir(w.bare) := NewEntry(w, o)], o) == disk[KeyDir(w.bare) := NewEntry(w, o)]
  {
    var p, key := TmpDir(w.bare, w.nonce), KeyDir(w.bare);
    assert (disk[p := NewEntry(w, o)] - {p})[key := NewEntry(w, o)] == disk[key := NewEntry(w, o)];
  }

  /** With nothing failing and no entry yet, the call publishes exactly when the bytes and the receipt are good. */
  lemma QuietFirst(h: Digests, s: State, w: Writer, o: World)
    requires Honest(h) && Inv(h, s) && Quiet(o) && KeyDir(w.bare) !in s.disk && w.nonce !in s.writers
    requires o.foreign.None? || h.spells(w.bare)
    ensures var (outcome, after) := WriteEffect(h, w, s.disk, o);
      if Publishable(h, w, o) then outcome == Returned(false) && after == s.disk[KeyDir(w.bare) := NewEntry(w, o)]
      else !outcome.Returned? && after == s.disk
  {
    NoTmpYet(h, s, w.nonce, w.bare);
    StageOutcomes(h, w, s.disk, o);
    if Publishable(h, w, o) { QuietCommits(h, w, s.disk, o); } else { QuietRefuses(h, w, s.disk, o); }
  }

  /** What cannot be published leaves nothing behind. */
  lemma QuietRefuses(h: Digests, w: Writer, disk: Disk, o: World)
    requires Quiet(o) && !Publishable(h, w, o) && TmpDir(w.bare, w.nonce) !in disk
    requires KeyDir(w.bare) !in disk && (o.foreign.None? || h.spells(w.bare))
    ensures var (outcome, after) := WriteEffect(h, w, disk, o); !outcome.Returned? && after == disk
  {
    StageOutcomes(h, w, disk, o);
    var (stopped, staged) := StageEffect(h, w, disk, o);
    if stopped.Some? { assert staged - {TmpDir(w.bare, w.nonce)} == disk; }
  }

  /** What the caller of `write` gets when nothing fails: the address, and whether the entry was there already; or a
      `PromotionError` when the digests or the stored envelope say no. */
  lemma QuietAnswers(h: Digests, s: State, w: Writer, o: World)
    requires Honest(h) && Inv(h, s) && Quiet(o) && w.nonce !in s.writers && (o.foreign.None? || h.spells(w.bare))
    ensures var answer, uri := Reported(WriteEffect(h, w, s.disk, o).0, w.bare), "mig-trusted://sha256/" + w.bare;
      if KeyDir(w.bare) in s.disk
      then answer == if s.disk[KeyDir(w.bare)].att == Some(w.att) then Ok((uri, true)) else Raised(PromotionError)
      else if Publishable(h, w, o) then answer == Ok((uri, false))
      else
        && answer.Raised?
        && (h.listed(o.live, o.files).Ok? && h.whole(o.copied).Ok? && w.receipt.Ok? ==> answer == Raised(PromotionError))
  {
    if KeyDir(w.bare) in s.disk {
      QuietRepeat(h, s, w, o);
    } else {
      QuietFirst(h, s, w, o);
      StageOutcomes(h, w, s.disk, o) by { NoTmpYet(h, s, w.nonce, w.bare); }
    }
  }

  // ---- one digest, several spellings ----------------------------------------

  /** The spelling MIG itself writes into a statement: 64 lower-case digits. */
  predicate Plain(bare: string) { Computed("sha256:" + bare) }

  /** Two calls for the same tree whose statements spell its digest differently make two entries. */
  lemma SpellingsSplitEntries(sha: Sha, t: Tree, e1: Envelope, e2: Envelope) returns (s: State)
    requires IsSha256(sha) && WellFormed(t) && SubjectOf(e1).Ok? && SubjectOf(e2).Ok?
    requires SubjectOf(e1).value != SubjectOf(e2).value && TreeDigest(sha, t).Ok?
    requires DigestsMatch(TreeDigest(sha, t).value, SubjectOf(e1).value)
    requires DigestsMatch(TreeDigest(sha, t).value, SubjectOf(e2).value)
    ensures TrustedStore.Reachable(Sha256Digests(sha), s)
    ensures var k1, k2 := KeyDir(SubjectOf(e1).value), KeyDir(SubjectOf(e2).value);
      && k1 != k2 && k1 in s.disk && k2 in s.disk
      && s.disk[k1].artifact == Some(t) && s.disk[k2].artifact == Some(t)
  {
    var h := Sha256Digests(sha);
    TrustedStore.Sha256IsHonest(sha);
    assert Run(h, INIT, []) == Some(INIT);
    assert Inv(h, INIT);
    var s1 := PublishOne(sha, INIT, t, e1, "0000000000000000");
    TrustedStore.ReachableOk(h, s1);
    s := PublishOne(sha, s1, t, e2, "0000000000000001");
  }

  lemma PublishOne(sha: Sha, s: State, t: Tree, env: Envelope, nonce: string) returns (after: State)
    requires IsSha256(sha) && WellFormed(t) && SubjectOf(env).Ok? && TreeDigest(sha, t).Ok?
    requires DigestsMatch(TreeDigest(sha, t).value, SubjectOf(env).value)
    requires TrustedStore.Reachable(Sha256Digests(sha), s) && Inv(Sha256Digests(sha), s)
    requires nonce !in s.writers && |nonce| == 16 && KeyDir(SubjectOf(env).value) !in s.disk
    ensures TrustedStore.Reachable(Sha256Digests(sha), after)
    ensures var key := KeyDir(SubjectOf(env).value);
      && after.writers.Keys == s.writers.Keys + {nonce}
      && key in after.disk && after.disk[key].artifact == Some(t) && SameOff(s.disk, after.disk, key)
  {
    var h := Sha256Digests(sha);
    var bare := SubjectOf(env).value;
    var o := World(nonce, t, Paths(t), t, _ => None, false, None);
    var w := CallOf(env, bare, Ok([]), nonce);
    TrustedStore.Sha256IsHonest(sha);
    NormalizeIdempotent(bare);
    assert Publishable(h, w, o);
    QuietFirst(h, s, w, o);
    WriteIsRun(h, s, env, Ok([]), o);
    var (outcome, disk) := WriteEffect(h, w, s.disk, o);
    after := State(disk, s.writers[nonce := EndedWith(w, Ended(outcome), outcome)]);
    ReachesFromInit(h, s, after);
  }

  lemma {:induction false} RunConcat(h: Digests, s: State, log: seq<Event>, more: seq<Event>)
    requires Run(h, s, log).Some? && Run(h, Run(h, s, log).value, more).Some?
    ensures Run(h, s, log + more) == Run(h, Run(h, s, log).value, more)
  {
    if more == [] {
      assert log + more == log;
    } else {
      RunConcat(h, s, log, more[..|more| - 1]);
      assert (log + more)[..|log + more| - 1] == log + more[..|more| - 1];
    }
  }

  lemma ReachesFromInit(h: Digests, s: State, t: State)
    requires TrustedStore.Reachable(h, s) && Reaches(h, s, t)
    ensures TrustedStore.Reachable(h, t)
  {
    var log :| Run(h, INIT, log) == Some(s);
    var more :| Run(h, s, more) == Some(t);
    RunConcat(h, INIT, log, more);
    assert Run(h, INIT, log + more) == Some(t);
  }

  /** Among plain spellings there is one per digest, so then there is one entry per digest. */
  lemma PlainSpellingsAreUnique(a: string, b: string)
    requires Plain(a) && Plain(b)
    ensures DigestsMatch(a, b) <==> KeyDir(a) == KeyDir(b)
  {
    NormalizeComputed("sha256:" + a);
    NormalizeComputed("sha256:" + b);
    assert ("sha256:" + a)[7..] == a && ("sha256:" + b)[7..] == b;
  }

  /** Any non-empty text can be signed as a subject, and the store then keys by exactly that text. */
  lemma SubjectOfSigned(name: string, hex: string, body: Json, signer: Signing.Signer)
    requires Wf(body) && hex != ""
    ensures SubjectOf(Signing.SignStatement(Statement.StatementJson(name, hex, body), signer)) == Ok(hex)
  {
    var statement := Statement.StatementJson(name, hex, body);
    Statement.StatementWf(name, hex, body);
    Signing.SignedBytesOfSigned(Canonical.Encoding(statement), signer);
    Canonical.LoadsOfCanonical(statement);
    Statement.SubjectDigestSorted(name, hex, body);
  }

  /** Such envelopes exist for every tree: sign its digest once with its algorithm and once without. */
  lemma TwoSpellings(sha: Sha, t: Tree, name: string, body: Json, signer: Signing.Signer)
      returns (e1: Envelope, e2: Envelope, s: State)
    requires IsSha256(sha) && WellFormed(t) && Wf(body)
    ensures TreeDigest(sha, t).Ok? && TrustedStore.Reachable(Sha256Digests(sha), s)
    ensures var d := TreeDigest(sha, t).value;
      && |d| == 71 && e1 == Signing.SignStatement(Statement.StatementJson(name, d, body), signer)
      && e2 == Signing.SignStatement(Statement.StatementJson(name, d[7..], body), signer)
      && KeyDir(d) != KeyDir(d[7..]) && KeyDir(d) in s.disk && KeyDir(d[7..]) in s.disk
      && s.disk[KeyDir(d)].artifact == Some(t) && s.disk[KeyDir(d[7..])].artifact == Some(t)
  {
    TreeDigestOk(sha, t);
    var d := TreeDigest(sha, t).value;
    NormalizeComputed(d);
    e1 := Signing.SignStatement(Statement.StatementJson(name, d, body), signer);
    e2 := Signing.SignStatement(Statement.StatementJson(name, d[7..], body), signer);
    SubjectOfSigned(name, d, body, signer);
    SubjectOfSigned(name, d[7..], body, signer);
    s := SpellingsSplitEntries(sha, t, e1, e2);
  }
}
