/**
 The trusted store as a protocol: any number of `write` calls, each able to fail or crash between any
 two file-system steps, interleaved in any order over one disk.
 */
module StoreProtocol {
  import opened Prelude
  import opened Dsse
  import opened Hashing
  import JsonText
  import Order
  import Statement

  /** A directory under `cas/sha256`; `PathText` spells it out. */
  datatype Path = KeyDir(bare: string) | TmpDir(bare: string, nonce: string)

  /** A key or temporary directory; `maker` tells directories apart, as inodes do. */
  datatype Dir = Dir(maker: string, artifact: Option<Tree>, att: Option<Bytes>, receipt: Option<Bytes>, complete: bool)

  type Disk = map<Path, Dir>

  datatype Outcome = Returned(already: bool) | Refused | Broke(error: PyError)

  /** Where a call stands; `late` is the part after the temporary directory, which ends in clean-up. */
  datatype Pc =
    | Looking
    | MatchingTree(late: bool)
    | MatchingBytes(late: bool)
    | Rehashing
    | MakingShard
    | MakingTmp
    | MakingArtifact
    | Copying
    | CheckingCopy
    | CreatingAtt
    | FillingAtt
    | CreatingReceipt
    | FillingReceipt
    | Marking
    | Renaming
    | LookingAgain
    | CleaningUp(outcome: Outcome)
    | Ended(outcome: Outcome)
    | Crashed

  datatype Writer = Writer(
    env: Envelope, bare: string, att: Bytes, receipt: Result<Bytes>, nonce: string, pc: Pc, committed: bool)

  /** The digest functions the store calls: of listed files, of everything under a directory, of the comparison
      with a subject; and which subjects spell a SHA-256 digest at all. */
  datatype Digests = Digests(
    listed: (Tree, seq<string>) -> Result<string>,
    whole: Tree -> Result<string>,
    matches: (string, string) -> bool,
    spells: string -> bool)

  function Sha256Digests(sha: Sha): Digests {
    Digests((t, files) => HashTree(sha, t, files), t => TreeDigest(sha, t),
            (digest, bare) => DigestsMatch(digest, Normalize(bare)), bare => KeyLike(bare))
  }

  /** `bare` spells a SHA-256 digest. Only such a subject ever gets a directory. */
  predicate KeyLike(bare: string) { Computed(Normalize(bare)) }

  ghost predicate Honest(h: Digests) {
    && (forall t, files, bare :: h.listed(t, files).Ok? && h.matches(h.listed(t, files).value, bare) ==> h.spells(bare))
    && (forall t, bare :: h.whole(t).Ok? && h.matches(h.whole(t).value, bare) ==> h.spells(bare))
  }

  datatype State = State(disk: Disk, writers: map<string, Writer>)

  /** One file-system step of one call. `Go` is the step the code is about to make. */
  datatype Action =
    | Look(seen: bool)
    | MatchTree(foreign: Tree)
    | Rehash(live: Tree, files: seq<string>)
    | Copy(tree: Tree)
    | Go
    | Trim(left: Option<Dir>)
    | Fault(error: PyError)
    | Crash

  datatype Event = Call(nonce: string, env: Envelope, receipt: Result<Bytes>) | Do(nonce: string, action: Action)

  // ---- names ---------------------------------------------------------------

  /** The subject the store keys by: read from the signed payload, not yet normalised. */
  function SubjectOf(env: Envelope): Result<string> {
    var payload :- ExtractPayload(env);
    var statement :- JsonText.LoadsBytes(payload);
    Statement.SubjectDigest(statement)
  }

  function Take2(s: string): string { if |s| < 2 then s else s[..2] }

  /** `_key_dir`, and the name of a temporary directory beside it. */
  function PathText(p: Path): (string, string) {
    match p
    case KeyDir(bare) => (Take2(bare), bare)
    case TmpDir(bare, nonce) => (Take2(bare), ".tmp-" + bare + "-" + nonce)
  }

  function Uri(bare: string): string { "mig-trusted://sha256/" + bare }

  // ---- one step ------------------------------------------------------------

  datatype Local = Local(writer: Writer, disk: Disk)

  predicate Complete(disk: Disk, p: Path) { p in disk && disk[p].complete }

  /** Walking a directory that is not there yields no files. */
  function StoredTree(disk: Disk, p: Path): Tree {
    if p in disk && disk[p].artifact.Some? then disk[p].artifact.value else []
  }

  predicate Empty(d: Dir) { d.artifact.None? && d.att.None? && d.receipt.None? && !d.complete }

  /** An empty directory, the only kind that a rename replaces, is one nothing has been written to. */
  lemma EmptyIs(d: Dir)
    ensures Empty(d) <==> d == Dir(d.maker, None, None, None, false)
  {
  }

  function Finish(late: bool, o: Outcome): Pc { if late then CleaningUp(o) else Ended(o) }

  /** Where an exception takes the call. */
  function AfterFault(pc: Pc, e: PyError): Option<Pc> {
    match pc
    case Looking | LookingAgain | CleaningUp(_) | Ended(_) | Crashed => None
    case MatchingTree(late) => Some(Finish(late, Broke(e)))
    case MatchingBytes(late) => Some(Finish(late, if e.OSError? then Refused else Broke(e)))
    case Rehashing | MakingShard => Some(Ended(Broke(e)))
    case Renaming => Some(if e.OSError? then LookingAgain else CleaningUp(Broke(e)))
    case _ => Some(CleaningUp(Broke(e)))
  }

  /** What `rmtree` may leave behind of a directory. */
  ghost predicate PartOf(left: Dir, d: Dir) {
    && left.maker == d.maker
    && (left.artifact.Some? ==> d.artifact.Some? && forall f :: f in left.artifact.value ==> f in d.artifact.value)
    && (left.att.Some? ==> left.att == d.att) && (left.receipt.Some? ==> left.receipt == d.receipt)
    && (left.complete ==> d.complete)
  }

  ghost function Step(h: Digests, w: Writer, disk: Disk, a: Action): Option<Local> {
    match a
    case Look(seen) => StepLook(h, w, disk, seen)
    case MatchTree(foreign) => StepMatchTree(h, w, disk, foreign)
    case Rehash(live, files) => StepRehash(h, w, disk, live, files)
    case Copy(tree) => StepCopy(w, disk, tree)
    case Go => StepGo(h, w, disk)
    case Trim(left) => StepTrim(w, disk, left)
    case Fault(e) =>
      (match AfterFault(w.pc, e) case None => None case Some(pc) => Some(Local(w.(pc := pc), disk)))
    case Crash => if w.pc.Ended? || w.pc.Crashed? then None else Some(Local(w.(pc := Crashed), disk))
  }

  /** `os.path.exists(complete)`, before anything else and again after a failed rename. It reports an
      unreadable marker as absent; a subject that is no digest may resolve to anything. */
  function StepLook(h: Digests, w: Writer, disk: Disk, seen: bool): Option<Local> {
    var found := seen && (h.spells(w.bare) ==> Complete(disk, KeyDir(w.bare)));
    match w.pc
    case Looking => Some(Local(w.(pc := if found then MatchingTree(false) else Rehashing), disk))
    case LookingAgain => Some(Local(w.(pc := if found then MatchingTree(true) else CleaningUp(Refused)), disk))
    case _ => None
  }

  /** The first half of `_assert_stored_matches`. */
  function StepMatchTree(h: Digests, w: Writer, disk: Disk, foreign: Tree): Option<Local> {
    match w.pc
    case MatchingTree(late) =>
      var tree := if h.spells(w.bare) then StoredTree(disk, KeyDir(w.bare)) else foreign;
      var pc := match h.whole(tree)
        case Raised(e) => Finish(late, Broke(e))
        case Ok(stored) =>
          if h.matches(stored, w.bare) then MatchingBytes(late) else Finish(late, Refused);
      Some(Local(w.(pc := pc), disk))
    case _ => None
  }

  /** Re-binding the quarantined bytes to the subject. */
  function StepRehash(h: Digests, w: Writer, disk: Disk, live: Tree, files: seq<string>): Option<Local> {
    if !w.pc.Rehashing? then None
    else
      var pc := match h.listed(live, files)
        case Raised(e) => Ended(Broke(e))
        case Ok(digest) => if h.matches(digest, w.bare) then MakingShard else Ended(Refused);
      Some(Local(w.(pc := pc), disk))
  }

  /** A tree some directory can really hold: distinct paths, no NUL in them. */
  ghost predicate Holdable(a: Option<Tree>) { a.Some? ==> WellFormed(a.value) }

  /** Some progress of `stage_local_tree`; the source may be changing meanwhile. */
  ghost function StepCopy(w: Writer, disk: Disk, tree: Tree): Option<Local> {
    var p := TmpDir(w.bare, w.nonce);
    if w.pc.Copying? && p in disk && Holdable(Some(tree))
    then Some(Local(w, disk[p := disk[p].(artifact := Some(tree))]))
    else None
  }

  ghost function StepTrim(w: Writer, disk: Disk, left: Option<Dir>): Option<Local> {
    var p := TmpDir(w.bare, w.nonce);
    if !w.pc.CleaningUp? || p !in disk then None
    else match left
      case None => Some(Local(w, disk - {p}))
      case Some(d) => if PartOf(d, disk[p]) && Holdable(d.artifact) then Some(Local(w, disk[p := d])) else None
  }

  function StepGo(h: Digests, w: Writer, disk: Disk): Option<Local> {
    var p := TmpDir(w.bare, w.nonce);
    match w.pc
    case MatchingBytes(late) =>
      var key := KeyDir(w.bare);
      var same := h.spells(w.bare) && key in disk && disk[key].att == Some(w.att);
      Some(Local(w.(pc := Finish(late, if same then Returned(true) else Refused)), disk))
    case MakingShard => Some(Local(w.(pc := MakingTmp), disk))
    case MakingTmp =>
      if p in disk then Some(Local(w.(pc := CleaningUp(Broke(OSError))), disk))
      else Some(Local(w.(pc := MakingArtifact), disk[p := Dir(w.nonce, None, None, None, false)]))
    case CleaningUp(o) => Some(Local(w.(pc := Ended(o)), disk))
    case Looking | MatchingTree(_) | Rehashing | LookingAgain | Ended(_) | Crashed => None
    case _ => if p in disk then Some(StepInTmp(h, w, disk, p)) else None
  }

  /** The steps of `_stage`, and the commit. */
  function StepInTmp(h: Digests, w: Writer, disk: Disk, p: Path): Local
    requires p in disk
  {
    var d := disk[p];
    var broke := Local(w.(pc := CleaningUp(Broke(OSError))), disk);
    match w.pc
    case MakingArtifact => Local(w.(pc := Copying), disk[p := d.(artifact := Some([]))])
    case Copying => Local(w.(pc := CheckingCopy), disk)
    case CheckingCopy =>
      var pc := match h.whole(StoredTree(disk, p))
        case Raised(e) => CleaningUp(Broke(e))
        case Ok(staged) =>
          if h.matches(staged, w.bare) then CreatingAtt else CleaningUp(Refused);
      Local(w.(pc := pc), disk)
    case CreatingAtt =>
      if d.att.Some? then broke else Local(w.(pc := FillingAtt), disk[p := d.(att := Some([]))])
    case FillingAtt => Local(w.(pc := CreatingReceipt), disk[p := d.(att := Some(w.att))])
    case CreatingReceipt =>
      if w.receipt.Raised? then Local(w.(pc := CleaningUp(Broke(w.receipt.error))), disk)
      else if d.receipt.Some? then broke
      else Local(w.(pc := FillingReceipt), disk[p := d.(receipt := Some([]))])
    case FillingReceipt =>
      if w.receipt.Raised? then broke
      else Local(w.(pc := Marking), disk[p := d.(receipt := Some(w.receipt.value))])
    case Marking =>
      if d.complete then broke else Local(w.(pc := Renaming), disk[p := d.(complete := true)])
    case Renaming =>
      var key := KeyDir(w.bare);
      if key in disk && !Empty(disk[key]) then Local(w.(pc := LookingAgain), disk)
      else Local(w.(pc := CleaningUp(Returned(false)), committed := true), (disk - {p})[key := d])
    case _ => broke
  }

  ghost function Apply(h: Digests, s: State, e: Event): Option<State> {
    match e
    case Call(nonce, env, receipt) =>
      if nonce in s.writers || |nonce| != 16 then None
      else (match SubjectOf(env)
        case Raised(_) => Some(s)
        case Ok(bare) =>
          Some(s.(writers := s.writers[nonce := Writer(env, bare, EnvelopeBytes(env), receipt, nonce, Looking, false)])))
    case Do(nonce, a) =>
      if nonce !in s.writers then None
      else match Step(h, s.writers[nonce], s.disk, a)
        case None => None
        case Some(l) => Some(State(l.disk, s.writers[nonce := l.writer]))
  }

  /** The state after a whole history, if every event in it was possible. */
  ghost function Run(h: Digests, s: State, log: seq<Event>): Option<State> {
    if log == [] then Some(s)
    else match Run(h, s, log[..|log| - 1])
      case None => None
      case Some(t) => Apply(h, t, log[|log| - 1])
  }

  const INIT := State(map[], map[])

  // ---- the invariant -------------------------------------------------------

  ghost predicate CopiedTree(h: Digests, w: Writer, d: Dir) {
    d.artifact.Some? && h.whole(d.artifact.value).Ok?
    && h.matches(h.whole(d.artifact.value).value, w.bare)
  }

  /** A whole entry: a tree that hashes to the key, the signed envelope, the receipt and the marker. */
  ghost predicate Entry(h: Digests, w: Writer, d: Dir) {
    CopiedTree(h, w, d) && d.att == Some(w.att) && w.receipt.Ok? && d.receipt == Some(w.receipt.value) && d.complete
  }

  ghost predicate Staged(h: Digests, w: Writer, d: Dir) {
    match w.pc
    case Copying | CheckingCopy => d.artifact.Some?
    case CreatingAtt | FillingAtt => CopiedTree(h, w, d)
    case CreatingReceipt => CopiedTree(h, w, d) && d.att == Some(w.att)
    case FillingReceipt => CopiedTree(h, w, d) && d.att == Some(w.att) && w.receipt.Ok?
    case Marking => Entry(h, w, d.(complete := true))
    case Renaming => Entry(h, w, d)
    case _ => true
  }

  predicate InTmp(pc: Pc) {
    pc.MakingArtifact? || pc.Copying? || pc.CheckingCopy? || pc.CreatingAtt? || pc.FillingAtt? || pc.CreatingReceipt?
    || pc.FillingReceipt? || pc.Marking? || pc.Renaming?
  }

  predicate Concluded(pc: Pc, o: Outcome) { pc == CleaningUp(o) || pc == Ended(o) }

  /** The stored envelope under this call's key is the one this call carries. */
  predicate Agrees(h: Digests, w: Writer, disk: Disk) {
    h.spells(w.bare) && KeyDir(w.bare) in disk && disk[KeyDir(w.bare)].att == Some(w.att)
  }

  ghost predicate WriterOk(h: Digests, n: string, w: Writer, disk: Disk) {
    var p := TmpDir(w.bare, n);
    && w.nonce == n && |n| == 16
    && (w.pc.MakingShard? || w.pc.MakingTmp? || InTmp(w.pc) || w.pc.LookingAgain? || w.committed ==> h.spells(w.bare))
    && (w.committed ==> KeyDir(w.bare) in disk && disk[KeyDir(w.bare)].maker == n
                        && (Concluded(w.pc, Returned(false)) || w.pc.Crashed?))
    && (Concluded(w.pc, Returned(false)) ==> w.committed)
    && (Concluded(w.pc, Returned(true)) ==> Agrees(h, w, disk))
    && (InTmp(w.pc) ==> p in disk && disk[p].maker == n && Staged(h, w, disk[p]))
  }

  ghost predicate Placed(h: Digests, p: Path, d: Dir, writers: map<string, Writer>) {
    && d.maker in writers && h.spells(writers[d.maker].bare)
    && var w := writers[d.maker];
       if w.committed then p == KeyDir(w.bare) && Entry(h, w, d) else p == TmpDir(w.bare, d.maker)
  }

  ghost predicate Inv(h: Digests, s: State) {
    && (forall n :: n in s.writers ==> WriterOk(h, n, s.writers[n], s.disk))
    && (forall p :: p in s.disk ==> Placed(h, p, s.disk[p], s.writers))
  }

  // ---- every step keeps the invariant --------------------------------------

  ghost predicate SameOff(a: Disk, b: Disk, p: Path) {
    forall q :: q != p ==> (q in a <==> q in b) && (q in a ==> a[q] == b[q])
  }

  /** A step that touches nothing but the call's own temporary directory disturbs nobody else. */
  lemma OwnTmpKeeps(h: Digests, s: State, n: string, w: Writer, disk: Disk)
    requires Inv(h, s) && n in s.writers && w == s.writers[n].(pc := w.pc)
    requires var p := TmpDir(w.bare, n);
      SameOff(s.disk, disk, p) && (p in disk ==> disk[p].maker == n && h.spells(w.bare) && !w.committed)
    requires WriterOk(h, n, w, disk)
    ensures Inv(h, State(disk, s.writers[n := w]))
  {
    var t := State(disk, s.writers[n := w]);
    forall m | m in t.writers ensures WriterOk(h, m, t.writers[m], t.disk) {
      if m != n { OthersUndisturbed(h, s, n, w.bare, disk, m); }
    }
    forall q | q in t.disk ensures Placed(h, q, t.disk[q], t.writers) {
      if q != TmpDir(w.bare, n) { assert Placed(h, q, s.disk[q], s.writers); }
    }
  }

  lemma OthersUndisturbed(h: Digests, s: State, n: string, bare: string, disk: Disk, m: string)
    requires Inv(h, s) && m in s.writers && m != n && |n| == 16 && SameOff(s.disk, disk, TmpDir(bare, n))
    ensures WriterOk(h, m, s.writers[m], disk)
  {
    var w := s.writers[m];
    assert WriterOk(h, m, w, s.disk);
  }

  lemma LookKeeps(h: Digests, n: string, w: Writer, disk: Disk, seen: bool)
    requires WriterOk(h, n, w, disk) && StepLook(h, w, disk, seen).Some?
    ensures WriterOk(h, n, StepLook(h, w, disk, seen).value.writer, disk)
  {
  }

  lemma MatchTreeKeeps(h: Digests, n: string, w: Writer, disk: Disk, foreign: Tree)
    requires WriterOk(h, n, w, disk) && StepMatchTree(h, w, disk, foreign).Some?
    ensures WriterOk(h, n, StepMatchTree(h, w, disk, foreign).value.writer, disk)
  {
  }

  lemma RehashKeeps(h: Digests, n: string, w: Writer, disk: Disk, live: Tree, files: seq<string>)
    requires Honest(h) && WriterOk(h, n, w, disk) && StepRehash(h, w, disk, live, files).Some?
    ensures WriterOk(h, n, StepRehash(h, w, disk, live, files).value.writer, disk)
  {
  }

  lemma FaultKeeps(h: Digests, n: string, w: Writer, disk: Disk, e: PyError)
    requires WriterOk(h, n, w, disk) && AfterFault(w.pc, e).Some?
    ensures WriterOk(h, n, w.(pc := AfterFault(w.pc, e).value), disk)
  {
  }

  lemma CheckCopyKeeps(h: Digests, n: string, w: Writer, disk: Disk, p: Path)
    requires Honest(h) && WriterOk(h, n, w, disk) && w.pc.CheckingCopy? && p == TmpDir(w.bare, n)
    ensures WriterOk(h, n, StepInTmp(h, w, disk, p).writer, disk)
  {
  }

  /** A step that leaves the call in order and everything but its temporary directory `p` alone. */
  ghost predicate GoodStep(h: Digests, n: string, w: Writer, disk: Disk, l: Local, p: Path) {
    && WriterOk(h, n, l.writer, l.disk) && l.writer == w.(pc := l.writer.pc)
    && SameOff(disk, l.disk, p) && p in l.disk && l.disk[p].maker == n
  }

  lemma ArtifactKeeps(h: Digests, n: string, w: Writer, disk: Disk, p: Path)
    requires WriterOk(h, n, w, disk) && (w.pc.MakingArtifact? || w.pc.Copying?) && p == TmpDir(w.bare, n)
    ensures GoodStep(h, n, w, disk, StepInTmp(h, w, disk, p), p)
  {
  }

  lemma AttKeeps(h: Digests, n: string, w: Writer, disk: Disk, p: Path)
    requires WriterOk(h, n, w, disk) && (w.pc.CreatingAtt? || w.pc.FillingAtt?) && p == TmpDir(w.bare, n)
    ensures GoodStep(h, n, w, disk, StepInTmp(h, w, disk, p), p)
  {
  }

  lemma ReceiptKeeps(h: Digests, n: string, w: Writer, disk: Disk, p: Path)
    requires WriterOk(h, n, w, disk) && (w.pc.CreatingReceipt? || w.pc.FillingReceipt?) && p == TmpDir(w.bare, n)
    ensures GoodStep(h, n, w, disk, StepInTmp(h, w, disk, p), p)
  {
  }

  lemma MarkKeeps(h: Digests, n: string, w: Writer, disk: Disk, p: Path)
    requires WriterOk(h, n, w, disk) && w.pc.Marking? && p == TmpDir(w.bare, n)
    ensures GoodStep(h, n, w, disk, StepInTmp(h, w, disk, p), p)
  {
  }

  /** Making the artifact directory, the two blobs and the marker. */
  lemma BlobKeeps(h: Digests, n: string, w: Writer, disk: Disk, p: Path)
    requires WriterOk(h, n, w, disk) && InTmp(w.pc) && !w.pc.Renaming? && !w.pc.CheckingCopy? && p == TmpDir(w.bare, n)
    ensures GoodStep(h, n, w, disk, StepInTmp(h, w, disk, p), p)
  {
    match w.pc
    case MakingArtifact | Copying => ArtifactKeeps(h, n, w, disk, p);
    case CreatingAtt | FillingAtt => AttKeeps(h, n, w, disk, p);
    case CreatingReceipt | FillingReceipt => ReceiptKeeps(h, n, w, disk, p);
    case Marking => MarkKeeps(h, n, w, disk, p);
  }

  /** Once a call has committed, its temporary directory is gone for good. */
  lemma NoTmpAfterCommit(h: Digests, s: State, n: string)
    requires Inv(h, s) && n in s.writers && s.writers[n].committed
    ensures TmpDir(s.writers[n].bare, n) !in s.disk
  {
    if TmpDir(s.writers[n].bare, n) in s.disk { assert false; }
  }

  /** A directory at a key is a whole entry, put there by the call that committed it. */
  lemma KeyIsEntry(h: Digests, s: State, p: Path)
    requires Inv(h, s) && p in s.disk && p.KeyDir?
    ensures var d := s.disk[p];
      d.maker in s.writers && s.writers[d.maker].committed && s.writers[d.maker].bare == p.bare
      && Entry(h, s.writers[d.maker], d)
  {
    var d := s.disk[p];
    assert Placed(h, p, d, s.writers);
  }

  ghost predicate CanCommit(s: State, n: string) {
    n in s.writers && s.writers[n].pc.Renaming? && KeyDir(s.writers[n].bare) !in s.disk
  }

  function Committed(s: State, n: string): State
    requires n in s.writers && TmpDir(s.writers[n].bare, n) in s.disk
  {
    var w := s.writers[n];
    var p := TmpDir(w.bare, n);
    State((s.disk - {p})[KeyDir(w.bare) := s.disk[p]],
          s.writers[n := w.(pc := CleaningUp(Returned(false)), committed := true)])
  }

  lemma CommitKeeps(h: Digests, s: State, n: string)
    requires Inv(h, s) && CanCommit(s, n) && TmpDir(s.writers[n].bare, n) in s.disk
    ensures Inv(h, Committed(s, n))
  {
    var w := s.writers[n];
    var p, key := TmpDir(w.bare, n), KeyDir(w.bare);
    var t := Committed(s, n);
    assert WriterOk(h, n, w, s.disk);
    forall m | m in t.writers ensures WriterOk(h, m, t.writers[m], t.disk) {
      if m != n { OthersSurviveCommit(h, s, n, m); }
    }
    forall q | q in t.disk ensures Placed(h, q, t.disk[q], t.writers) {
      if q != key {
        assert Placed(h, q, s.disk[q], s.writers);
        if s.disk[q].maker == n { assert false; }
      }
    }
  }

  lemma OthersSurviveCommit(h: Digests, s: State, n: string, m: string)
    requires Inv(h, s) && CanCommit(s, n) && TmpDir(s.writers[n].bare, n) in s.disk && m in s.writers && m != n
    ensures WriterOk(h, m, s.writers[m], Committed(s, n).disk)
  {
    var w, v := s.writers[n], s.writers[m];
    assert WriterOk(h, m, v, s.disk) && WriterOk(h, n, w, s.disk);
  }

  lemma GoKeeps(h: Digests, s: State, n: string)
    requires Honest(h) && Inv(h, s) && n in s.writers && StepGo(h, s.writers[n], s.disk).Some?
    ensures var l := StepGo(h, s.writers[n], s.disk).value; Inv(h, State(l.disk, s.writers[n := l.writer]))
  {
    var w := s.writers[n];
    var p := TmpDir(w.bare, n);
    var l := StepGo(h, w, s.disk).value;
    assert WriterOk(h, n, w, s.disk);
    if w.pc.CheckingCopy? {
      CheckCopyKeeps(h, n, w, s.disk, p);
      QuietKeeps(h, s, n, l.writer);
    } else if w.pc.Renaming? {
      RenameKeeps(h, s, n);
    } else if InTmp(w.pc) {
      BlobKeeps(h, n, w, s.disk, p);
      OwnTmpKeeps(h, s, n, l.writer, l.disk);
    } else {
      OutsideTmpKeeps(h, s, n);
    }
  }

  lemma RenameKeeps(h: Digests, s: State, n: string)
    requires Inv(h, s) && n in s.writers && s.writers[n].pc.Renaming? && StepGo(h, s.writers[n], s.disk).Some?
    ensures var l := StepGo(h, s.writers[n], s.disk).value; Inv(h, State(l.disk, s.writers[n := l.writer]))
  {
    RenameOutcome(h, s, n);
    if CanCommit(s, n) { CommitKeeps(h, s, n); } else { RenameLost(h, s, n); }
  }

  /** A rename either commits or, the key being taken, moves the call on to look at what is there. */
  lemma RenameOutcome(h: Digests, s: State, n: string)
    requires Inv(h, s) && n in s.writers && s.writers[n].pc.Renaming? && StepGo(h, s.writers[n], s.disk).Some?
    ensures TmpDir(s.writers[n].bare, n) in s.disk
    ensures var w, l := s.writers[n], StepGo(h, s.writers[n], s.disk).value;
      State(l.disk, s.writers[n := l.writer]) ==
        if CanCommit(s, n) then Committed(s, n) else State(s.disk, s.writers[n := w.(pc := LookingAgain)])
  {
    var key := KeyDir(s.writers[n].bare);
    assert WriterOk(h, n, s.writers[n], s.disk);
    if key in s.disk { KeyIsEntry(h, s, key); }
  }

  lemma RenameLost(h: Digests, s: State, n: string)
    requires Inv(h, s) && n in s.writers && s.writers[n].pc.Renaming?
    ensures Inv(h, State(s.disk, s.writers[n := s.writers[n].(pc := LookingAgain)]))
  {
    assert WriterOk(h, n, s.writers[n], s.disk);
    QuietKeeps(h, s, n, s.writers[n].(pc := LookingAgain));
  }

  lemma OutsideTmpKeeps(h: Digests, s: State, n: string)
    requires Inv(h, s) && n in s.writers && !InTmp(s.writers[n].pc) && StepGo(h, s.writers[n], s.disk).Some?
    ensures var l := StepGo(h, s.writers[n], s.disk).value; Inv(h, State(l.disk, s.writers[n := l.writer]))
  {
    var w := s.writers[n];
    var p := TmpDir(w.bare, n);
    var l := StepGo(h, w, s.disk).value;
    assert WriterOk(h, n, w, s.disk);
    if w.committed { NoTmpAfterCommit(h, s, n); }
    OwnTmpMaker(h, s, n);
    OwnTmpKeeps(h, s, n, l.writer, l.disk);
  }

  /** Whatever is at a call's temporary name was made by that call. */
  lemma OwnTmpMaker(h: Digests, s: State, n: string)
    requires Inv(h, s) && n in s.writers
    ensures var w := s.writers[n]; var p := TmpDir(w.bare, n);
      p in s.disk ==> s.disk[p].maker == n && h.spells(w.bare) && !w.committed
  {
    var w := s.writers[n];
    var p := TmpDir(w.bare, n);
    assert WriterOk(h, n, w, s.disk);
    if p in s.disk {
      assert Placed(h, p, s.disk[p], s.writers);
      var m := s.disk[p].maker;
      var v := s.writers[m];
      assert WriterOk(h, m, v, s.disk);
    }
  }

  lemma TrimKeeps(h: Digests, s: State, n: string, left: Option<Dir>)
    requires Inv(h, s) && n in s.writers && StepTrim(s.writers[n], s.disk, left).Some?
    ensures var l := StepTrim(s.writers[n], s.disk, left).value; Inv(h, State(l.disk, s.writers[n := l.writer]))
  {
    var w := s.writers[n];
    var l := StepTrim(w, s.disk, left).value;
    assert WriterOk(h, n, w, s.disk);
    OwnTmpMaker(h, s, n);
    OwnTmpKeeps(h, s, n, w, l.disk);
  }

  lemma CopyKeeps(h: Digests, s: State, n: string, tree: Tree)
    requires Inv(h, s) && n in s.writers && StepCopy(s.writers[n], s.disk, tree).Some?
    ensures var l := StepCopy(s.writers[n], s.disk, tree).value; Inv(h, State(l.disk, s.writers[n := l.writer]))
  {
    var w := s.writers[n];
    var l := StepCopy(w, s.disk, tree).value;
    assert WriterOk(h, n, w, s.disk);
    OwnTmpMaker(h, s, n);
    OwnTmpKeeps(h, s, n, w, l.disk);
  }

  /** A step that leaves the disk alone. */
  lemma QuietKeeps(h: Digests, s: State, n: string, w: Writer)
    requires Inv(h, s) && n in s.writers && w == s.writers[n].(pc := w.pc) && WriterOk(h, n, w, s.disk)
    ensures Inv(h, State(s.disk, s.writers[n := w]))
  {
    OwnTmpMaker(h, s, n);
    OwnTmpKeeps(h, s, n, w, s.disk);
  }

  lemma DoKeeps(h: Digests, s: State, n: string, a: Action)
    requires Honest(h) && Inv(h, s) && n in s.writers && Step(h, s.writers[n], s.disk, a).Some?
    ensures var l := Step(h, s.writers[n], s.disk, a).value; Inv(h, State(l.disk, s.writers[n := l.writer]))
  {
    var w := s.writers[n];
    var l := Step(h, w, s.disk, a).value;
    assert WriterOk(h, n, w, s.disk);
    match a
    case Look(seen) => LookKeeps(h, n, w, s.disk, seen); QuietKeeps(h, s, n, l.writer);
    case MatchTree(foreign) => MatchTreeKeeps(h, n, w, s.disk, foreign); QuietKeeps(h, s, n, l.writer);
    case Rehash(live, files) => RehashKeeps(h, n, w, s.disk, live, files); QuietKeeps(h, s, n, l.writer);
    case Copy(tree) => CopyKeeps(h, s, n, tree);
    case Go => GoKeeps(h, s, n);
    case Trim(left) => TrimKeeps(h, s, n, left);
    case Fault(e) => FaultKeeps(h, n, w, s.disk, e); QuietKeeps(h, s, n, l.writer);
    case Crash => QuietKeeps(h, s, n, l.writer);
  }

  /** The step invariant. */
  lemma ApplyKeeps(h: Digests, s: State, e: Event)
    requires Honest(h) && Inv(h, s) && Apply(h, s, e).Some?
    ensures Inv(h, Apply(h, s, e).value)
  {
    match e
    case Do(n, a) => DoKeeps(h, s, n, a);
    case Call(n, env, receipt) =>
      if SubjectOf(env).Ok? {
        CallKeeps(h, s, n, Writer(env, SubjectOf(env).value, EnvelopeBytes(env), receipt, n, Looking, false));
      }
  }

  lemma CallKeeps(h: Digests, s: State, n: string, w: Writer)
    requires Inv(h, s) && n !in s.writers && |n| == 16 && w.nonce == n && w.pc.Looking? && !w.committed
    ensures Inv(h, s.(writers := s.writers[n := w]))
  {
    var t := s.(writers := s.writers[n := w]);
    forall p | p in t.disk ensures Placed(h, p, t.disk[p], t.writers) {
      assert Placed(h, p, s.disk[p], s.writers);
    }
  }
}
