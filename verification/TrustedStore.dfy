/** What the store protocol guarantees over every history of calls, failures and crashes. */
module TrustedStore {
  import opened Prelude
  import opened Dsse
  import opened Hashing
  import opened StoreProtocol
  import Order

  // ---- the model's names and digests are the real ones ----------------------

  /** The directories a history can make: keys that spell a digest, temporary names with their 16 random digits. */
  predicate CanExist(p: Path) { if p.KeyDir? then KeyLike(p.bare) else |p.nonce| == 16 }

  /** Different directories of the model have different names on disk, and all of them are plain names. */
  lemma PathTextInjective(p: Path, q: Path)
    requires CanExist(p) && CanExist(q) && PathText(p) == PathText(q)
    ensures p == q
  {
    match (p, q)
    case (TmpDir(b1, n1), TmpDir(b2, n2)) => TmpTextInjective(b1, n1, b2, n2);
    case (KeyDir(b), TmpDir(_, _)) => KeyLikeIsPlain(b);
    case (TmpDir(_, _), KeyDir(b)) => KeyLikeIsPlain(b);
    case _ =>
  }

  lemma TmpTextInjective(b1: string, n1: string, b2: string, n2: string)
    requires |n1| == 16 && |n2| == 16 && PathText(TmpDir(b1, n1)) == PathText(TmpDir(b2, n2))
    ensures n1 == n2 && b1 == b2
  {
    var t1, t2 := PathText(TmpDir(b1, n1)).1, PathText(TmpDir(b2, n2)).1;
    assert |t1| == 22 + |b1| && |t2| == 22 + |b2|;
    assert t1[6 + |b1|..] == n1 && t2[6 + |b2|..] == n2;
    assert t1[5..5 + |b1|] == b1 && t2[5..5 + |b2|] == b2;
  }

  /** The spelling of a digest is a plain file name, and never that of a temporary directory. */
  lemma KeyLikeIsPlain(bare: string)
    requires KeyLike(bare)
    ensures |bare| >= 64 && bare[0] != '.' && '/' !in bare && '\0' !in bare
  {
    var core := Strip(bare);
    CoreIsPlain(bare, core);
    StripKeepsCore(bare);
    assert bare[0] in core || IsSpace(bare[0]);
  }

  /** An entry stands in the folder of its first two characters under its own name, a temporary directory beside it. */
  lemma PathsAre(bare: string, nonce: string)
    requires KeyLike(bare)
    ensures |bare| >= 2 && PathText(KeyDir(bare)) == (bare[..2], bare)
    ensures PathText(TmpDir(bare, nonce)) == (bare[..2], ".tmp-" + bare + "-" + nonce)
  {
    KeyLikeIsPlain(bare);
  }

  lemma CoreIsPlain(bare: string, core: string)
    requires KeyLike(bare) && core == Strip(bare)
    ensures |core| >= 64 && '.' !in core && '/' !in core && '\0' !in core
  {
    var d := Normalize(bare);
    NormalizeIdempotent(bare);
    MatchesComputed(bare, d);
    if Lower(core) == d { LowerIsPlain(core, d); } else { HexIsPlain(core); }
  }

  lemma LowerIsPlain(core: string, d: string)
    requires Computed(d) && Lower(core) == d
    ensures |core| == 71 && '.' !in core && '/' !in core && '\0' !in core
  {
    ComputedPlain(d);
    forall i | 0 <= i < |core| ensures core[i] != '.' && core[i] != '/' && core[i] != '\0' {
      assert d[i] == LowerChar(core[i]);
    }
  }

  lemma ComputedPlain(d: string)
    requires Computed(d)
    ensures forall i :: 0 <= i < 71 ==> d[i] != '.' && d[i] != '/' && d[i] != '\0'
  {
    var p := "sha256:";
    assert forall i :: 0 <= i < 7 ==> d[i] == d[..7][i] == p[i];
  }

  lemma HexIsPlain(core: string)
    requires BareHex64(core)
    ensures '.' !in core && '/' !in core && '\0' !in core
  {
  }

  /** What surrounds the stripped text is white space. */
  lemma StripKeepsCore(s: string)
    ensures |Strip(s)| <= |s|
    ensures forall c :: c in s ==> c in Strip(s) || IsSpace(c)
  {
    StripLeftKeeps(s);
    StripRightKeeps(StripLeft(s));
    StripLeftEnds(s);
    StripRightEnds(StripLeft(s));
  }

  lemma {:induction false} StripLeftKeeps(s: string)
    ensures forall c :: c in s ==> c in StripLeft(s) || IsSpace(c)
  {
    if s != "" && IsSpace(s[0]) {
      StripLeftKeeps(s[1..]);
      assert s == [s[0]] + s[1..];
    }
  }

  lemma {:induction false} StripRightKeeps(s: string)
    ensures forall c :: c in s ==> c in StripRight(s) || IsSpace(c)
  {
    if s != "" && IsSpace(s[|s| - 1]) {
      StripRightKeeps(s[..|s| - 1]);
      assert s == s[..|s| - 1] + [s[|s| - 1]];
    }
  }

  lemma Sha256IsHonest(sha: Sha)
    requires IsSha256(sha)
    ensures Honest(Sha256Digests(sha))
  {
    var h := Sha256Digests(sha);
    forall t, files, bare | h.listed(t, files).Ok? && h.matches(h.listed(t, files).value, bare)
      ensures h.spells(bare)
    {
      HashTreeComputed(sha, t, files);
      MatchIsKeyLike(HashTree(sha, t, files).value, bare);
    }
    forall t, bare | h.whole(t).Ok? && h.matches(h.whole(t).value, bare) ensures h.spells(bare) {
      HashTreeComputed(sha, t, Paths(t));
      MatchIsKeyLike(HashTree(sha, t, Paths(t)).value, bare);
    }
  }

  lemma MatchIsKeyLike(digest: string, bare: string)
    requires Computed(digest) && DigestsMatch(digest, Normalize(bare))
    ensures KeyLike(bare) && DigestsMatch(digest, bare)
  {
    NormalizeComputed(digest);
    NormalizeIdempotent(bare);
  }

  lemma HashTreeComputed(sha: Sha, t: Tree, files: seq<string>)
    requires IsSha256(sha)
    ensures HashTree(sha, t, files).Ok? ==> Computed(HashTree(sha, t, files).value)
  {
    match Frames(sha, t, Order.Sort(Order.Le, files)) {
      case Ok(b) => DigestComputed(sha, b);
      case _ =>
    }
  }

  // ---- histories -----------------------------------------------------------

  lemma {:induction false} RunKeeps(h: Digests, s: State, log: seq<Event>)
    requires Honest(h) && Inv(h, s) && Run(h, s, log).Some?
    ensures Inv(h, Run(h, s, log).value)
  {
    if log != [] {
      RunKeeps(h, s, log[..|log| - 1]);
      ApplyKeeps(h, Run(h, s, log[..|log| - 1]).value, log[|log| - 1]);
    }
  }

  ghost predicate SameCall(a: Writer, b: Writer) {
    a.env == b.env && a.bare == b.bare && a.att == b.att && a.receipt == b.receipt && a.nonce == b.nonce
  }

  lemma StepKeepsCall(h: Digests, w: Writer, disk: Disk, a: Action)
    requires Step(h, w, disk, a).Some?
    ensures SameCall(w, Step(h, w, disk, a).value.writer)
  {
  }

  /** What a call carries never changes while it runs. */
  lemma ApplyKeepsCalls(h: Digests, s: State, e: Event, n: string)
    requires Apply(h, s, e).Some? && n in s.writers
    ensures n in Apply(h, s, e).value.writers && SameCall(s.writers[n], Apply(h, s, e).value.writers[n])
  {
    if e.Do? { StepKeepsCall(h, s.writers[e.nonce], s.disk, e.action); }
  }

  /** A call carries the bytes of its own envelope, filed under that envelope's subject. */
  ghost predicate Original(w: Writer) {
    SubjectOf(w.env) == Ok(w.bare) && w.att == EnvelopeBytes(w.env)
  }

  lemma ApplyStartsOriginal(h: Digests, s: State, e: Event, n: string)
    requires Apply(h, s, e).Some? && n in Apply(h, s, e).value.writers && n !in s.writers
    ensures Original(Apply(h, s, e).value.writers[n])
  {
  }

  lemma {:induction false} RunIsOriginal(h: Digests, log: seq<Event>, n: string)
    requires Run(h, INIT, log).Some? && n in Run(h, INIT, log).value.writers
    ensures Original(Run(h, INIT, log).value.writers[n])
  {
    if log != [] {
      var s, e := Run(h, INIT, log[..|log| - 1]).value, log[|log| - 1];
      if n in s.writers {
        RunIsOriginal(h, log[..|log| - 1], n);
        ApplyKeepsCalls(h, s, e, n);
      } else {
        ApplyStartsOriginal(h, s, e, n);
      }
    }
  }

  ghost predicate Reachable(h: Digests, s: State) {
    exists log :: Run(h, INIT, log) == Some(s)
  }

  lemma ReachableOk(h: Digests, s: State)
    requires Honest(h) && Reachable(h, s)
    ensures Inv(h, s)
  {
    var log :| Run(h, INIT, log) == Some(s);
    RunKeeps(h, INIT, log);
  }

  lemma ReachableOriginal(h: Digests, s: State, n: string)
    requires Reachable(h, s) && n in s.writers
    ensures Original(s.writers[n])
  {
    var log :| Run(h, INIT, log) == Some(s);
    RunIsOriginal(h, log, n);
  }

  // ---- the store is never half-written -------------------------------------

  /** A published entry: marked complete, its tree hashing to the key, with a receipt and the bytes of one
      envelope whose signed subject is the key. */
  ghost predicate Published(sha: Sha, bare: string, d: Dir) {
    && KeyLike(bare) && d.complete && d.artifact.Some? && d.receipt.Some?
    && TreeDigest(sha, d.artifact.value).Ok? && DigestsMatch(TreeDigest(sha, d.artifact.value).value, Normalize(bare))
    && exists env :: SubjectOf(env) == Ok(bare) && d.att == Some(EnvelopeBytes(env))
  }

  /** In every reachable state a key directory is a whole entry; whatever else there is, is the temporary
      directory of a call that has not published. */
  lemma KeysAreWhole(sha: Sha, s: State, p: Path)
    requires IsSha256(sha) && Reachable(Sha256Digests(sha), s) && p in s.disk
    ensures CanExist(p)
    ensures p.KeyDir? ==> Published(sha, p.bare, s.disk[p])
    ensures p.TmpDir? ==>
      (p.nonce in s.writers && s.writers[p.nonce].bare == p.bare && !s.writers[p.nonce].committed
       && !Concluded(s.writers[p.nonce].pc, Returned(false)))
  {
    var h := Sha256Digests(sha);
    Sha256IsHonest(sha);
    ReachableOk(h, s);
    assert Placed(h, p, s.disk[p], s.writers);
    var n := s.disk[p].maker;
    assert WriterOk(h, n, s.writers[n], s.disk);
    if p.KeyDir? {
      KeyIsEntry(h, s, p);
      ReachableOriginal(h, s, n);
    }
  }

  // ---- the store is write-once ---------------------------------------------

  lemma StepKeepsEntries(h: Digests, s: State, e: Event, p: Path)
    requires Honest(h) && Inv(h, s) && Apply(h, s, e).Some? && p.KeyDir? && p in s.disk
    ensures p in Apply(h, s, e).value.disk && Apply(h, s, e).value.disk[p] == s.disk[p]
  {
    KeyIsEntry(h, s, p);
    if e.Do? { StepKeepsFull(h, s.writers[e.nonce], s.disk, e.action, p); }
  }

  /** Only an empty directory could be replaced by the rename. */
  lemma StepKeepsFull(h: Digests, w: Writer, disk: Disk, a: Action, p: Path)
    requires Step(h, w, disk, a).Some? && p.KeyDir? && p in disk && !Empty(disk[p])
    ensures var l := Step(h, w, disk, a).value; p in l.disk && l.disk[p] == disk[p]
  {
    match a
    case Go => if InTmp(w.pc) { InTmpKeepsFull(h, w, disk, p); }
    case _ =>
  }

  lemma InTmpKeepsFull(h: Digests, w: Writer, disk: Disk, p: Path)
    requires InTmp(w.pc) && TmpDir(w.bare, w.nonce) in disk && p.KeyDir? && p in disk && !Empty(disk[p])
    ensures var l := StepInTmp(h, w, disk, TmpDir(w.bare, w.nonce)); p in l.disk && l.disk[p] == disk[p]
  {
  }

  /** No history changes or removes an entry once it is there. */
  lemma {:induction false} EntriesNeverChange(h: Digests, s: State, log: seq<Event>, p: Path)
    requires Honest(h) && Inv(h, s) && Run(h, s, log).Some? && p.KeyDir? && p in s.disk
    ensures p in Run(h, s, log).value.disk && Run(h, s, log).value.disk[p] == s.disk[p]
  {
    if log != [] {
      EntriesNeverChange(h, s, log[..|log| - 1], p);
      RunKeeps(h, s, log[..|log| - 1]);
      StepKeepsEntries(h, Run(h, s, log[..|log| - 1]).value, log[|log| - 1], p);
    }
  }

  ghost predicate Returns(w: Writer) { exists already :: Concluded(w.pc, Returned(already)) }

  /** A call that returns carried exactly the stored envelope bytes; the entry has one publisher. */
  lemma ReturnsAgree(h: Digests, s: State, n: string)
    requires Honest(h) && Inv(h, s) && n in s.writers && Returns(s.writers[n])
    ensures var w := s.writers[n]; var key := KeyDir(w.bare);
      && key in s.disk && s.disk[key].att == Some(w.att)
      && var m := s.disk[key].maker;
         m in s.writers && s.writers[m].committed && s.writers[m].bare == w.bare && s.writers[m].att == w.att
         && (Concluded(w.pc, Returned(false)) ==> m == n)
  {
    assert WriterOk(h, n, s.writers[n], s.disk);
    KeyIsEntry(h, s, KeyDir(s.writers[n].bare));
  }

  /** Whatever else runs: a call that has ended published an entry exactly when it says so. */
  lemma PublishedExactly(h: Digests, s: State, n: string, o: Outcome)
    requires Inv(h, s) && n in s.writers && Concluded(s.writers[n].pc, o)
    ensures (exists p :: p in s.disk && p.KeyDir? && s.disk[p].maker == n) <==> o == Returned(false)
  {
    var w := s.writers[n];
    assert WriterOk(h, n, w, s.disk);
    if p :| p in s.disk && p.KeyDir? && s.disk[p].maker == n { KeyIsEntry(h, s, p); }
    if o == Returned(false) { assert s.disk[KeyDir(w.bare)].maker == n; }
  }

  /** Of all the calls for one key, at most one reports a fresh publication, and all that return carried the same
      envelope. */
  lemma AtMostOnePublishes(sha: Sha, s: State, n: string, m: string)
    requires IsSha256(sha) && Reachable(Sha256Digests(sha), s)
    requires n in s.writers && m in s.writers && s.writers[n].bare == s.writers[m].bare
    requires Returns(s.writers[n]) && Returns(s.writers[m])
    ensures Concluded(s.writers[n].pc, Returned(false)) && Concluded(s.writers[m].pc, Returned(false)) ==> n == m
    ensures EnvelopeBytes(s.writers[n].env) == EnvelopeBytes(s.writers[m].env)
    ensures s.writers[n].env.signatures != [] && s.writers[m].env.signatures != []
      ==> s.writers[n].env == s.writers[m].env
  {
    var h := Sha256Digests(sha);
    Sha256IsHonest(sha);
    ReachableOk(h, s);
    ReturnsAgree(h, s, n);
    ReturnsAgree(h, s, m);
    ReachableOriginal(h, s, n);
    ReachableOriginal(h, s, m);
    if s.writers[n].env.signatures != [] && s.writers[m].env.signatures != [] {
      EnvelopeBytesInjective(s.writers[n].env, s.writers[m].env);
    }
  }

  /** Once a key holds one envelope, no call carrying another one for it ever returns: not the call that finds the
      entry at once, nor the one that loses the rename, whatever happens in between. */
  lemma OtherEnvelopeNeverReturns(h: Digests, s: State, log: seq<Event>, n: string, bare: string)
    requires Honest(h) && Inv(h, s) && KeyDir(bare) in s.disk && Run(h, s, log).Some?
    requires var t := Run(h, s, log).value;
      n in t.writers && t.writers[n].bare == bare && s.disk[KeyDir(bare)].att != Some(t.writers[n].att)
    ensures !Returns(Run(h, s, log).value.writers[n])
  {
    var t := Run(h, s, log).value;
    RunKeeps(h, s, log);
    EntriesNeverChange(h, s, log, KeyDir(bare));
    if Returns(t.writers[n]) { ReturnsAgree(h, t, n); }
  }

  // ---- what is stored is what was attested ----------------------------------

  ghost predicate AllHoldable(s: State) { forall p :: p in s.disk ==> Holdable(s.disk[p].artifact) }

  lemma ApplyKeepsHoldable(h: Digests, s: State, e: Event)
    requires AllHoldable(s) && Apply(h, s, e).Some?
    ensures AllHoldable(Apply(h, s, e).value)
  {
  }

  lemma {:induction false} RunKeepsHoldable(h: Digests, log: seq<Event>)
    requires Run(h, INIT, log).Some?
    ensures AllHoldable(Run(h, INIT, log).value)
  {
    if log != [] {
      RunKeepsHoldable(h, log[..|log| - 1]);
      ApplyKeepsHoldable(h, Run(h, INIT, log[..|log| - 1]).value, log[|log| - 1]);
    }
  }

  /** A published tree is the attested one, file for file, unless two of the inputs hashed collide. */
  lemma PublishedIsAttested(sha: Sha, s: State, bare: string, attested: Tree)
    requires IsSha256(sha) && Reachable(Sha256Digests(sha), s) && KeyDir(bare) in s.disk
    requires WellFormed(attested) && TreeDigest(sha, attested).Ok?
    requires DigestsMatch(TreeDigest(sha, attested).value, bare)
    ensures var stored := s.disk[KeyDir(bare)].artifact;
      && stored.Some?
      && (multiset(stored.value) == multiset(attested)
          || Collision(sha, Hashed(sha, stored.value), Hashed(sha, attested)))
  {
    KeysAreWhole(sha, s, KeyDir(bare));
    var stored := s.disk[KeyDir(bare)].artifact.value;
    var log :| Run(Sha256Digests(sha), INIT, log) == Some(s);
    RunKeepsHoldable(Sha256Digests(sha), log);
    NormalizeIdempotent(bare);
    TreeDigestOk(sha, stored);
    TreeDigestOk(sha, attested);
    NormalizeComputed(TreeDigest(sha, stored).value);
    NormalizeComputed(TreeDigest(sha, attested).value);
    TreeDigestBinds(sha, stored, attested);
  }
}
