/**
 Digests. SHA-256 is a parameter `sha` of which only the output length is known; where a result
 depends on collision resistance it names two inputs, among those really hashed, that collide.
 */
module Hashing {
  import opened Prelude
  import opened Order
  import Utf8

  // ---- text of a digest ----------------------------------------------------

  /** `str.isspace`. */
  predicate IsSpace(c: char) {
    var n := c as int;
    9 <= n <= 13 || 28 <= n <= 32 || n == 0x85 || n == 0xA0 || n == 0x1680 || 0x2000 <= n <= 0x200A
    || n == 0x2028 || n == 0x2029 || n == 0x202F || n == 0x205F || n == 0x3000
  }

  function StripLeft(s: string): string {
    if s != "" && IsSpace(s[0]) then StripLeft(s[1..]) else s
  }

  function StripRight(s: string): string {
    if s != "" && IsSpace(s[|s| - 1]) then StripRight(s[..|s| - 1]) else s
  }

  function Strip(s: string): string { StripRight(StripLeft(s)) }

  function LowerChar(c: char): char { if 'A' <= c <= 'Z' then (c as int + 32) as char else c }

  /** `str.lower` on ASCII letters. */
  function Lower(s: string): (r: string)
    ensures |r| == |s| && forall i :: 0 <= i < |s| ==> r[i] == LowerChar(s[i])
  {
    seq(|s|, i requires 0 <= i < |s| => LowerChar(s[i]))
  }

  predicate IsHex(c: char) { '0' <= c <= '9' || 'a' <= c <= 'f' || 'A' <= c <= 'F' }

  /** The pattern `^[0-9a-fA-F]{64}$`. */
  predicate BareHex64(s: string) { |s| == 64 && forall i :: 0 <= i < 64 ==> IsHex(s[i]) }

  /** Index of the first `:`, or the length. */
  function Colon(s: string): (i: nat)
    ensures i <= |s| && (i < |s| ==> s[i] == ':') && forall k :: 0 <= k < i ==> s[k] != ':'
  {
    if s == "" || s[0] == ':' then 0 else 1 + Colon(s[1..])
  }

  /** `normalize_digest`. */
  function Normalize(value: string): string {
    var text := Strip(value);
    if BareHex64(text) then "sha256:" + Lower(text)
    else
      var i := Colon(text);
      if i < |text| then Lower(text[..i]) + ":" + Lower(text[i + 1..]) else Lower(text)
  }

  predicate DigestsMatch(computed: string, expected: string) { Normalize(computed) == Normalize(expected) }

  /** `_bare_sha256_hex`. */
  function BareSha256Hex(digest: string): Result<string> {
    var n := Normalize(digest);
    var i := Colon(n);
    if i == |n| || n[..i] != "sha256" || i + 1 == |n| then Raised(ValueError) else Ok(n[i + 1..])
  }

  lemma NormalizeShape(value: string)
    ensures Normalize(value) == if BareHex64(Strip(value)) then "sha256:" + Lower(Strip(value)) else Lower(Strip(value))
  {
    var text := Strip(value);
    var i := Colon(text);
    if i < |text| { LowerAround(text, i); }
  }

  lemma LowerAround(text: string, i: nat)
    requires i < |text| && text[i] == ':'
    ensures Lower(text[..i]) + ":" + Lower(text[i + 1..]) == Lower(text)
  {
    var r := Lower(text[..i]) + ":" + Lower(text[i + 1..]);
    assert forall k :: i < k < |text| ==> r[k] == Lower(text[i + 1..])[k - i - 1];
  }

  lemma {:induction false} StripLeftEnds(s: string)
    ensures StripLeft(s) == "" || !IsSpace(StripLeft(s)[0])
    ensures |StripLeft(s)| <= |s| && StripLeft(s) == s[|s| - |StripLeft(s)|..]
  {
    if s != "" && IsSpace(s[0]) { StripLeftEnds(s[1..]); }
  }

  lemma {:induction false} StripRightEnds(s: string)
    ensures StripRight(s) == "" || !IsSpace(StripRight(s)[|StripRight(s)| - 1])
    ensures |StripRight(s)| <= |s| && StripRight(s) == s[..|StripRight(s)|]
  {
    if s != "" && IsSpace(s[|s| - 1]) { StripRightEnds(s[..|s| - 1]); }
  }

  lemma StripFixed(s: string)
    requires s == "" || (!IsSpace(s[0]) && !IsSpace(s[|s| - 1]))
    ensures Strip(s) == s
  {
  }

  lemma StripEnds(s: string)
    ensures Strip(s) == "" || (!IsSpace(Strip(s)[0]) && !IsSpace(Strip(s)[|Strip(s)| - 1]))
  {
    StripLeftEnds(s);
    StripRightEnds(StripLeft(s));
  }

  /** What a computed digest looks like: the algorithm and 64 lower-case hexadecimal digits. */
  predicate Computed(d: string) {
    |d| == 71 && d[..7] == "sha256:" && forall i :: 7 <= i < 71 ==> '0' <= d[i] <= '9' || 'a' <= d[i] <= 'f'
  }

  lemma ComputedChars(d: string)
    requires Computed(d)
    ensures d[0] == 's' && d[6] == ':' && d[..6] == "sha256" && (forall k :: 0 <= k < 6 ==> d[k] != ':')
    ensures d == "sha256:" + d[7..] && |d[7..]| == 64
    ensures forall i :: 0 <= i < 71 ==> LowerChar(d[i]) == d[i] && !IsSpace(d[i])
  {
    var p := "sha256:";
    assert d[..7] == p;
    assert forall i :: 0 <= i < 7 ==> d[i] == d[..7][i] == p[i];
  }

  lemma LowerFixed(s: string)
    requires forall i :: 0 <= i < |s| ==> LowerChar(s[i]) == s[i]
    ensures Lower(s) == s
  {
  }

  lemma NormalizeComputed(d: string)
    requires Computed(d)
    ensures Normalize(d) == d && BareSha256Hex(d) == Ok(d[7..])
    ensures Normalize(d[7..]) == d
  {
    ComputedChars(d);
    StripFixed(d);
    NormalizeShape(d);
    LowerFixed(d);
    assert Normalize(d) == d;
    assert Colon(d) == 6;
    NormalizeComputedTail(d);
  }

  lemma NormalizeComputedTail(d: string)
    requires Computed(d)
    ensures Normalize(d[7..]) == d
  {
    ComputedChars(d);
    var t := d[7..];
    assert forall i :: 0 <= i < 64 ==> t[i] == d[i + 7];
    assert BareHex64(t) && Strip(t) == t && Lower(t) == t by {
      StripFixed(t);
      LowerFixed(t);
    }
    assert Normalize(t) == "sha256:" + t by { NormalizeShape(t); }
  }

  /** Normalising twice is normalising once, so any spelling of a digest may be compared with any other. */
  lemma NormalizeIdempotent(value: string)
    ensures Normalize(Normalize(value)) == Normalize(value)
  {
    var text, n := Strip(value), Normalize(value);
    NormalizeShape(value);
    if BareHex64(text) {
      LowerHexComputed(text);
      NormalizeComputed(n);
    } else {
      StripEnds(value);
      NormalizeOfLower(text);
    }
  }

  lemma LowerHexComputed(text: string)
    requires BareHex64(text)
    ensures Computed("sha256:" + Lower(text))
  {
    var n := "sha256:" + Lower(text);
    assert n[..7] == "sha256:";
    assert forall i :: 7 <= i < 71 ==> n[i] == LowerChar(text[i - 7]);
  }

  lemma NormalizeOfLower(text: string)
    requires !BareHex64(text)
    requires text == "" || (!IsSpace(text[0]) && !IsSpace(text[|text| - 1]))
    ensures Normalize(Lower(text)) == Lower(text)
  {
    var n := Lower(text);
    LowerKeepsHex(text);
    if n != "" {
      assert !IsSpace(n[0]) && !IsSpace(n[|n| - 1]);
    }
    StripFixed(n);
    NormalizeShape(n);
  }

  lemma LowerKeepsHex(text: string)
    ensures BareHex64(Lower(text)) <==> BareHex64(text)
    ensures Lower(Lower(text)) == Lower(text)
  {
    var n := Lower(text);
    assert forall i :: 0 <= i < |n| ==> (IsHex(n[i]) <==> IsHex(text[i]));
    LowerFixed(n);
  }

  const CAPITALS := "ABCDEFGHIJKLMNOPQRSTUVWXYZ"
  const SMALLS := "abcdefghijklmnopqrstuvwxyz"

  /** Lower-casing sends each of the 26 capitals to its small letter, and leaves everything else alone. */
  lemma LowerCharIs(c: char)
    ensures forall i :: 0 <= i < 26 ==> LowerChar(CAPITALS[i]) == SMALLS[i]
    ensures c !in CAPITALS ==> LowerChar(c) == c
  {
    if 'A' <= c <= 'Z' { assert CAPITALS[c as int - 65] == c; }
  }

  lemma LettersAre(i: nat)
    requires i < 26
    ensures SMALLS[i] as int == 97 + i && CAPITALS[i] as int == 65 + i
  {
  }

  /** The code points of `str.isspace`. */
  const SPACES := {
    9, 10, 11, 12, 13, 28, 29, 30, 31, 32, 133, 160, 5760, 8192, 8193, 8194, 8195, 8196, 8197, 8198, 8199, 8200, 8201, 8202,
    8232, 8233, 8239, 8287, 12288
  }

  lemma SpacesAre(c: char)
    ensures IsSpace(c) <==> c as int in SPACES
  {
  }

  /** Two digests match whichever is the computed one. */
  lemma DigestsMatchSymmetric(a: string, b: string)
    ensures DigestsMatch(a, b) <==> DigestsMatch(b, a)
  {
  }

  /** A digest without its algorithm is what follows `sha256:` in its normal form; of another algorithm, of none, or of
      nothing there is none. */
  lemma BareSha256HexIs(digest: string, h: string)
    ensures BareSha256Hex(digest) == Ok(h) <==> h != "" && Normalize(digest) == "sha256:" + h
    ensures BareSha256Hex(digest).Raised? ==> BareSha256Hex(digest).error == ValueError
  {
    var n := Normalize(digest);
    var i := Colon(n);
    if BareSha256Hex(digest) == Ok(h) {
      assert n == n[..i] + [n[i]] + n[i + 1..];
    }
    if h != "" && n == "sha256:" + h {
      assert n[6] == ':' && n[..6] == "sha256" && n[7..] == h;
      assert forall k :: 0 <= k < 6 ==> n[k] == "sha256"[k];
    }
  }

  /** The spellings that match a computed digest: surrounding space, letter case and the prefix may vary, nothing else. */
  lemma MatchesComputed(v: string, d: string)
    requires Computed(d)
    ensures DigestsMatch(v, d) <==> Lower(Strip(v)) == d || (BareHex64(Strip(v)) && Lower(Strip(v)) == d[7..])
  {
    NormalizeComputed(d);
    NormalizeShape(v);
    assert d == "sha256:" + d[7..];
    if BareHex64(Strip(v)) {
      assert ("sha256:" + Lower(Strip(v)))[7..] == Lower(Strip(v));
    }
  }

  // ---- computing digests ---------------------------------------------------

  type Sha = Bytes -> Bytes

  ghost predicate IsSha256(sha: Sha) { forall b :: |sha(b)| == 32 }

  function HexDigit(n: nat): (c: char)
    requires n < 16
    ensures '0' <= c <= '9' || 'a' <= c <= 'f'
  {
    if n < 10 then (48 + n) as char else (87 + n) as char
  }

  /** `hexdigest`. */
  function Hex(b: Bytes): (h: string)
    ensures |h| == 2 * |b|
    ensures forall i :: 0 <= i < |h| ==> '0' <= h[i] <= '9' || 'a' <= h[i] <= 'f'
  {
    if b == [] then "" else [HexDigit(b[0] / 16), HexDigit(b[0] % 16)] + Hex(b[1..])
  }

  /** Two digits a byte, the high one first. */
  lemma HexGolden()
    ensures Hex([31, 160]) == "1fa0"
  {
    assert [31, 160][1..] == [160] && [160][1..] == [];
    assert Hex([160]) == "a0";
  }

  lemma {:induction false} HexInjective(a: Bytes, b: Bytes)
    requires Hex(a) == Hex(b)
    ensures a == b
  {
    assert |Hex(a)| == 2 * |a| && |Hex(b)| == 2 * |b|;
    if a != [] {
      var x, y := a[0], b[0];
      assert Hex(a)[0] == HexDigit(x / 16) && Hex(b)[0] == HexDigit(y / 16);
      assert Hex(a)[1] == HexDigit(x % 16) && Hex(b)[1] == HexDigit(y % 16);
      assert Hex(a)[2..] == Hex(a[1..]) && Hex(b)[2..] == Hex(b[1..]);
      HexInjective(a[1..], b[1..]);
      assert a == [a[0]] + a[1..] && b == [b[0]] + b[1..];
    }
  }

  function Digest(sha: Sha, b: Bytes): string { "sha256:" + Hex(sha(b)) }

  lemma DigestComputed(sha: Sha, b: Bytes)
    requires IsSha256(sha)
    ensures Computed(Digest(sha, b))
  {
    assert Digest(sha, b)[..7] == "sha256:";
  }

  lemma DigestInjective(sha: Sha, a: Bytes, b: Bytes)
    requires Digest(sha, a) == Digest(sha, b)
    ensures sha(a) == sha(b)
  {
    assert Digest(sha, a)[7..] == Hex(sha(a)) && Digest(sha, b)[7..] == Hex(sha(b));
    HexInjective(sha(a), sha(b));
  }

  /** `hash_file`: chunks of at most `chunkSize` bytes, fed to the digest object in turn. */
  method HashFile(sha: Sha, content: Bytes, chunkSize: nat) returns (r: string)
    requires chunkSize > 0
    ensures r == Digest(sha, content)
  {
    var fed: Bytes := [];
    var pos := 0;
    while pos < |content|
      invariant 0 <= pos <= |content|
      invariant fed == content[..pos]
    {
      var end := if pos + chunkSize < |content| then pos + chunkSize else |content|;
      fed := fed + content[pos..end];
      pos := end;
    }
    assert content[..pos] == content;
    r := "sha256:" + Hex(sha(fed));
  }

  /** A directory: its files in the order a walk lists them. */
  datatype File = File(path: string, content: Bytes)
  type Tree = seq<File>

  function Read(t: Tree, path: string): Option<Bytes> {
    if t == [] then None else if t[0].path == path then Some(t[0].content) else Read(t[1..], path)
  }

  function Paths(t: Tree): (r: seq<string>)
    ensures |r| == |t| && forall i :: 0 <= i < |t| ==> r[i] == t[i].path
  {
    if t == [] then [] else [t[0].path] + Paths(t[1..])
  }

  /** What one file adds to the tree digest. */
  function Frame(sha: Sha, path: string, content: Bytes): Bytes {
    Utf8.Encode(path) + [0] + Utf8.Encode(Digest(sha, content)) + [10]
  }

  /** The frames of the files, in the order given; a file that cannot be opened raises. */
  function Frames(sha: Sha, t: Tree, files: seq<string>): Result<Bytes> {
    if files == [] then Ok([])
    else match Read(t, files[0])
      case None => Raised(OSError)
      case Some(content) =>
        match Frames(sha, t, files[1..])
        case Raised(e) => Raised(e)
        case Ok(rest) => Ok(Frame(sha, files[0], content) + rest)
  }

  /** `hash_tree`. */
  function HashTree(sha: Sha, t: Tree, files: seq<string>): Result<string> {
    match Frames(sha, t, Sort(Le, files))
    case Raised(e) => Raised(e)
    case Ok(b) => Ok(Digest(sha, b))
  }

  /** The loop of `hash_tree` over one digest object. */
  method HashTreeLoop(sha: Sha, t: Tree, files: seq<string>) returns (r: Result<string>)
    ensures r == HashTree(sha, t, files)
  {
    var order := Sort(Le, files);
    var fed: Bytes := [];
    assert order[0..] == order;
    AfterNothing(Frames(sha, t, order));
    for i := 0 to |order|
      invariant Frames(sha, t, order) == After(fed, Frames(sha, t, order[i..]))
    {
      FramesStep(sha, t, order, i);
      var content := Read(t, order[i]);
      if content.None? {
        return Raised(OSError);
      }
      var fileDigest := HashFile(sha, content.value, 1024 * 1024);
      AfterOne(fed, Frame(sha, order[i], content.value), Frames(sha, t, order[i + 1..]));
      fed := fed + (Utf8.Encode(order[i]) + [0] + Utf8.Encode(fileDigest) + [10]);
    }
    assert order[|order|..] == [] && fed + [] == fed;
    return Ok("sha256:" + Hex(sha(fed)));
  }

  lemma FramesStep(sha: Sha, t: Tree, order: seq<string>, i: nat)
    requires i < |order|
    ensures Frames(sha, t, order[i..]) ==
      match Read(t, order[i])
      case None => Raised(OSError)
      case Some(content) => After(Frame(sha, order[i], content), Frames(sha, t, order[i + 1..]))
  {
    assert order[i..][1..] == order[i + 1..] && order[i..][0] == order[i];
  }

  function After(fed: Bytes, r: Result<Bytes>): Result<Bytes> {
    match r case Raised(e) => Raised(e) case Ok(b) => Ok(fed + b)
  }

  lemma AfterNothing(r: Result<Bytes>)
    ensures After([], r) == r
  {
    if r.Ok? { assert [] + r.value == r.value; }
  }

  lemma AfterOne(fed: Bytes, frame: Bytes, r: Result<Bytes>)
    ensures After(fed, After(frame, r)) == After(fed + frame, r)
  {
    if r.Ok? { assert fed + (frame + r.value) == fed + frame + r.value; }
  }

  /** `_tree_digest`: every file under a directory. */
  function TreeDigest(sha: Sha, t: Tree): Result<string> { HashTree(sha, t, Paths(t)) }

  // ---- what is hashed ------------------------------------------------------------

  /** The files are hashed in ascending order of their paths, each exactly once. */
  lemma FilesAscend(t: Tree)
    requires NoRepeats(Paths(t))
    ensures var s := Sort(Le, Paths(t));
      multiset(s) == multiset(Paths(t)) && forall i, j :: 0 <= i < j < |s| ==> Before(s[i], s[j])
  {
    var s := Sort(Le, Paths(t));
    LeTotalPreorder();
    SortPermutesAndOrders(Le, Paths(t));
    forall i, j | 0 <= i < j < |s| ensures Before(s[i], s[j]) {
      LeIsBefore(s[i], s[j]);
      PermutationRepeatsNothing(Paths(t), s);
    }
  }

  lemma PermutationRepeatsNothing(a: seq<string>, b: seq<string>)
    requires NoRepeats(a) && multiset(a) == multiset(b)
    ensures NoRepeats(b)
  {
    forall i, j | 0 <= i < j < |b| ensures b[i] != b[j] {
      if b[i] == b[j] {
        assert b == b[..j] + [b[j]] + b[j + 1..] && b[i] in b[..j];
        assert multiset(b)[b[i]] >= 2;
        OnceOnly(a, b[i]);
      }
    }
  }

  lemma OnceOnly(a: seq<string>, x: string)
    requires NoRepeats(a)
    ensures multiset(a)[x] <= 1
  {
    if x in a {
      var p :| 0 <= p < |a| && a[p] == x;
      assert a == a[..p] + [a[p]] + a[p + 1..];
      assert x !in a[..p] && x !in a[p + 1..];
    }
  }

  /** The digest of a directory of two files, spelled out: for each its path, a zero byte, the digest of its content and a
      newline; `B` before `a`, however the walk lists them. */
  lemma TwoFilesGolden(sha: Sha, t: Tree, x: Bytes, y: Bytes)
    requires t == [File("a", x), File("B", y)]
    ensures TreeDigest(sha, t) == Ok("sha256:" + Hex(sha(
      ([66, 0] + Utf8.Encode("sha256:" + Hex(sha(y))) + [10]) + ([97, 0] + Utf8.Encode("sha256:" + Hex(sha(x))) + [10]))))
  {
    var a, b := "a", "B";
    assert t[1..] == [File(b, y)] && t[1..][1..] == [];
    assert Paths(t) == [a, b];
    SortTwo(a, b);
    TwoFrames(sha, t, a, b, x, y);
  }

  lemma SortTwo(a: string, b: string)
    requires !Le(a, b)
    ensures Sort(Le, [a, b]) == [b, a]
  {
    assert [a, b][1..] == [b] && [b][1..] == [];
    assert Sort(Le, [b]) == [b];
    assert Insert(Le, a, [b]) == [b] + Insert(Le, a, [b][1..]);
  }

  lemma TwoFrames(sha: Sha, t: Tree, a: string, b: string, x: Bytes, y: Bytes)
    requires a == "a" && b == "B" && Read(t, b) == Some(y) && Read(t, a) == Some(x)
    ensures Frames(sha, t, [b, a]) == Ok(
      ([66, 0] + Utf8.Encode("sha256:" + Hex(sha(y))) + [10]) + ([97, 0] + Utf8.Encode("sha256:" + Hex(sha(x))) + [10]))
  {
    Utf8.EncodeAscii(a);
    Utf8.EncodeAscii(b);
    assert Utf8.Encode(a) == [97] && Utf8.Encode(b) == [66];
    assert [b, a][1..] == [a] && [a][1..] == [];
    assert Frames(sha, t, [a]) == Ok(Frame(sha, a, x) + []);
    assert Frame(sha, a, x) + [] == Frame(sha, a, x);
    assert [97] + [0] == [97, 0] && [66] + [0] == [66, 0];
  }

  // ---- the framing is injective --------------------------------------------

  ghost predicate WellFormed(t: Tree) {
    NoRepeats(Paths(t)) && forall f :: f in t ==> '\0' !in f.path
  }

  /** Every byte string that computing the tree digest hashes. */
  ghost function Hashed(sha: Sha, t: Tree): set<Bytes> {
    (set f | f in t :: f.content) + (match Frames(sha, t, Sort(Le, Paths(t))) case Ok(b) => {b} case _ => {})
  }

  ghost predicate Collision(sha: Sha, xs: set<Bytes>, ys: set<Bytes>) {
    exists x, y :: x in xs && y in ys && x != y && sha(x) == sha(y)
  }

  lemma {:induction false} ReadFinds(t: Tree, i: nat)
    requires NoRepeats(Paths(t)) && i < |t|
    ensures Read(t, t[i].path) == Some(t[i].content)
  {
    if i > 0 {
      assert Paths(t)[0] != Paths(t)[i];
      assert forall k :: 0 <= k < |t| - 1 ==> Paths(t[1..])[k] == Paths(t)[k + 1];
      ReadFinds(t[1..], i - 1);
    }
  }

  lemma {:induction false} ReadIsMember(t: Tree, path: string)
    requires Read(t, path).Some?
    ensures File(path, Read(t, path).value) in t
  {
    if t[0].path != path { ReadIsMember(t[1..], path); }
  }

  /** The paths in digest order, each of them readable. */
  lemma SortedPaths(t: Tree)
    requires NoRepeats(Paths(t))
    ensures var s := Sort(Le, Paths(t));
      |s| == |t| && multiset(s) == multiset(Paths(t)) && forall p :: p in s ==> Read(t, p).Some?
  {
    LeTotalPreorder();
    SortPermutesAndOrders(Le, Paths(t));
    var s := Sort(Le, Paths(t));
    forall p | p in s ensures Read(t, p).Some? {
      assert p in multiset(Paths(t));
      var i :| 0 <= i < |t| && Paths(t)[i] == p;
      ReadFinds(t, i);
    }
  }

  lemma {:induction false} FramesOk(sha: Sha, t: Tree, files: seq<string>)
    requires forall p :: p in files ==> Read(t, p).Some?
    ensures Frames(sha, t, files).Ok?
  {
    if files != [] {
      assert files[0] in files && forall p :: p in files[1..] ==> p in files;
      FramesOk(sha, t, files[1..]);
    }
  }

  lemma {:induction false} FirstNul(p1: Bytes, p2: Bytes, r1: Bytes, r2: Bytes)
    requires 0 !in p1 && 0 !in p2 && p1 + [0] + r1 == p2 + [0] + r2
    ensures p1 == p2 && r1 == r2
  {
    var a, b := p1 + [0] + r1, p2 + [0] + r2;
    assert a[0] == if p1 == [] then 0 else p1[0];
    assert b[0] == if p2 == [] then 0 else p2[0];
    if p1 == [] {
      assert p2 == [];
      assert a[1..] == r1 && b[1..] == r2;
    } else {
      assert a[1..] == p1[1..] + [0] + r1 && b[1..] == p2[1..] + [0] + r2;
      FirstNul(p1[1..], p2[1..], r1, r2);
      assert p1 == [p1[0]] + p1[1..] && p2 == [p2[0]] + p2[1..];
    }
  }

  lemma DigestText(sha: Sha, content: Bytes)
    requires IsSha256(sha)
    ensures |Utf8.Encode(Digest(sha, content))| == 71
  {
    var d := Digest(sha, content);
    DigestComputed(sha, content);
    forall c | c in d ensures c as int < 0x80 {
      var i :| 0 <= i < |d| && d[i] == c;
      if i < 7 { assert c == d[..7][i]; }
    }
    Utf8.EncodeAscii(d);
  }

  lemma FrameInjective(sha: Sha, p1: string, c1: Bytes, rest1: Bytes, p2: string, c2: Bytes, rest2: Bytes)
    requires IsSha256(sha) && '\0' !in p1 && '\0' !in p2
    requires Frame(sha, p1, c1) + rest1 == Frame(sha, p2, c2) + rest2
    ensures p1 == p2 && sha(c1) == sha(c2) && rest1 == rest2
  {
    var e1, e2 := Utf8.Encode(p1), Utf8.Encode(p2);
    var d1, d2 := Utf8.Encode(Digest(sha, c1)), Utf8.Encode(Digest(sha, c2));
    var tail1, tail2 := d1 + [10] + rest1, d2 + [10] + rest2;
    Utf8.EncodeNulFree(p1);
    Utf8.EncodeNulFree(p2);
    assert Frame(sha, p1, c1) + rest1 == e1 + [0] + tail1;
    assert Frame(sha, p2, c2) + rest2 == e2 + [0] + tail2;
    FirstNul(e1, e2, tail1, tail2);
    Utf8.EncodeInjective(p1, p2);
    DigestText(sha, c1);
    DigestText(sha, c2);
    assert d1 == tail1[..71] && d2 == tail2[..71] && rest1 == tail1[72..] && rest2 == tail2[72..];
    Utf8.EncodeInjective(Digest(sha, c1), Digest(sha, c2));
    DigestInjective(sha, c1, c2);
  }

  /** Equal frames list the same paths, with contents whose digests agree. */
  lemma {:induction false} FramesInjective(sha: Sha, t1: Tree, s1: seq<string>, t2: Tree, s2: seq<string>)
    requires IsSha256(sha)
    requires forall p :: p in s1 ==> Read(t1, p).Some? && '\0' !in p
    requires forall p :: p in s2 ==> Read(t2, p).Some? && '\0' !in p
    requires Frames(sha, t1, s1) == Frames(sha, t2, s2)
    ensures s1 == s2
    ensures forall p :: p in s1 ==> Read(t2, p).Some? && sha(Read(t1, p).value) == sha(Read(t2, p).value)
  {
    FramesOk(sha, t1, s1);
    FramesOk(sha, t2, s2);
    if s1 != [] && s2 != [] {
      assert s1[0] in s1 && s2[0] in s2;
      assert forall p :: p in s1[1..] ==> p in s1;
      assert forall p :: p in s2[1..] ==> p in s2;
      FramesOk(sha, t1, s1[1..]);
      FramesOk(sha, t2, s2[1..]);
      FrameInjective(sha, s1[0], Read(t1, s1[0]).value, Frames(sha, t1, s1[1..]).value,
                     s2[0], Read(t2, s2[0]).value, Frames(sha, t2, s2[1..]).value);
      FramesInjective(sha, t1, s1[1..], t2, s2[1..]);
      assert s1 == [s1[0]] + s1[1..] && s2 == [s2[0]] + s2[1..];
    }
  }

  /** A directory always has a digest. */
  lemma TreeDigestOk(sha: Sha, t: Tree)
    requires IsSha256(sha) && NoRepeats(Paths(t))
    ensures TreeDigest(sha, t).Ok? && Computed(TreeDigest(sha, t).value)
  {
    SortedPaths(t);
    FramesOk(sha, t, Sort(Le, Paths(t)));
    DigestComputed(sha, Frames(sha, t, Sort(Le, Paths(t))).value);
  }

  /** Same digest: the same files with the same bytes, or two of the inputs just hashed collide. */
  lemma TreeDigestBinds(sha: Sha, t1: Tree, t2: Tree)
    requires IsSha256(sha) && WellFormed(t1) && WellFormed(t2)
    requires TreeDigest(sha, t1) == TreeDigest(sha, t2)
    ensures multiset(t1) == multiset(t2) || Collision(sha, Hashed(sha, t1), Hashed(sha, t2))
  {
    var s1, s2 := Sort(Le, Paths(t1)), Sort(Le, Paths(t2));
    SortedPaths(t1);
    SortedPaths(t2);
    FramesOk(sha, t1, s1);
    FramesOk(sha, t2, s2);
    var b1, b2 := Frames(sha, t1, s1).value, Frames(sha, t2, s2).value;
    DigestInjective(sha, b1, b2);
    if b1 == b2 {
      PathsNulFree(t1, s1);
      PathsNulFree(t2, s2);
      FramesInjective(sha, t1, s1, t2, s2);
      if !Collision(sha, Hashed(sha, t1), Hashed(sha, t2)) {
        forall f | f in t1 ensures f in t2 {
          var i :| 0 <= i < |t1| && t1[i] == f;
          ReadFinds(t1, i);
          assert Paths(t1)[i] in multiset(s1);
          var y := Read(t2, f.path).value;
          ReadIsMember(t2, f.path);
          assert f.content in Hashed(sha, t1) && y in Hashed(sha, t2);
        }
        NoRepeatedFiles(t1);
        SubsetOfSameLength(t1, t2);
      }
    } else {
      assert b1 in Hashed(sha, t1) && b2 in Hashed(sha, t2);
    }
  }

  lemma NoRepeatedFiles(t: Tree)
    requires NoRepeats(Paths(t))
    ensures NoRepeats(t)
  {
    forall i, j | 0 <= i < j < |t| ensures t[i] != t[j] {
      assert Paths(t)[i] != Paths(t)[j];
    }
  }

  lemma PathsNulFree(t: Tree, s: seq<string>)
    requires WellFormed(t) && multiset(s) == multiset(Paths(t))
    ensures forall p :: p in s ==> '\0' !in p
  {
    forall p | p in s ensures '\0' !in p {
      assert p in multiset(Paths(t));
      var i :| 0 <= i < |t| && Paths(t)[i] == p;
      assert t[i] in t;
    }
  }

  lemma {:induction false} FramesAgree(sha: Sha, t1: Tree, t2: Tree, files: seq<string>)
    requires forall p :: p in files ==> Read(t1, p) == Read(t2, p)
    ensures Frames(sha, t1, files) == Frames(sha, t2, files)
  {
    if files != [] {
      assert files[0] in files && forall p :: p in files[1..] ==> p in files;
      FramesAgree(sha, t1, t2, files[1..]);
    }
  }

  lemma PermutedReads(t1: Tree, t2: Tree)
    requires NoRepeats(Paths(t2)) && multiset(t1) == multiset(t2)
    ensures forall f :: f in t1 ==> Read(t2, f.path) == Some(f.content)
  {
    forall f | f in t1 ensures Read(t2, f.path) == Some(f.content) {
      assert f in multiset(t2);
      var i :| 0 <= i < |t2| && t2[i] == f;
      ReadFinds(t2, i);
    }
  }

  lemma PermutedPaths(t1: Tree, t2: Tree)
    requires NoRepeats(Paths(t1)) && multiset(t1) == multiset(t2)
    ensures multiset(Paths(t1)) == multiset(Paths(t2))
  {
    assert |t1| == |multiset(t1)| == |multiset(t2)| == |t2|;
    forall p | p in Paths(t1) ensures p in Paths(t2) {
      var i :| 0 <= i < |t1| && Paths(t1)[i] == p;
      assert t1[i] in multiset(t2);
      var j :| 0 <= j < |t2| && t2[j] == t1[i];
      assert Paths(t2)[j] == p;
    }
    SubsetOfSameLength(Paths(t1), Paths(t2));
  }

  lemma LeDistinguishes(s: seq<string>)
    ensures Distinguishes(Le, s)
  {
    forall i, j | 0 <= i < |s| && 0 <= j < |s| && Le(s[i], s[j]) && Le(s[j], s[i]) ensures s[i] == s[j] {
      LeAntisymmetric(s[i], s[j]);
    }
  }

  /** The digest does not depend on the order in which the walk lists the files. */
  lemma TreeDigestIgnoresOrder(sha: Sha, t1: Tree, t2: Tree)
    requires NoRepeats(Paths(t1)) && NoRepeats(Paths(t2)) && multiset(t1) == multiset(t2)
    ensures TreeDigest(sha, t1) == TreeDigest(sha, t2)
  {
    var s := Sort(Le, Paths(t1));
    assert s == Sort(Le, Paths(t2)) by {
      PermutedPaths(t1, t2);
      LeTotalPreorder();
      LeDistinguishes(Paths(t1));
      SortIgnoresOrder(Le, Paths(t1), Paths(t2));
    }
    forall p | p in s ensures Read(t1, p) == Read(t2, p) {
      SortedPaths(t1);
      ReadIsMember(t1, p);
      PermutedReads(t1, t2);
    }
    FramesAgree(sha, t1, t2, s);
  }
}
