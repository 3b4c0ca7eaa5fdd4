/** The line scanner that reads tool grants out of a skill manifest. The letters of `\w` are a parameter. */
module SkillScanner {
  import opened Prelude
  import opened Hashing

  type Word = char -> bool

  // ---- the regular expressions ----------------------------------------------

  /** `len(line) - len(line.lstrip())`. */
  function Lead(line: string): nat {
    StripLeftEnds(line);
    |line| - |StripLeft(line)|
  }

  /** Equality under `re.IGNORECASE` with a lower-case letter; the long s folds to `s`. */
  predicate Folds(c: char, letter: char) { c == letter || LowerChar(c) == letter || (letter == 's' && c == '\U{017F}') }

  /** What follows `name` at the start of `s`, letters compared without case. */
  function AfterName(s: string, name: string): Option<string> {
    if name == "" then Some(s)
    else if s != "" && Folds(s[0], name[0]) then AfterName(s[1..], name[1..])
    else None
  }

  /** `allowed[-_]tools|tools`. */
  function AfterKeyword(s: string): Option<string> {
    match AfterName(s, "allowed-tools")
    case Some(rest) => Some(rest)
    case None =>
      match AfterName(s, "allowed_tools")
      case Some(rest) => Some(rest)
      case None => AfterName(s, "tools")
  }

  /** A line `^(\s*)(allowed[-_]tools|tools)\s*:\s*(.*)$`: its indent and its value. */
  datatype Key = Key(indent: nat, value: string)

  function KeyOf(line: string): Option<Key> {
    match AfterKeyword(StripLeft(line))
    case None => None
    case Some(rest) =>
      var r := StripLeft(rest);
      if r != "" && r[0] == ':' then Some(Key(Lead(line), StripLeft(r[1..]))) else None
  }

  /** Everything before the first run of white space that a `#` follows. */
  function DropComment(s: string): string {
    if s == "" then ""
    else if IsSpace(s[0]) && StripLeft(s) != "" && StripLeft(s)[0] == '#' then ""
    else [s[0]] + DropComment(s[1..])
  }

  /** `^[|>][0-9+-]*$`. */
  predicate BlockScalar(s: string) {
    s != "" && (s[0] == '|' || s[0] == '>')
    && forall i :: 1 <= i < |s| ==> '0' <= s[i] <= '9' || s[i] == '+' || s[i] == '-'
  }

  /** `^-\s+` removed. */
  function DropMarker(s: string): string {
    if |s| >= 2 && s[0] == '-' && IsSpace(s[1]) then StripLeft(s[1..]) else s
  }

  function TrimLeft(s: string, chars: string): string { if s != "" && s[0] in chars then TrimLeft(s[1..], chars) else s }

  function TrimRight(s: string, chars: string): string {
    if s != "" && s[|s| - 1] in chars then TrimRight(s[..|s| - 1], chars) else s
  }

  /** `strip(chars)`. */
  function Trim(s: string, chars: string): string { TrimRight(TrimLeft(s, chars), chars) }

  predicate Separator(c: char) { c == ',' || c == ':' || IsSpace(c) }

  /** `re.split(r"[,\s:]+", s)`, the empty pieces among the rest. */
  function Pieces(s: string): (r: seq<string>)
    ensures r != []
  {
    if s == "" then [""]
    else
      var rest := Pieces(s[1..]);
      if Separator(s[0]) then [""] + rest else [[s[0]] + rest[0]] + rest[1..]
  }

  predicate Telling(piece: string, word: Word) { exists i :: 0 <= i < |piece| && (word(piece[i]) || piece[i] == '*') }

  function Keep(pieces: seq<string>, word: Word): seq<string> {
    if pieces == [] then []
    else (if Telling(pieces[0], word) then [pieces[0]] else []) + Keep(pieces[1..], word)
  }

  function Tokens(s: string, word: Word): seq<string> { Keep(Pieces(s), word) }

  /** `_split_tokens`. */
  function SplitTokens(value: string, word: Word): seq<string> {
    Tokens(Trim(Strip(DropComment(value)), "[]"), word)
  }

  // ---- what the expressions match -----------------------------------------------

  predicate Spaces(s: string) { forall i :: 0 <= i < |s| ==> IsSpace(s[i]) }

  predicate FoldsTo(s: string, name: string) { |s| == |name| && forall i :: 0 <= i < |s| ==> Folds(s[i], name[i]) }

  predicate Keyword(s: string) { FoldsTo(s, "allowed-tools") || FoldsTo(s, "allowed_tools") || FoldsTo(s, "tools") }

  lemma {:induction false} AfterNameIs(s: string, name: string)
    ensures AfterName(s, name).Some? <==> |name| <= |s| && FoldsTo(s[..|name|], name)
    ensures AfterName(s, name).Some? ==> AfterName(s, name).value == s[|name|..]
  {
    if name != "" && s != "" {
      AfterNameIs(s[1..], name[1..]);
      if |name| <= |s| {
        assert s[..|name|] == [s[0]] + s[1..][..|name| - 1];
        assert forall i :: 0 <= i < |name| - 1 ==>
          s[1..][..|name| - 1][i] == s[..|name|][i + 1] && name[1..][i] == name[i + 1];
        assert forall i :: 1 <= i < |name| ==>
          s[..|name|][i] == s[1..][..|name| - 1][i - 1] && name[i] == name[1..][i - 1];
      }
    }
  }

  lemma {:induction false} StripLeftOf(w: string, rest: string)
    requires Spaces(w) && (rest == "" || !IsSpace(rest[0]))
    ensures StripLeft(w + rest) == rest
  {
    if w == "" {
      assert w + rest == rest;
    } else {
      assert (w + rest)[1..] == w[1..] + rest;
      StripLeftOf(w[1..], rest);
    }
  }

  lemma {:induction false} StripLeftTaken(s: string) returns (w: string)
    ensures Spaces(w) && s == w + StripLeft(s) && |w| == |s| - |StripLeft(s)|
    ensures StripLeft(s) == "" || !IsSpace(StripLeft(s)[0])
  {
    if s != "" && IsSpace(s[0]) {
      var u := StripLeftTaken(s[1..]);
      w := [s[0]] + u;
      assert s == [s[0]] + s[1..];
    } else {
      w := "";
      assert s == w + s;
    }
  }

  lemma KeywordStart(kw: string, rest: string)
    requires Keyword(kw)
    ensures AfterKeyword(kw + rest) == Some(rest) && kw != "" && !IsSpace(kw[0])
  {
    var s := kw + rest;
    assert s[..|kw|] == kw && s[|kw|..] == rest;
    AfterNameIs(s, "allowed-tools");
    AfterNameIs(s, "allowed_tools");
    AfterNameIs(s, "tools");
    assert Folds(kw[0], 'a') || Folds(kw[0], 't');
    if FoldsTo(kw, "tools") {
      assert Folds(kw[0], 't');
      if |s| >= 13 { assert s[..13][0] == kw[0]; }
    }
  }

  /** The line matches `^(\s*)(allowed[-_]tools|tools)\s*:\s*(.*)$`, letters compared without case, and `k` is its first and
      last group. */
  ghost predicate MatchesKey(line: string, k: Key) {
    exists w1, kw, w2, w3 ::
      && Spaces(w1) && Keyword(kw) && Spaces(w2) && Spaces(w3) && (k.value == "" || !IsSpace(k.value[0]))
      && line == w1 + (kw + (w2 + (":" + (w3 + k.value)))) && |w1| == k.indent
  }

  /** A key is found exactly on the lines that match, with the groups of the match. */
  lemma KeyOfMatches(line: string, k: Key)
    ensures KeyOf(line) == Some(k) <==> MatchesKey(line, k)
  {
    if KeyOf(line) == Some(k) { KeyOfSound(line, k); }
    if MatchesKey(line, k) { KeyOfComplete(line, k); }
  }

  lemma KeyOfComplete(line: string, k: Key)
    requires MatchesKey(line, k)
    ensures KeyOf(line) == Some(k)
  {
    var w1, kw, w2, w3 :|
      && Spaces(w1) && Keyword(kw) && Spaces(w2) && Spaces(w3) && (k.value == "" || !IsSpace(k.value[0]))
      && line == w1 + (kw + (w2 + (":" + (w3 + k.value)))) && |w1| == k.indent;
    KeyOfParts(w1, kw, w2, w3, k.value, ":" + (w3 + k.value));
  }

  lemma KeyOfParts(w1: string, kw: string, w2: string, w3: string, value: string, tail: string)
    requires Spaces(w1) && Keyword(kw) && Spaces(w2) && Spaces(w3) && (value == "" || !IsSpace(value[0]))
    requires tail == ":" + (w3 + value)
    ensures KeyOf(w1 + (kw + (w2 + tail))) == Some(Key(|w1|, value))
  {
    var rest := w2 + tail;
    var mid := kw + rest;
    KeywordStart(kw, rest);
    StripLeftOf(w1, mid);
    StripLeftOf(w2, tail);
    TailOf(w3, value, tail);
    KeyOfSteps(w1 + mid, mid, rest, tail, value);
  }

  lemma TailOf(w3: string, value: string, tail: string)
    requires Spaces(w3) && (value == "" || !IsSpace(value[0])) && tail == ":" + (w3 + value)
    ensures tail != "" && tail[0] == ':' && !IsSpace(tail[0]) && StripLeft(tail[1..]) == value
  {
    assert tail[1..] == w3 + value;
    StripLeftOf(w3, value);
  }

  lemma KeyOfSteps(line: string, mid: string, rest: string, tail: string, value: string)
    requires StripLeft(line) == mid && AfterKeyword(mid) == Some(rest) && StripLeft(rest) == tail
    requires tail != "" && tail[0] == ':' && StripLeft(tail[1..]) == value && |mid| <= |line|
    ensures KeyOf(line) == Some(Key(|line| - |mid|, value))
  {
  }

  lemma KeywordTaken(s: string) returns (kw: string)
    requires AfterKeyword(s).Some?
    ensures Keyword(kw) && s == kw + AfterKeyword(s).value
  {
    AfterNameIs(s, "allowed-tools");
    AfterNameIs(s, "allowed_tools");
    AfterNameIs(s, "tools");
    kw := s[..|s| - |AfterKeyword(s).value|];
  }

  lemma KeyOfSound(line: string, k: Key)
    requires KeyOf(line) == Some(k)
    ensures MatchesKey(line, k)
  {
    var mid := StripLeft(line);
    var rest := AfterKeyword(mid).value;
    var tail := StripLeft(rest);
    var w1 := StripLeftTaken(line);
    var kw := KeywordTaken(mid);
    var w2 := StripLeftTaken(rest);
    var w3 := StripLeftTaken(tail[1..]);
    assert tail == ":" + (w3 + k.value) by { assert tail == ":" + tail[1..]; }
    PartsMatch(line, k, w1, kw, w2, w3);
  }

  lemma PartsMatch(line: string, k: Key, w1: string, kw: string, w2: string, w3: string)
    requires Spaces(w1) && Keyword(kw) && Spaces(w2) && Spaces(w3) && (k.value == "" || !IsSpace(k.value[0]))
    requires line == w1 + (kw + (w2 + (":" + (w3 + k.value)))) && |w1| == k.indent
    ensures MatchesKey(line, k)
  {
  }

  /** A comment starts at `i`: white space up to a `#`. */
  ghost predicate CommentAt(s: string, i: nat) {
    exists j :: i < j < |s| && s[j] == '#' && forall k :: i <= k < j ==> IsSpace(s[k])
  }

  /** What is dropped is everything from the first comment on. */
  lemma {:induction false} DropCommentIs(s: string)
    ensures var n := |DropComment(s)|;
      && n <= |s| && DropComment(s) == s[..n] && (n < |s| ==> CommentAt(s, n))
      && forall i :: 0 <= i < n ==> !CommentAt(s, i)
  {
    if s != "" {
      CommentHere(s);
      if !(IsSpace(s[0]) && StripLeft(s) != "" && StripLeft(s)[0] == '#') {
        DropCommentIs(s[1..]);
        var n := |DropComment(s)|;
        assert s[..n] == [s[0]] + s[1..][..n - 1];
        if n < |s| {
          var j :| n - 1 < j < |s| - 1 && s[1..][j] == '#' && forall k :: n - 1 <= k < j ==> IsSpace(s[1..][k]);
          forall k | n <= k < j + 1 ensures IsSpace(s[k]) {
            assert s[k] == s[1..][k - 1];
          }
          assert s[j + 1] == '#';
        }
        forall i | 0 <= i < n ensures !CommentAt(s, i) {
          if i > 0 { CommentShifts(s, i); }
        }
      }
    }
  }

  lemma CommentShifts(s: string, i: nat)
    requires s != "" && 0 < i
    ensures CommentAt(s, i) ==> CommentAt(s[1..], i - 1)
  {
    if CommentAt(s, i) {
      var j :| i < j < |s| && s[j] == '#' && forall k :: i <= k < j ==> IsSpace(s[k]);
      forall k | i - 1 <= k < j - 1 ensures IsSpace(s[1..][k]) {
        assert s[1..][k] == s[k + 1];
      }
      assert s[1..][j - 1] == '#';
    }
  }

  lemma CommentHere(s: string)
    requires s != ""
    ensures CommentAt(s, 0) <==> IsSpace(s[0]) && StripLeft(s) != "" && StripLeft(s)[0] == '#'
  {
    var w := StripLeftTaken(s);
    var n := |w|;
    assert forall k :: 0 <= k < n ==> s[k] == w[k];
    if n < |s| { assert s[n] == StripLeft(s)[0]; }
    if CommentAt(s, 0) {
      var j :| 0 < j < |s| && s[j] == '#' && forall k :: 0 <= k < j ==> IsSpace(s[k]);
      assert j == n;
    }
  }

  /** Splitting loses no telling character: wherever one stands between separators, the piece around it is kept. */
  lemma {:induction false} PiecesHold(s: string, i: nat)
    requires i < |s| && !Separator(s[i])
    ensures exists p :: p in Pieces(s) && s[i] in p
    ensures i == 0 ==> s[i] in Pieces(s)[0]
  {
    var rest := Pieces(s[1..]);
    if i > 0 {
      PiecesHold(s[1..], i - 1);
      var p :| p in rest && s[i] in p;
      if Separator(s[0]) {
        assert p in Pieces(s);
      } else if p == rest[0] {
        assert s[i] in [s[0]] + rest[0] && Pieces(s)[0] == [s[0]] + rest[0];
      } else {
        var q :| 0 <= q < |rest| && rest[q] == p;
        assert Pieces(s)[q] == p;
      }
    } else {
      assert Pieces(s)[0] == [s[0]] + rest[0] && Pieces(s)[0][0] == s[0];
      assert Pieces(s)[0] in Pieces(s);
    }
  }

  /** Letters are compared without case: each with its capital, and `s` with the long s. */
  lemma FoldsIs(c: char, i: nat)
    requires i < 26
    ensures Folds(c, SMALLS[i]) <==> c == SMALLS[i] || c == CAPITALS[i] || (SMALLS[i] == 's' && c == '\U{017F}')
    ensures (Folds(c, '-') <==> c == '-') && (Folds(c, '_') <==> c == '_')
  {
    LettersAre(i);
  }

  // ---- what splitting and stripping do --------------------------------------------

  /** A text without separators is one piece, and a separator between two texts splits them. */
  lemma {:induction false} RunIsOnePiece(s: string)
    requires forall i :: 0 <= i < |s| ==> !Separator(s[i])
    ensures Pieces(s) == [s]
  {
    if s != "" {
      RunIsOnePiece(s[1..]);
      assert [s[0]] + s[1..] == s && [s[1..]][1..] == [];
    }
  }

  lemma {:induction false} SeparatorSplits(a: string, c: char, b: string)
    requires Separator(c)
    ensures Pieces(a + [c] + b) == Pieces(a) + Pieces(b)
  {
    var s := a + [c] + b;
    if a == "" {
      assert s[1..] == b;
    } else {
      assert s[1..] == a[1..] + [c] + b;
      SeparatorSplits(a[1..], c, b);
      assert s[0] == a[0];
      PutBefore(a[0], Pieces(a[1..]), Pieces(b));
    }
  }

  lemma PutBefore(c: char, x: seq<string>, y: seq<string>)
    requires x != []
    ensures [""] + (x + y) == [""] + x + y
    ensures [[c] + (x + y)[0]] + (x + y)[1..] == [[c] + x[0]] + x[1..] + y
  {
    assert (x + y)[1..] == x[1..] + y;
  }

  lemma {:induction false} KeepConcat(a: seq<string>, b: seq<string>, word: Word)
    ensures Keep(a + b, word) == Keep(a, word) + Keep(b, word)
  {
    if a == [] {
      assert a + b == b;
    } else {
      assert (a + b)[1..] == a[1..] + b;
      KeepConcat(a[1..], b, word);
    }
  }

  /** A text is cut at commas, colons and white space, and of the pieces those are kept that hold a word character or a
      wildcard, in order. */
  lemma TokensSplit(a: string, c: char, b: string, word: Word)
    ensures c == ',' || c == ':' || IsSpace(c) ==> Tokens(a + [c] + b, word) == Tokens(a, word) + Tokens(b, word)
    ensures (forall i :: 0 <= i < |a| ==> !IsSpace(a[i]) && a[i] != ',' && a[i] != ':') ==>
      Tokens(a, word) == if exists k :: 0 <= k < |a| && (word(a[k]) || a[k] == '*') then [a] else []
  {
    if Separator(c) {
      SeparatorSplits(a, c, b);
      KeepConcat(Pieces(a), Pieces(b), word);
    }
    if forall i :: 0 <= i < |a| ==> !IsSpace(a[i]) && a[i] != ',' && a[i] != ':' {
      RunIsOnePiece(a);
      assert [a][1..] == [];
      assert Keep([a], word) == if Telling(a, word) then [a] else [];
    }
  }

  predicate AllIn(s: string, chars: string) { forall i :: 0 <= i < |s| ==> s[i] in chars }

  /** Trimming takes characters off both ends as long as they are among those named. */
  lemma TrimIs(s: string, chars: string) returns (a: string, b: string)
    ensures s == a + Trim(s, chars) + b && AllIn(a, chars) && AllIn(b, chars)
    ensures var t := Trim(s, chars); t == "" || (t[0] !in chars && t[|t| - 1] !in chars)
  {
    a := TrimLeftTaken(s, chars);
    b := TrimRightTaken(TrimLeft(s, chars), chars);
  }

  lemma {:induction false} TrimLeftTaken(s: string, chars: string) returns (a: string)
    ensures s == a + TrimLeft(s, chars) && AllIn(a, chars)
    ensures TrimLeft(s, chars) == "" || TrimLeft(s, chars)[0] !in chars
  {
    if s != "" && s[0] in chars {
      a := TrimLeftTaken(s[1..], chars);
      a := [s[0]] + a;
      assert s == [s[0]] + s[1..];
    } else {
      a := "";
      assert s == a + s;
    }
  }

  lemma {:induction false} TrimRightTaken(s: string, chars: string) returns (b: string)
    ensures s == TrimRight(s, chars) + b && AllIn(b, chars)
    ensures var t := TrimRight(s, chars); t == "" || (t[|t| - 1] !in chars && t[0] == s[0])
  {
    if s != "" && s[|s| - 1] in chars {
      b := TrimRightTaken(s[..|s| - 1], chars);
      b := b + [s[|s| - 1]];
      assert s == s[..|s| - 1] + [s[|s| - 1]];
    } else {
      b := "";
      assert s == s + b;
    }
  }

  /** A list marker is a dash with white space after it, and goes with that white space. */
  lemma MarkerIs(w: string, rest: string)
    requires Spaces(w) && (rest == "" || !IsSpace(rest[0]))
    ensures w != "" ==> DropMarker("-" + w + rest) == rest
    ensures w == "" ==> DropMarker("-" + w + rest) == "-" + rest
  {
    StripLeftOf(w, rest);
    assert ("-" + w + rest)[1..] == w + rest;
    if w != "" { assert ("-" + w + rest)[1] == w[0]; }
  }

  lemma {:induction false} KeepHolds(pieces: seq<string>, word: Word, p: string)
    requires p in pieces && Telling(p, word)
    ensures p in Keep(pieces, word)
  {
    if pieces[0] != p { KeepHolds(pieces[1..], word, p); }
  }

  /** A wildcard that is neither in a comment nor outside the brackets survives as part of a token. */
  lemma StarSurvives(value: string, word: Word)
    requires '*' in Trim(Strip(DropComment(value)), "[]")
    ensures exists t :: t in SplitTokens(value, word) && '*' in t
  {
    var s := Trim(Strip(DropComment(value)), "[]");
    var i :| 0 <= i < |s| && s[i] == '*';
    PiecesHold(s, i);
    var p :| p in Pieces(s) && s[i] in p;
    KeepHolds(Pieces(s), word, p);
  }

  // ---- one line ----------------------------------------------------------------

  /** A tools key has its value on its own line, or in the block below. */
  datatype Role = NotKey | InlineKey(tokens: seq<string>) | BlockKey(indent: nat)

  /** What the scanner makes of a line: as a key, and as part of a block. */
  datatype Line = Line(role: Role, blank: bool, lead: nat, body: seq<string>)

  function RoleOf(line: string, word: Word): Role {
    match KeyOf(line)
    case None => NotKey
    case Some(k) =>
      var inline := Strip(DropComment(k.value));
      if inline != "" && !BlockScalar(inline) then InlineKey(SplitTokens(inline, word)) else BlockKey(k.indent)
  }

  function Read(line: string, word: Word): Line {
    var blank := Strip(line) == "";
    Line(RoleOf(line, word), blank, Lead(line), if blank then [] else SplitTokens(DropMarker(Strip(line)), word))
  }

  /** A line of white space is blank and contributes nothing; any other stands as deep as the white space before it, and a
      list marker on it does not count. */
  lemma LineIs(w1: string, text: string, word: Word)
    requires Spaces(w1) && (text == "" || (!IsSpace(text[0]) && !IsSpace(text[|text| - 1])))
    ensures var line := Read(w1 + text, word);
      && (line.blank <==> text == "") && line.lead == |w1|
      && line.body == if text == "" then [] else SplitTokens(DropMarker(text), word)
  {
    StripLeftOf(w1, text);
    if text == "" { assert w1 + text == w1; }
  }

  /** A key with no value, or with nothing but a comment, opens a block exactly when it has no value: the expression eats
      the white space before the comment, so the comment is the key's inline value. */
  lemma CommentIsInline(line: string, k: Key, word: Word)
    requires KeyOf(line) == Some(k) && (k.value == "" || k.value[0] == '#')
    ensures RoleOf(line, word).BlockKey? <==> k.value == ""
  {
    if k.value != "" {
      var kept := DropComment(k.value);
      assert kept[0] == '#';
      StripLeftOf("", kept);
      assert "" + kept == kept;
      FirstSurvives(kept);
    }
  }

  lemma {:induction false} FirstSurvives(s: string)
    requires s != "" && !IsSpace(s[0])
    ensures StripRight(s) != "" && StripRight(s)[0] == s[0]
  {
    if IsSpace(s[|s| - 1]) { FirstSurvives(s[..|s| - 1]); }
  }

  type Reader = string -> Line

  /** The reader the scanner uses. */
  function RegexReader(word: Word): Reader { line => Read(line, word) }

  function ReadAll(lines: seq<string>, read: Reader): (r: seq<Line>)
    ensures |r| == |lines| && forall i :: 0 <= i < |lines| ==> r[i] == read(lines[i])
  {
    seq(|lines|, i requires 0 <= i < |lines| => read(lines[i]))
  }

  // ---- the scanner -----------------------------------------------------------

  /** The scan from a line that may be a key. */
  function Scan(lines: seq<Line>): seq<string>
    decreases |lines|, 0
  {
    if lines == [] then []
    else match lines[0].role
      case NotKey => Scan(lines[1..])
      case InlineKey(tokens) => tokens + Scan(lines[1..])
      case BlockKey(indent) => ScanBlock(lines[1..], indent)
  }

  /** The scan inside a block; the line that ends it is looked at again. */
  function ScanBlock(lines: seq<Line>, indent: nat): seq<string>
    decreases |lines|, 1
  {
    if lines == [] then []
    else if lines[0].blank then ScanBlock(lines[1..], indent)
    else if lines[0].lead <= indent then Scan(lines)
    else lines[0].body + ScanBlock(lines[1..], indent)
  }

  function Clean(tokens: seq<string>): seq<string> {
    if tokens == [] then []
    else (if Strip(tokens[0]) == "" then [] else [Trim(Strip(tokens[0]), "\"'")]) + Clean(tokens[1..])
  }

  /** Tokens lose the white space and then the quotes around them; blank ones go. */
  lemma {:induction false} CleanIs(tokens: seq<string>)
    ensures (forall t :: t in tokens ==> Strip(t) != "") ==>
      |Clean(tokens)| == |tokens|
      && forall i :: 0 <= i < |tokens| ==> Clean(tokens)[i] == Trim(Strip(tokens[i]), "\"'")
    ensures forall u :: u in Clean(tokens) ==> u == "" || (u[0] !in "\"'" && u[|u| - 1] !in "\"'")
  {
    if tokens != [] {
      assert tokens[0] in tokens && forall t :: t in tokens[1..] ==> t in tokens;
      CleanIs(tokens[1..]);
      var a, b := TrimIs(Strip(tokens[0]), "\"'");
    }
  }

  /** No granted tool has a quote at either end. */
  lemma GrantsAreBare(lines: seq<string>, read: Reader)
    ensures forall u :: u in Granted(lines, read) ==> u == "" || (u[0] !in "\"'" && u[|u| - 1] !in "\"'")
  {
    CleanIs(Scan(ReadAll(lines, read)));
  }

  /** The tools a manifest grants. */
  function Granted(lines: seq<string>, read: Reader): seq<string> { Clean(Scan(ReadAll(lines, read))) }

  /** `_granted_tools`, on the lines of the front matter. */
  method GrantedTools(lines: seq<string>, word: Word) returns (tools: seq<string>)
    ensures tools == Granted(lines, RegexReader(word))
  {
    tools := ScanLines(lines, RegexReader(word));
  }

  /** The nested loops over `i`. */
  method ScanLines(lines: seq<string>, read: Reader) returns (tools: seq<string>)
    ensures tools == Granted(lines, read)
  {
    var found: seq<string> := [];
    var i := 0;
    ghost var all := ReadAll(lines, read);
    assert all[0..] == all;
    while i < |lines|
      invariant 0 <= i <= |lines|
      invariant Scan(all) == found + Scan(all[i..])
    {
      assert all[i..][1..] == all[i + 1..];
      var line := read(lines[i]);
      match line.role {
        case NotKey =>
          i := i + 1;
        case InlineKey(tokens) =>
          assert found + (tokens + Scan(all[i + 1..])) == found + tokens + Scan(all[i + 1..]);
          found := found + tokens;
          i := i + 1;
        case BlockKey(indent) =>
          found, i := ScanBody(lines, i + 1, indent, found, read);
      }
    }
    assert found + [] == found;
    tools := Clean(found);
  }

  /** The inner loop: it stops at the line that is not part of the block, without consuming it. */
  method ScanBody(lines: seq<string>, start: nat, indent: nat, before: seq<string>, read: Reader)
      returns (found: seq<string>, i: nat)
    requires start <= |lines|
    ensures start <= i <= |lines|
    ensures var all := ReadAll(lines, read); before + ScanBlock(all[start..], indent) == found + Scan(all[i..])
  {
    found, i := before, start;
    ghost var all := ReadAll(lines, read);
    while i < |lines|
      invariant start <= i <= |lines|
      invariant before + ScanBlock(all[start..], indent) == found + ScanBlock(all[i..], indent)
    {
      assert all[i..][1..] == all[i + 1..];
      var inner := read(lines[i]);
      if inner.blank {
        i := i + 1;
        continue;
      }
      if inner.lead <= indent {
        return;
      }
      assert found + (inner.body + ScanBlock(all[i + 1..], indent)) == found + inner.body + ScanBlock(all[i + 1..], indent);
      found := found + inner.body;
      i := i + 1;
    }
  }

  // ---- each line has one role ------------------------------------------------

  predicate Deeper(line: Line, indent: nat) { line.blank || line.lead > indent }

  /** Line `k` does not end the block opened by line `j`. */
  predicate Inside(lines: seq<Line>, j: nat, k: nat)
    requires j < |lines| && k < |lines|
  {
    lines[j].role.BlockKey? && Deeper(lines[k], lines[j].role.indent)
  }

  /** Line `j`, itself in no block, opens one, and no line after it and before `k` ends it. */
  ghost predicate Opened(lines: seq<Line>, j: nat, k: nat)
    requires j < k <= |lines|
    decreases j, 1
  {
    !Covered(lines, j) && lines[j].role.BlockKey? && forall m :: j < m < k ==> Inside(lines, j, m)
  }

  /** Line `k` is part of a block. */
  ghost predicate Covered(lines: seq<Line>, k: nat)
    requires k < |lines|
    decreases k, 0
  {
    exists j :: 0 <= j < k && Opened(lines, j, k) && Inside(lines, j, k)
  }

  /** What line `k` contributes, by its place alone. */
  ghost function TokensAt(lines: seq<Line>, k: nat): seq<string>
    requires k < |lines|
  {
    if Covered(lines, k) then (if lines[k].blank then [] else lines[k].body)
    else match lines[k].role
      case InlineKey(tokens) => tokens
      case _ => []
  }

  ghost function TokensFrom(lines: seq<Line>, k: nat): seq<string>
    requires k <= |lines|
    decreases |lines| - k
  {
    if k == |lines| then [] else TokensAt(lines, k) + TokensFrom(lines, k + 1)
  }

  /** The opener of the block that is open just before line `k`, if any. */
  function OpenAt(lines: seq<Line>, k: nat): (r: Option<nat>)
    requires k <= |lines|
    ensures r.Some? ==> r.value < k && lines[r.value].role.BlockKey?
  {
    if k == 0 then None
    else match OpenAt(lines, k - 1)
      case Some(j) =>
        if Inside(lines, j, k - 1) then Some(j) else if lines[k - 1].role.BlockKey? then Some(k - 1) else None
      case None => if lines[k - 1].role.BlockKey? then Some(k - 1) else None
  }

  /** The open block is the one that a line in no block opened and that nothing since has ended. */
  lemma {:induction false} OpenAtIs(lines: seq<Line>, k: nat)
    requires k <= |lines|
    ensures OpenAt(lines, k).Some? ==> Opened(lines, OpenAt(lines, k).value, k)
    ensures forall j :: 0 <= j < k && Opened(lines, j, k) ==> OpenAt(lines, k) == Some(j)
  {
    if k > 0 {
      OpenAtIs(lines, k - 1);
      CoveredIsOpen(lines, k - 1);
      forall j | 0 <= j < k && Opened(lines, j, k) ensures OpenAt(lines, k) == Some(j) {
        if j < k - 1 {
          assert Opened(lines, j, k - 1);
          assert Inside(lines, j, k - 1);
        }
      }
      OpenedStep(lines, k);
    }
  }

  lemma OpenedStep(lines: seq<Line>, k: nat)
    requires 0 < k <= |lines| && (OpenAt(lines, k - 1).Some? ==> Opened(lines, OpenAt(lines, k - 1).value, k - 1))
    requires Covered(lines, k - 1) <==> OpenAt(lines, k - 1).Some? && Inside(lines, OpenAt(lines, k - 1).value, k - 1)
    ensures OpenAt(lines, k).Some? ==> Opened(lines, OpenAt(lines, k).value, k)
  {
  }

  lemma CoveredIsOpen(lines: seq<Line>, k: nat)
    requires k < |lines| && (OpenAt(lines, k).Some? ==> Opened(lines, OpenAt(lines, k).value, k))
    requires forall j :: 0 <= j < k && Opened(lines, j, k) ==> OpenAt(lines, k) == Some(j)
    ensures Covered(lines, k) <==> OpenAt(lines, k).Some? && Inside(lines, OpenAt(lines, k).value, k)
  {
  }

  /** The scan from line `k` on, in the state the lines above leave. */
  function ScanAt(lines: seq<Line>, k: nat): seq<string>
    requires k <= |lines|
  {
    match OpenAt(lines, k)
    case None => Scan(lines[k..])
    case Some(j) => ScanBlock(lines[k..], lines[j].role.indent)
  }

  lemma {:induction false} ScanAtIsTokens(lines: seq<Line>, k: nat)
    requires k <= |lines|
    ensures ScanAt(lines, k) == TokensFrom(lines, k)
    decreases |lines| - k
  {
    if k < |lines| {
      ScanStep(lines, k);
      ScanAtIsTokens(lines, k + 1);
      TokensStep(lines, k);
    } else {
      ScanAtEnd(lines);
    }
  }

  lemma TokensStep(lines: seq<Line>, k: nat)
    requires k < |lines|
    ensures TokensFrom(lines, k) == TokensAt(lines, k) + TokensFrom(lines, k + 1)
  {
  }

  lemma ScanAtEnd(lines: seq<Line>)
    ensures ScanAt(lines, |lines|) == []
  {
    assert lines[|lines|..] == [];
  }

  lemma ScanStep(lines: seq<Line>, k: nat)
    requires k < |lines|
    ensures ScanAt(lines, k) == TokensAt(lines, k) + ScanAt(lines, k + 1)
  {
    OpenAtIs(lines, k);
    CoveredIsOpen(lines, k);
    assert lines[k..][0] == lines[k] && lines[k..][1..] == lines[k + 1..];
    if !Covered(lines, k) { UncoveredScans(lines, k); }
  }

  /** A line in no block is scanned as a key, whether or not it has just ended a block. */
  lemma UncoveredScans(lines: seq<Line>, k: nat)
    requires k < |lines| && !(OpenAt(lines, k).Some? && Inside(lines, OpenAt(lines, k).value, k))
    ensures ScanAt(lines, k) == Scan(lines[k..])
    ensures ScanAt(lines, k + 1) ==
      if lines[k].role.BlockKey? then ScanBlock(lines[k + 1..], lines[k].role.indent) else Scan(lines[k + 1..])
  {
    assert lines[k..][0] == lines[k];
  }

  /** The nested loops give every line one place, in a block or not, and collect what the places contribute, in order;
      the line that ends a block is judged afresh. */
  lemma ScanIsByLine(lines: seq<Line>)
    ensures Scan(lines) == TokensFrom(lines, 0)
  {
    ScanAtIsTokens(lines, 0);
    assert lines[0..] == lines;
  }

  // ---- appended lines hide nothing --------------------------------------------

  lemma {:induction false} ScanPrefix(lines: seq<Line>, more: seq<Line>)
    ensures Scan(lines) <= Scan(lines + more)
    decreases |lines|, 0
  {
    if lines != [] {
      assert (lines + more)[0] == lines[0] && (lines + more)[1..] == lines[1..] + more;
      match lines[0].role
      case NotKey => ScanPrefix(lines[1..], more);
      case InlineKey(_) => ScanPrefix(lines[1..], more);
      case BlockKey(indent) => ScanBlockPrefix(lines[1..], more, indent);
    }
  }

  lemma {:induction false} ScanBlockPrefix(lines: seq<Line>, more: seq<Line>, indent: nat)
    ensures ScanBlock(lines, indent) <= ScanBlock(lines + more, indent)
    decreases |lines|, 1
  {
    if lines != [] {
      assert (lines + more)[0] == lines[0] && (lines + more)[1..] == lines[1..] + more;
      if lines[0].blank || lines[0].lead > indent { ScanBlockPrefix(lines[1..], more, indent); }
      else { ScanPrefix(lines, more); }
    }
  }

  lemma {:induction false} CleanPrefix(a: seq<string>, b: seq<string>)
    requires a <= b
    ensures Clean(a) <= Clean(b)
  {
    if a != [] {
      assert a[1..] <= b[1..] by { assert b == a + b[|a|..]; }
      CleanPrefix(a[1..], b[1..]);
    }
  }

  /** What a list of lines grants, any longer list still grants, first and in the same order. */
  lemma MoreLinesGrantMore(lines: seq<string>, more: seq<string>, read: Reader)
    ensures Granted(lines, read) <= Granted(lines + more, read)
  {
    assert ReadAll(lines + more, read) == ReadAll(lines, read) + ReadAll(more, read);
    ScanPrefix(ReadAll(lines, read), ReadAll(more, read));
    CleanPrefix(Scan(ReadAll(lines, read)), Scan(ReadAll(lines + more, read)));
  }

  // ---- a comment after a bare key -----------------------------------------------

  function Bodies(lines: seq<Line>): seq<string> {
    if lines == [] then [] else (if lines[0].blank then [] else lines[0].body) + Bodies(lines[1..])
  }

  lemma {:induction false} KeylessScansNothing(lines: seq<Line>)
    requires forall i :: 0 <= i < |lines| ==> lines[i].role.NotKey?
    ensures Scan(lines) == []
  {
    if lines != [] { KeylessScansNothing(lines[1..]); }
  }

  lemma {:induction false} DeeperScansBodies(lines: seq<Line>, indent: nat)
    requires forall i :: 0 <= i < |lines| ==> Deeper(lines[i], indent)
    ensures ScanBlock(lines, indent) == Bodies(lines)
  {
    if lines != [] { DeeperScansBodies(lines[1..], indent); }
  }

  lemma ReadAllCons(line: string, more: seq<string>, read: Reader)
    ensures ReadAll([line] + more, read) == [read(line)] + ReadAll(more, read)
  {
  }

  lemma KeylessAreNoKeys(more: seq<string>, word: Word)
    requires forall i :: 0 <= i < |more| ==> KeyOf(more[i]).None?
    ensures forall l :: l in ReadAll(more, RegexReader(word)) ==> l.role.NotKey?
  {
    var below := ReadAll(more, RegexReader(word));
    forall i | 0 <= i < |below| ensures below[i].role.NotKey? {
      assert below[i] == Read(more[i], word);
    }
  }

  lemma CommentRole(line: string, k: Key, word: Word)
    requires KeyOf(line) == Some(k) && k.value != "" && k.value[0] == '#'
    ensures RoleOf(line, word) == InlineKey(SplitTokens(Strip(DropComment(k.value)), word))
  {
    CommentIsInline(line, k, word);
  }

  /** Below a key that holds only a comment, lines without a key contribute nothing: the comment is all that is scanned. */
  lemma CommentHidesBlock(line: string, k: Key, more: seq<string>, word: Word)
    requires KeyOf(line) == Some(k) && k.value != "" && k.value[0] == '#'
    requires forall i :: 0 <= i < |more| ==> KeyOf(more[i]).None?
    ensures Scan(ReadAll([line] + more, RegexReader(word))) == SplitTokens(Strip(DropComment(k.value)), word)
  {
    CommentRole(line, k, word);
    ReadAllCons(line, more, RegexReader(word));
    KeylessAreNoKeys(more, word);
    InlineThenNothing(Read(line, word), ReadAll(more, RegexReader(word)));
  }

  lemma InlineThenNothing(line: Line, below: seq<Line>)
    requires line.role.InlineKey? && forall l :: l in below ==> l.role.NotKey?
    ensures Scan([line] + below) == line.role.tokens
  {
    KeylessScansNothing(below);
    assert ([line] + below)[1..] == below;
  }

  /** Nothing, or `|` or `>` with at most digits and signs after it. */
  predicate LeavesBlock(inline: string) {
    inline == "" || (inline[0] in "|>" && forall c :: c in inline[1..] ==> c in "0123456789+-")
  }

  lemma BlockScalarIs(s: string)
    requires s != ""
    ensures BlockScalar(s) <==> LeavesBlock(s)
  {
    forall i | 1 <= i < |s| ensures s[i] in s[1..] {
      assert s[1..][i - 1] == s[i];
    }
    forall c | c in s[1..] ensures exists i :: 1 <= i < |s| && s[i] == c {
      var i :| 0 <= i < |s[1..]| && s[1..][i] == c;
      assert s[i + 1] == c;
    }
    assert forall c :: c in "0123456789+-" <==> '0' <= c <= '9' || c == '+' || c == '-';
  }

  /** A key opens a block exactly when its value, the comment dropped, leaves it to the block; any other value is read
      where it stands. */
  lemma OpensBlockExactly(line: string, k: Key, word: Word)
    requires KeyOf(line) == Some(k)
    ensures var inline := Strip(DropComment(k.value));
      RoleOf(line, word) == if LeavesBlock(inline) then BlockKey(k.indent) else InlineKey(SplitTokens(inline, word))
  {
    var inline := Strip(DropComment(k.value));
    if inline != "" { BlockScalarIs(inline); }
  }

  /** Below such a key, one without the comment say, deeper lines contribute what stands on them. */
  lemma ScalarKeyReadsBlock(line: string, k: Key, more: seq<string>, word: Word)
    requires KeyOf(line) == Some(k) && LeavesBlock(Strip(DropComment(k.value)))
    requires forall i :: 0 <= i < |more| ==> Deeper(Read(more[i], word), k.indent)
    ensures Scan(ReadAll([line] + more, RegexReader(word))) == Bodies(ReadAll(more, RegexReader(word)))
  {
    OpensBlockExactly(line, k, word);
    ReadAllCons(line, more, RegexReader(word));
    BlockThen(Read(line, word), ReadAll(more, RegexReader(word)));
    DeeperScansBodies(ReadAll(more, RegexReader(word)), k.indent);
  }

  /** Of any other key the value gives its tokens, and the scan goes on with the next line. */
  lemma InlineKeyReadsOn(line: string, k: Key, more: seq<string>, word: Word)
    requires KeyOf(line) == Some(k) && !LeavesBlock(Strip(DropComment(k.value)))
    ensures Scan(ReadAll([line] + more, RegexReader(word))) ==
      SplitTokens(Strip(DropComment(k.value)), word) + Scan(ReadAll(more, RegexReader(word)))
  {
    OpensBlockExactly(line, k, word);
    ReadAllCons(line, more, RegexReader(word));
    InlineThen(Read(line, word), ReadAll(more, RegexReader(word)));
  }

  lemma InlineThen(line: Line, below: seq<Line>)
    requires line.role.InlineKey?
    ensures Scan([line] + below) == line.role.tokens + Scan(below)
  {
    assert ([line] + below)[1..] == below;
  }

  lemma BlockThen(line: Line, below: seq<Line>)
    requires line.role.BlockKey?
    ensures Scan([line] + below) == ScanBlock(below, line.role.indent)
  {
    assert ([line] + below)[1..] == below;
  }

  // ---- dangerous grants -------------------------------------------------------

  const DANGEROUS_TOOLS := {
    "bash", "shell", "sh", "zsh", "ksh", "fish", "exec", "execute", "run", "powershell", "pwsh", "cmd", "command",
    "terminal", "eval", "system", "subprocess", "ssh"
  }
  const WILDCARD_GRANTS := {"*", "all", "any"}

  /** `re.match(r"[\w.\-]+", s)`. */
  function Head(s: string, word: Word): string {
    if s != "" && (word(s[0]) || s[0] == '.' || s[0] == '-') then [s[0]] + Head(s[1..], word) else ""
  }

  /** `_norm`; `lower` is `str.lower`. */
  function NormTool(token: string, word: Word, lower: string -> string): string {
    var stripped := Trim(Strip(token), "\"'");
    var head := Head(stripped, word);
    if head != "" then lower(head) else lower(stripped)
  }

  /** `_norm` gives the first run of word characters, dots and dashes, and where there is none the whole text, in lower
      case; white space and quotes around the token do not count. */
  lemma NormIs(token: string, head: string, rest: string, word: Word, lower: string -> string)
    requires Trim(Strip(token), "\"'") == head + rest && (forall i :: 0 <= i < |head| ==> HeadChar(head[i], word))
    requires rest == "" || !HeadChar(rest[0], word)
    ensures NormTool(token, word, lower) == lower(if head != "" then head else rest)
  {
    HeadOf(head, rest, word);
    if head == "" { assert head + rest == rest; }
  }

  predicate HeadChar(c: char, word: Word) { word(c) || c in ".-" }

  lemma {:induction false} HeadOf(head: string, rest: string, word: Word)
    requires (forall i :: 0 <= i < |head| ==> HeadChar(head[i], word)) && (rest == "" || !HeadChar(rest[0], word))
    ensures Head(head + rest, word) == head
  {
    if head == "" {
      assert head + rest == rest;
    } else {
      assert (head + rest)[1..] == head[1..] + rest;
      HeadOf(head[1..], rest, word);
    }
  }

  predicate IsDangerous(tool: string, word: Word, lower: string -> string) {
    var head := NormTool(tool, word, lower);
    head in DANGEROUS_TOOLS || head in WILDCARD_GRANTS || '*' in tool
  }

  function Flagged(tools: seq<string>, word: Word, lower: string -> string): seq<string> {
    if tools == [] then []
    else
      var last := tools[|tools| - 1];
      Flagged(tools[..|tools| - 1], word, lower) + (if IsDangerous(last, word, lower) then [last] else [])
  }

  /** `_dangerous`. */
  method Dangerous(tools: seq<string>, word: Word, lower: string -> string) returns (flagged: seq<string>)
    ensures flagged == Flagged(tools, word, lower)
    ensures forall t :: t in flagged <==> t in tools && IsDangerous(t, word, lower)
  {
    flagged := [];
    for i := 0 to |tools|
      invariant flagged == Flagged(tools[..i], word, lower)
      invariant forall t :: t in flagged <==> t in tools[..i] && IsDangerous(t, word, lower)
    {
      assert tools[..i + 1][..i] == tools[..i];
      if IsDangerous(tools[i], word, lower) {
        flagged := flagged + [tools[i]];
      }
    }
    assert tools[..|tools|] == tools;
  }

  lemma {:induction false} FlaggedPrefix(a: seq<string>, b: seq<string>, word: Word, lower: string -> string)
    requires a <= b
    ensures Flagged(a, word, lower) <= Flagged(b, word, lower)
    decreases |b| - |a|
  {
    if a != b {
      var front := b[..|b| - 1];
      assert a <= front;
      FlaggedPrefixOne(b, word, lower);
      FlaggedPrefix(a, front, word, lower);
    }
  }

  lemma FlaggedPrefixOne(b: seq<string>, word: Word, lower: string -> string)
    requires b != []
    ensures Flagged(b[..|b| - 1], word, lower) <= Flagged(b, word, lower)
  {
  }

  /** Lines appended to a manifest never hide a grant that was flagged without them. */
  lemma AppendedLinesHideNothing(lines: seq<string>, more: seq<string>, read: Reader, word: Word, lower: string -> string)
    ensures Flagged(Granted(lines, read), word, lower) <= Flagged(Granted(lines + more, read), word, lower)
  {
    MoreLinesGrantMore(lines, more, read);
    FlaggedPrefix(Granted(lines, read), Granted(lines + more, read), word, lower);
  }

  lemma {:induction false} TrimLeftKeeps(s: string, chars: string, c: char)
    requires c in s && c !in chars
    ensures c in TrimLeft(s, chars)
  {
    if s[0] in chars { TrimLeftKeeps(s[1..], chars, c); }
  }

  lemma {:induction false} TrimRightKeeps(s: string, chars: string, c: char)
    requires c in s && c !in chars
    ensures c in TrimRight(s, chars)
  {
    if s[|s| - 1] in chars {
      assert s == s[..|s| - 1] + [s[|s| - 1]];
      TrimRightKeeps(s[..|s| - 1], chars, c);
    }
  }

  lemma {:induction false} StripLeftKeepsChar(s: string, c: char)
    requires c in s && !IsSpace(c)
    ensures c in StripLeft(s)
  {
    if IsSpace(s[0]) { StripLeftKeepsChar(s[1..], c); }
  }

  lemma {:induction false} StripRightKeepsChar(s: string, c: char)
    requires c in s && !IsSpace(c)
    ensures c in StripRight(s)
  {
    if IsSpace(s[|s| - 1]) {
      assert s == s[..|s| - 1] + [s[|s| - 1]];
      StripRightKeepsChar(s[..|s| - 1], c);
    }
  }

  lemma {:induction false} CleanKeepsStar(tokens: seq<string>, t: string)
    requires t in tokens && '*' in t
    ensures exists u :: u in Clean(tokens) && '*' in u
  {
    if tokens[0] == t {
      StripLeftKeepsChar(t, '*');
      StripRightKeepsChar(StripLeft(t), '*');
      TrimLeftKeeps(Strip(t), "\"'", '*');
      TrimRightKeeps(TrimLeft(Strip(t), "\"'"), "\"'", '*');
      assert Clean(tokens)[0] == Trim(Strip(t), "\"'");
    } else {
      CleanKeepsStar(tokens[1..], t);
    }
  }

  lemma {:induction false} TokensReach(lines: seq<Line>, from: nat, k: nat, t: string)
    requires from <= k < |lines| && t in TokensAt(lines, k)
    ensures t in TokensFrom(lines, from)
    decreases k - from
  {
    if from < k { TokensReach(lines, from + 1, k, t); }
  }

  /** A wildcard in anything the scanner takes from a line, inline or in a block, is always flagged. */
  lemma WildcardIsFlagged(lines: seq<string>, k: nat, read: Reader, t: string, word: Word, lower: string -> string)
    requires k < |lines| && t in TokensAt(ReadAll(lines, read), k) && '*' in t
    ensures exists u :: u in Flagged(Granted(lines, read), word, lower) && '*' in u
  {
    var all := ReadAll(lines, read);
    ScanIsByLine(all);
    TokensReach(all, 0, k, t);
    CleanKeepsStar(Scan(all), t);
    var u :| u in Granted(lines, read) && '*' in u;
    FlaggedHas(Granted(lines, read), u, word, lower);
  }

  lemma {:induction false} FlaggedHas(tools: seq<string>, t: string, word: Word, lower: string -> string)
    requires t in tools && IsDangerous(t, word, lower)
    ensures t in Flagged(tools, word, lower)
  {
    if tools[|tools| - 1] != t {
      assert tools == tools[..|tools| - 1] + [tools[|tools| - 1]];
      FlaggedHas(tools[..|tools| - 1], t, word, lower);
    }
  }

  // ---- a manifest whose comment hides its tools ---------------------------------

  /** Enough of `\w` and of lower-casing to read the two manifests below. */
  predicate ReadsWords(word: Word, lower: string -> string) {
    word('x') && word('B') && word('a') && word('s') && word('h') && !word('#') && lower("x") == "x" && lower("Bash") == "bash"
  }

  lemma CommentedKey()
    ensures KeyOf("tools: # x") == Some(Key(0, "# x")) && KeyOf("tools:") == Some(Key(0, ""))
  {
    KeyOfParts("", "tools", "", " ", "# x", ": # x");
    assert "" + ("tools" + ("" + ": # x")) == "tools: # x";
    KeyOfParts("", "tools", "", "", "", ":");
    assert "" + ("tools" + ("" + ":")) == "tools:";
  }

  lemma ItemLine()
    ensures KeyOf("  - Bash").None? && Lead("  - Bash") == 2 && Strip("  - Bash") == "- Bash"
    ensures DropMarker("- Bash") == "Bash"
  {
    var line := "  - Bash";
    StripLeftOf("  ", "- Bash");
    assert "  " + "- Bash" == line;
    StripLeftOf(" ", "Bash");
    assert "- Bash"[1..] == " " + "Bash";
  }

  /** A text of word characters, none of them a separator, a bracket or a quote: one token, granted as it stands. */
  predicate Plain(s: string, word: Word) {
    s != "" && forall i :: 0 <= i < |s| ==> word(s[i]) && !Separator(s[i]) && s[i] !in "[]\"'"
  }

  lemma {:induction false} PlainPieces(s: string, word: Word)
    requires s == "" || Plain(s, word)
    ensures DropComment(s) == s && Pieces(s) == [s]
  {
    if s != "" { PlainPieces(s[1..], word); }
  }

  lemma PlainToken(s: string, word: Word)
    requires Plain(s, word)
    ensures SplitTokens(s, word) == [s] && Clean([s]) == [s]
  {
    PlainPieces(s, word);
    assert Strip(s) == s && Trim(s, "[]") == s && Trim(s, "\"'") == s;
    assert Keep([s], word) == [s] by {
      assert word(s[0]);
      assert [s][1..] == [];
    }
    assert Clean([s]) == [s] by { assert [s][1..] == []; }
  }

  lemma {:induction false} PlainHead(s: string, word: Word)
    requires s == "" || Plain(s, word)
    ensures Head(s, word) == s
  {
    if s != "" { PlainHead(s[1..], word); }
  }

  /** Of a comment of one plain word, that word is the only token. */
  lemma CommentTokens(s: string, c: string, word: Word)
    requires Plain(s, word) && !word('#') && s[0] != '#' && c == ['#'] + ([' '] + s)
    ensures Strip(DropComment(c)) == c && SplitTokens(c, word) == [s]
  {
    CommentKept(s, c, [' '] + s, word);
    PiecesOfComment(s, c, [' '] + s);
    KeepSecond("#", s, word);
  }

  lemma KeepSecond(t: string, s: string, word: Word)
    requires !Telling(t, word) && Plain(s, word)
    ensures Keep([t, s], word) == [s]
  {
    assert Telling(s, word) by { assert word(s[0]); }
    assert [s][1..] == [] && [t, s][1..] == [s];
    assert Keep([s], word) == [s];
  }

  lemma CommentKept(s: string, c: string, d: string, word: Word)
    requires Plain(s, word) && s[0] != '#' && c == ['#'] + d && d == [' '] + s
    ensures DropComment(c) == c && Strip(c) == c && Trim(c, "[]") == c && Pieces(s) == [s]
  {
    PlainPieces(s, word);
    assert c[1..] == d && d[1..] == s;
    assert StripLeft(d) == s;
  }

  lemma PiecesOfComment(s: string, c: string, d: string)
    requires c == ['#'] + d && d == [' '] + s && Pieces(s) == [s]
    ensures Pieces(c) == ["#", s]
  {
    assert c[1..] == d && d[1..] == s;
    assert Pieces(d) == ["", s];
    assert ['#'] + "" == "#" && ["", s][1..] == [s];
  }

  lemma PlainWords(word: Word, lower: string -> string)
    requires ReadsWords(word, lower)
    ensures Plain("x", word) && Plain("Bash", word)
  {
  }

  lemma CommentedGrants(key: string, item: string, s: string, c: string, word: Word)
    requires KeyOf(key) == Some(Key(0, c)) && c == ['#'] + ([' '] + s) && KeyOf(item).None?
    requires Plain(s, word) && s[0] != '#' && !word('#')
    ensures Granted([key, item], RegexReader(word)) == [s]
  {
    CommentTokens(s, c, word);
    assert [key] + [item] == [key, item];
    CommentHidesBlock(key, Key(0, c), [item], word);
    PlainToken(s, word);
  }

  lemma XIsHarmless()
    ensures "x" !in DANGEROUS_TOOLS && "x" !in WILDCARD_GRANTS && '*' !in "x"
  {
    assert forall t :: t in DANGEROUS_TOOLS + WILDCARD_GRANTS ==> |t| != 1 || t == "*";
  }

  lemma FlagsOfWords(word: Word, lower: string -> string)
    requires ReadsWords(word, lower)
    ensures Flagged(["x"], word, lower) == [] && Flagged(["Bash"], word, lower) == ["Bash"]
  {
    XIsHarmless();
    WordFlag("x", word, lower);
    WordFlag("Bash", word, lower);
  }

  /** `tools: # x` over `  - Bash` grants nothing dangerous; without the comment the same line is flagged. */
  lemma CommentHidesBash(commented: string, bare: string, item: string, word: Word, lower: string -> string)
    requires commented == "tools: # x" && bare == "tools:" && item == "  - Bash" && ReadsWords(word, lower)
    ensures Flagged(Granted([commented, item], RegexReader(word)), word, lower) == []
    ensures Flagged(Granted([bare, item], RegexReader(word)), word, lower) == ["Bash"]
  {
    PlainWords(word, lower);
    CommentedKey();
    ItemLine();
    assert ['#'] + ([' '] + "x") == "# x";
    CommentedGrants(commented, item, "x", "# x", word);
    BlockGrants(bare, "", item, "Bash", word);
    FlagsOfWords(word, lower);
  }

  /** What the tools of the table are for, each flagged by its plain name. */
  lemma NamedToolsAreFlagged(t: string, word: Word, lower: string -> string)
    requires t in ["bash", "shell", "sh", "zsh", "ksh", "fish", "powershell", "pwsh", "cmd", "terminal", "ssh"]
             || t in ["exec", "execute", "run", "command", "eval", "system", "subprocess"] || t in ["all", "any"]
    requires Plain(t, word) && lower(t) == t
    ensures Flagged([t], word, lower) == [t]
  {
    WordFlag(t, word, lower);
  }

  lemma PipeKey()
    ensures KeyOf("tools: |") == Some(Key(0, "|")) && LeavesBlock(Strip(DropComment("|")))
    ensures Lead("  Bash") == 2 && Strip("  Bash") == "Bash" && DropMarker("Bash") == "Bash"
  {
    KeyOfParts("", "tools", "", " ", "|", ": |");
    assert "" + ("tools" + ("" + ": |")) == "tools: |";
    assert DropComment("|") == "|" by { assert "|"[1..] == ""; }
    StripLeftOf("  ", "Bash");
    assert "  " + "Bash" == "  Bash";
  }

  lemma BlockGrants(key: string, value: string, item: string, s: string, word: Word)
    requires KeyOf(key) == Some(Key(0, value)) && LeavesBlock(Strip(DropComment(value)))
    requires Lead(item) > 0 && Strip(item) != "" && DropMarker(Strip(item)) == s && Plain(s, word)
    ensures Granted([key, item], RegexReader(word)) == [s]
  {
    assert [key] + [item] == [key, item];
    ScalarKeyReadsBlock(key, Key(0, value), [item], word);
    var line := Read(item, word);
    PlainToken(s, word);
    assert ReadAll([item], RegexReader(word)) == [line];
    assert Bodies([line]) == line.body by { assert [line][1..] == []; }
  }

  /** `tools: |` over `  Bash` is flagged. */
  lemma PipeFlagsBash(key: string, item: string, word: Word, lower: string -> string)
    requires key == "tools: |" && item == "  Bash" && ReadsWords(word, lower)
    ensures Flagged(Granted([key, item], RegexReader(word)), word, lower) == ["Bash"]
  {
    PlainWords(word, lower);
    PipeKey();
    BlockGrants(key, "|", item, "Bash", word);
    FlagsOfWords(word, lower);
  }

  lemma WordFlag(s: string, word: Word, lower: string -> string)
    requires Plain(s, word)
    ensures NormTool(s, word, lower) == lower(s)
    ensures Flagged([s], word, lower) == if IsDangerous(s, word, lower) then [s] else []
  {
    PlainHead(s, word);
    assert Strip(s) == s && Trim(s, "\"'") == s;
    assert [s][..0] == [];
  }
}
