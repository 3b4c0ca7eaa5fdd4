/** `safe_join` on POSIX paths, from the characters up. */
module Paths {
  import opened Prelude

  /** A working directory. */
  type Cwd = s: string | Starts(s, "/") witness "/"

  // ---- Python's path functions ---------------------------------------------

  /** `path.split("/")`. */
  function Split(s: string): (parts: seq<string>)
    ensures parts != []
    ensures forall p :: p in parts ==> '/' !in p
  {
    if s == "" then [""] else Before(s[0], Split(s[1..]))
  }

  /** The parts of a text with one more character in front. */
  function Before(c: char, parts: seq<string>): (r: seq<string>)
    requires parts != [] && forall p :: p in parts ==> '/' !in p
    ensures r != [] && forall p :: p in r ==> '/' !in p
  {
    if c == '/' then [""] + parts else [[c] + parts[0]] + parts[1..]
  }

  /** `"/".join(parts)`. */
  function Join(parts: seq<string>): string {
    if parts == [] then "" else if |parts| == 1 then parts[0] else parts[0] + "/" + Join(parts[1..])
  }

  /** The component loop of `normpath` for a path with a leading slash, starting from `done`. */
  function Resolve(done: seq<string>, parts: seq<string>): seq<string>
    decreases |parts|
  {
    if parts == [] then done
    else
      var next := if parts[0] == "" || parts[0] == "." then done
        else if parts[0] == ".." then (if done == [] then [] else done[..|done| - 1])
        else done + [parts[0]];
      Resolve(next, parts[1..])
  }

  predicate Starts(s: string, prefix: string) { |prefix| <= |s| && s[..|prefix|] == prefix }

  /** Two leading slashes are kept, three or more count as one. */
  function Slashes(path: string): string { if Starts(path, "//") && !Starts(path, "///") then "//" else "/" }

  /** `normpath` of a path with a leading slash. */
  function Normpath(path: string): string
    requires Starts(path, "/")
  {
    Slashes(path) + Join(Resolve([], Split(path)))
  }

  /** `os.path.join` of two paths. */
  function JoinTwo(a: string, b: string): string {
    if Starts(b, "/") then b else if a == "" || a[|a| - 1] == '/' then a + b else a + "/" + b
  }

  /** `abspath`; `cwd` is the working directory. */
  function Abspath(cwd: Cwd, path: string): string
  {
    Normpath(JoinTwo(cwd, path))
  }

  /** `safe_join`. */
  function SafeJoin(cwd: Cwd, root: string, rel: string): Result<string>
  {
    if Starts(rel, "/") || Starts(rel, "\\") then Raised(QuarantineError)
    else
      var rootAbs := Abspath(cwd, root);
      var targetAbs := Abspath(cwd, JoinTwo(rootAbs, rel));
      if targetAbs != rootAbs && !Starts(targetAbs, rootAbs + "/") then Raised(QuarantineError) else Ok(targetAbs)
  }

  // ---- paths as components -------------------------------------------------

  /** A component that means itself. */
  predicate Name(p: string) { p != "" && p != "." && p != ".." && '/' !in p }

  predicate Names(parts: seq<string>) { forall p :: p in parts ==> Name(p) }

  predicate Lead(lead: string) { lead == "/" || lead == "//" }

  predicate Within(parts: seq<string>, base: seq<string>) { |base| <= |parts| && parts[..|base|] == base }

  /** A path keeps exactly two leading slashes; one, or three and more, come out as one. */
  lemma SlashesAre(rest: string)
    requires rest == "" || rest[0] != '/'
    ensures Slashes("/" + rest) == "/" && Slashes("//" + rest) == "//" && Slashes("///" + rest) == "/"
  {
    assert ("//" + rest)[..2] == "//" && ("///" + rest)[..3] == "///";
    StartsAt("/" + rest, "//", 1);
    StartsAt("//" + rest, "///", 2);
  }

  lemma StartsAt(s: string, prefix: string, i: nat)
    requires i < |prefix|
    ensures Starts(s, prefix) ==> i < |s| && s[i] == prefix[i]
  {
    if Starts(s, prefix) { assert s[..|prefix|][i] == s[i]; }
  }

  lemma {:induction false} ResolveNames(done: seq<string>, parts: seq<string>)
    requires Names(done) && forall p :: p in parts ==> '/' !in p
    ensures Names(Resolve(done, parts))
    decreases |parts|
  {
    if parts != [] {
      var next := if parts[0] == "" || parts[0] == "." then done
        else if parts[0] == ".." then (if done == [] then [] else done[..|done| - 1])
        else done + [parts[0]];
      assert parts[0] in parts && forall p :: p in parts[1..] ==> p in parts;
      ResolveNames(next, parts[1..]);
    }
  }

  /** Plain names are simply appended. */
  lemma {:induction false} ResolvePlain(done: seq<string>, parts: seq<string>)
    requires Names(parts)
    ensures Resolve(done, parts) == done + parts
    decreases |parts|
  {
    if parts == [] {
      assert done + parts == done;
    } else {
      assert parts[0] in parts && forall p :: p in parts[1..] ==> p in parts;
      ResolvePlain(done + [parts[0]], parts[1..]);
      assert done + [parts[0]] + parts[1..] == done + parts;
    }
  }

  lemma {:induction false} ResolveConcat(done: seq<string>, a: seq<string>, b: seq<string>)
    ensures Resolve(done, a + b) == Resolve(Resolve(done, a), b)
    decreases |a|
  {
    if a == [] {
      assert a + b == b;
    } else {
      var next := if a[0] == "" || a[0] == "." then done
        else if a[0] == ".." then (if done == [] then [] else done[..|done| - 1])
        else done + [a[0]];
      assert (a + b)[1..] == a[1..] + b;
      ResolveConcat(next, a[1..], b);
    }
  }

  /** What a last component does: nothing or a dot stays, two dots go up one level and no higher than the top, anything else
      goes down into it. */
  lemma ResolveLast(done: seq<string>, parts: seq<string>, last: string)
    ensures var there, next := Resolve(done, parts), Resolve(done, parts + [last]);
      && (last == "" || last == "." ==> next == there)
      && (last == ".." ==> next == if |there| > 0 then there[..|there| - 1] else [])
      && (last != "" && last != "." && last != ".." ==> next == there + [last])
  {
    ResolveConcat(done, parts, [last]);
    assert [last][1..] == [];
  }

  lemma {:induction false} SplitConcat(a: string, b: string)
    ensures Split(a + "/" + b) == Split(a) + Split(b)
  {
    var all := a + "/" + b;
    if a == "" {
      assert all[0] == '/' && all[1..] == b;
    } else {
      SplitConcat(a[1..], b);
      assert all[0] == a[0] && all[1..] == a[1..] + "/" + b;
      BeforeConcat(a[0], Split(a[1..]), Split(b));
    }
  }

  lemma BeforeConcat(c: char, p: seq<string>, q: seq<string>)
    requires p != [] && (forall x :: x in p ==> '/' !in x) && (forall x :: x in q ==> '/' !in x)
    ensures Before(c, p + q) == Before(c, p) + q
  {
    assert (p + q)[0] == p[0] && (p + q)[1..] == p[1..] + q;
    if c == '/' {
      assert [""] + (p + q) == [""] + p + q;
    } else {
      assert [[c] + p[0]] + (p[1..] + q) == [[c] + p[0]] + p[1..] + q;
    }
  }

  lemma {:induction false} SplitPlain(p: string)
    requires '/' !in p
    ensures Split(p) == [p]
  {
    if p != "" {
      SplitPlain(p[1..]);
      assert p == [p[0]] + p[1..];
    }
  }

  lemma {:induction false} SplitOfJoin(parts: seq<string>)
    requires Names(parts) && parts != []
    ensures Split(Join(parts)) == parts
  {
    assert parts[0] in parts && forall p :: p in parts[1..] ==> p in parts;
    SplitPlain(parts[0]);
    if |parts| > 1 {
      SplitConcat(parts[0], Join(parts[1..]));
      SplitOfJoin(parts[1..]);
    }
    assert parts == [parts[0]] + parts[1..];
  }

  lemma TopSlash(rel: string)
    ensures Resolve([], Split("/" + rel)) == Resolve([], Split(rel))
  {
    var path := "/" + rel;
    assert path[0] == '/' && path[1..] == rel;
    assert Split(path)[0] == "" && Split(path)[1..] == Split(rel);
  }

  lemma FollowFromTop(lead: string, rel: string)
    requires Lead(lead)
    ensures Resolve([], Split(lead + rel)) == Resolve([], Split(rel))
  {
    TopSlash(rel);
    if lead == "//" {
      TopSlash("/" + rel);
      assert "/" + ("/" + rel) == "//" + rel;
    }
  }

  /** Reading an absolute path written from components gives them back. */
  lemma ReadWritten(lead: string, parts: seq<string>)
    requires Lead(lead) && Names(parts)
    ensures Resolve([], Split(lead + Join(parts))) == parts
  {
    FollowFromTop(lead, Join(parts));
    if parts == [] { assert Split("") == [""]; } else { SplitOfJoin(parts); ResolvePlain([], parts); }
  }

  lemma {:induction false} JoinConcat(a: seq<string>, b: seq<string>)
    requires a != [] && b != []
    ensures Join(a + b) == Join(a) + "/" + Join(b)
  {
    assert (a + b)[1..] == a[1..] + b;
    if |a| > 1 {
      JoinConcat(a[1..], b);
      assert a[0] + "/" + (Join(a[1..]) + "/" + Join(b)) == a[0] + "/" + Join(a[1..]) + "/" + Join(b);
    } else {
      assert a[1..] + b == b;
    }
  }

  lemma JoinNonEmpty(parts: seq<string>)
    requires Names(parts) && parts != []
    ensures Join(parts) != ""
  {
    assert Name(parts[0]);
  }

  /** One path lies below another in characters exactly when it does in components. */
  lemma BelowIsWithin(t: seq<string>, r: seq<string>)
    requires Names(t) && Names(r) && r != []
    ensures Join(t) == Join(r) || Starts(Join(t), Join(r) + "/") <==> Within(t, r)
  {
    if Join(t) == Join(r) || Starts(Join(t), Join(r) + "/") { BelowInParts(t, r); }
    if Within(t, r) { BelowInText(t, r, t[|r|..]); }
  }

  lemma BelowInParts(t: seq<string>, r: seq<string>)
    requires Names(t) && Names(r) && r != []
    requires Join(t) == Join(r) || Starts(Join(t), Join(r) + "/")
    ensures Within(t, r)
  {
    SplitOfJoin(r);
    JoinNonEmpty(r);
    SplitOfJoin(t);
    if Join(t) != Join(r) {
      var x := Join(t)[|Join(r)| + 1..];
      assert Join(t) == Join(r) + "/" + x;
      SplitConcat(Join(r), x);
      assert t == r + Split(x);
    }
  }

  lemma BelowInText(t: seq<string>, r: seq<string>, u: seq<string>)
    requires r != [] && t == r + u
    ensures Join(t) == Join(r) || Starts(Join(t), Join(r) + "/")
  {
    if u != [] {
      JoinConcat(r, u);
      assert Join(t)[..|Join(r)| + 1] == Join(r) + "/";
    } else {
      assert t == r;
    }
  }

  // ---- what `safe_join` does -----------------------------------------------

  /** The components of an absolute form of `path`. */
  function Parts(cwd: Cwd, path: string): (r: seq<string>)
    ensures Names(r)
  {
    var parts := Split(JoinTwo(cwd, path));
    ResolveNames([], parts);
    Resolve([], parts)
  }

  function LeadOf(cwd: Cwd, path: string): string { Slashes(JoinTwo(cwd, path)) }

  /** An absolute path stands for itself; any other is followed from the working directory, under its slashes. */
  lemma PartsAre(cwd: Cwd, path: string)
    ensures Starts(path, "/") ==> Parts(cwd, path) == Resolve([], Split(path)) && LeadOf(cwd, path) == Slashes(path)
    ensures !Starts(path, "/") ==>
      Parts(cwd, path) == Resolve(Resolve([], Split(cwd)), Split(path)) && LeadOf(cwd, path) == Slashes(cwd)
  {
    if !Starts(path, "/") {
      if cwd[|cwd| - 1] == '/' {
        var front := cwd[..|cwd| - 1];
        assert cwd + path == front + "/" + path && cwd == front + "/" + "";
        SplitConcat(front, path);
        SplitConcat(front, "");
        ResolveConcat([], Split(front), Split(path));
        ResolveConcat([], Split(front), Split(""));
        assert [""][1..] == [];
      } else {
        SplitConcat(cwd, path);
        ResolveConcat([], Split(cwd), Split(path));
      }
      RelativeSlashes(cwd, path);
    }
  }

  lemma RelativeSlashes(cwd: Cwd, path: string)
    requires !Starts(path, "/")
    ensures Slashes(JoinTwo(cwd, path)) == Slashes(cwd)
  {
    var joined := JoinTwo(cwd, path);
    assert joined[..|cwd|] == cwd;
    assert path != "" ==> path[..1] == [path[0]];
    if |cwd| >= 2 { PrefixStarts(cwd, joined, "//"); }
    if |cwd| >= 3 { PrefixStarts(cwd, joined, "///"); }
    if |cwd| < 3 {
      StartsAt(joined, "///", 2);
      StartsAt(joined, "//", 1);
    }
  }

  lemma PrefixStarts(s: string, t: string, prefix: string)
    requires |s| <= |t| && t[..|s|] == s && |prefix| <= |s|
    ensures Starts(s, prefix) <==> Starts(t, prefix)
  {
    assert t[..|prefix|] == s[..|prefix|];
  }

  /** Where `rel` leads when followed from `root`, one component at a time. */
  function Target(cwd: Cwd, root: string, rel: string): (r: seq<string>)
    ensures Names(r)
  {
    ResolveNames(Parts(cwd, root), Split(rel));
    Resolve(Parts(cwd, root), Split(rel))
  }

  lemma AbspathIsWritten(cwd: Cwd, path: string)
    ensures Abspath(cwd, path) == LeadOf(cwd, path) + Join(Parts(cwd, path)) && Lead(LeadOf(cwd, path))
  {
  }

  /** Normalising the joined path follows `rel` from the root's own components, under the same leading slashes. */
  lemma JoinedIsTarget(cwd: Cwd, root: string, rel: string)
    requires !Starts(rel, "/")
    ensures Abspath(cwd, JoinTwo(Abspath(cwd, root), rel)) == LeadOf(cwd, root) + Join(Target(cwd, root, rel))
  {
    var lead, base := LeadOf(cwd, root), Parts(cwd, root);
    var rootAbs := lead + Join(base);
    AbspathIsWritten(cwd, root);
    ReadWritten(lead, base);
    var joined := JoinTwo(rootAbs, rel);
    assert joined[0] == '/';
    assert JoinTwo(cwd, joined) == joined;
    WrittenEnd(lead, base);
    JoinedSlashes(lead, base, rel);
    if base == [] {
      assert rootAbs == lead;
      FollowFromTop(lead, rel);
    } else {
      assert joined == rootAbs + "/" + rel;
      SplitConcat(rootAbs, rel);
      ResolveConcat([], Split(rootAbs), Split(rel));
    }
  }

  /** A written path ends in a slash only when it is the root directory. */
  lemma {:induction false} JoinEnd(parts: seq<string>)
    requires Names(parts) && parts != []
    ensures Join(parts) != "" && Join(parts)[|Join(parts)| - 1] != '/' && Join(parts)[0] != '/'
  {
    assert Name(parts[0]);
    assert parts[0][0] in parts[0] && parts[0][|parts[0]| - 1] in parts[0];
    if |parts| > 1 {
      assert forall p :: p in parts[1..] ==> p in parts;
      JoinEnd(parts[1..]);
    }
  }

  lemma WrittenEnd(lead: string, parts: seq<string>)
    requires Lead(lead) && Names(parts)
    ensures var path := lead + Join(parts); path[|path| - 1] == '/' <==> parts == []
  {
    if parts != [] { JoinEnd(parts); }
  }

  lemma JoinedSlashes(lead: string, base: seq<string>, rel: string)
    requires Lead(lead) && Names(base) && !Starts(rel, "/")
    ensures Slashes(JoinTwo(lead + Join(base), rel)) == lead
  {
    WrittenEnd(lead, base);
    var path := JoinTwo(lead + Join(base), rel);
    if base != [] { JoinEnd(base); }
    var k := |lead|;
    assert path[..k] == lead;
    if |path| > k {
      assert path[k] == (if base != [] then Join(base)[0] else rel[0]);
      assert rel != "" ==> rel[..1] == [rel[0]];
    }
    assert |path| >= 2 ==> path[..2] == [path[0], path[1]];
    assert |path| >= 3 ==> path[..3] == [path[0], path[1], path[2]];
  }

  predicate Absolute(rel: string) { rel != "" && rel[0] in "/\\" }

  /** `safe_join` accepts a relative name exactly when following it stays below the root, component by component,
      and returns that place. Below `/` itself it accepts nothing but `/`. */
  lemma SafeJoinExact(cwd: Cwd, root: string, rel: string)
    ensures var base, target := Parts(cwd, root), Target(cwd, root, rel);
      SafeJoin(cwd, root, rel) ==
        if !Absolute(rel) && Within(target, base) && (base == [] ==> target == [])
        then Ok(LeadOf(cwd, root) + Join(target)) else Raised(QuarantineError)
  {
    var lead, base, target := LeadOf(cwd, root), Parts(cwd, root), Target(cwd, root, rel);
    if !Absolute(rel) {
      AbspathIsWritten(cwd, root);
      JoinedIsTarget(cwd, root, rel);
      if base == [] { BelowTop(lead, target); } else { BelowWritten(lead, target, base); }
    }
  }

  lemma BelowWritten(lead: string, t: seq<string>, r: seq<string>)
    requires Lead(lead) && Names(t) && Names(r) && r != []
    ensures lead + Join(t) == lead + Join(r) || Starts(lead + Join(t), lead + Join(r) + "/") <==> Within(t, r)
  {
    BelowIsWithin(t, r);
    var x, y := lead + Join(t), lead + Join(r) + "/";
    assert x[|lead|..] == Join(t) && y[|lead|..] == Join(r) + "/" && (lead + Join(r))[|lead|..] == Join(r);
    if Starts(x, y) {
      assert Join(t)[..|Join(r)| + 1] == x[..|y|][|lead|..];
    }
    if Starts(Join(t), Join(r) + "/") {
      assert x[..|y|] == lead + Join(t)[..|Join(r)| + 1];
    }
  }

  lemma BelowTop(lead: string, t: seq<string>)
    requires Lead(lead) && Names(t)
    ensures lead + Join(t) == lead || Starts(lead + Join(t), lead + "/") <==> t == []
  {
    if t != [] {
      JoinEnd(t);
      var x := lead + Join(t);
      assert x[|lead|] == Join(t)[0];
      assert (lead + "/")[|lead|] == '/';
    }
  }

  /** The root directory itself: an ordinary name below it is refused. */
  lemma TopRefusesNames(rel: string)
    requires Name(rel) && rel[0] != '\\'
    ensures SafeJoin("/", "/", rel) == Raised(QuarantineError)
  {
    SplitPlain(rel);
    assert Split("/") == ["", ""] by {
      assert "" + "/" + "" == "/";
      SplitConcat("", "");
    }
    ResolveConcat([], [""], [""]);
    assert Parts("/", "/") == [];
    ResolvePlain([], [rel]);
    SafeJoinExact("/", "/", rel);
  }

  /** Names joined below a proper root come out below it unchanged. */
  lemma SafeJoinNames(cwd: Cwd, root: string, parts: seq<string>)
    requires Parts(cwd, root) != [] && Names(parts) && parts != [] && Name(parts[0]) && parts[0][0] != '\\'
    ensures SafeJoin(cwd, root, Join(parts)) == Ok(LeadOf(cwd, root) + Join(Parts(cwd, root) + parts))
  {
    var base := Parts(cwd, root);
    SplitOfJoin(parts);
    ResolvePlain(base, parts);
    JoinEnd(parts);
    FirstOfJoin(parts);
    SafeJoinExact(cwd, root, Join(parts));
  }

  lemma FirstOfJoin(parts: seq<string>)
    requires Names(parts) && parts != [] && Name(parts[0])
    ensures Join(parts) != "" && Join(parts)[0] == parts[0][0]
  {
    assert Name(parts[0]);
  }
}
