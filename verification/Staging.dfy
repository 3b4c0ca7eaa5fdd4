/** Copying untrusted files into quarantine under symlink, traversal and size guards. */
module Staging {
  import opened Prelude
  import opened Paths
  import opened Order
  import Hashing

  datatype Limits = Limits(maxFileBytes: nat, maxTotalBytes: nat, maxFiles: nat)

  const GIB := 1024 * 1024 * 1024
  const DEFAULT_LIMITS := Limits(64 * GIB, 128 * GIB, 100000)

  /** What `makedirs` or `copyfile` raises; `begun` when the target was opened by then, so that a part may be written. */
  datatype CopyFault = CopyFault(error: PyError, begun: bool)

  /** A file met by the walk: what `islink`, `getsize` and the copy make of it. */
  datatype Item = Item(rel: string, link: bool, size: Result<nat>, content: Bytes, copyFault: Option<CopyFault>)

  /** One directory of the walk: which of its subdirectories are links, and its files. */
  datatype Level = Level(folders: seq<bool>, items: seq<Item>)

  /** A file, or a directory, to which the path itself may be a link. */
  datatype Source = OneFile(item: Item) | Walked(linked: bool, levels: seq<Level>)

  /** Where a name goes, and the limits. */
  datatype Job = Job(target: string -> Result<string>, limits: Limits)

  function JobFor(cwd: Cwd, dest: string, limits: Limits): Job { Job(rel => SafeJoin(cwd, dest, rel), limits) }

  /** `total` is the running size; `written` lists the files written so far, the last perhaps in part. */
  datatype Progress = Progress(staged: seq<string>, total: nat, written: seq<(string, Bytes)>)

  const START := Progress([], 0, [])

  /** `_place`: the guards in order, then the copy. */
  function Place(job: Job, st: Progress, item: Item): (Progress, Option<PyError>)
  {
    if item.link then (st, Some(QuarantineError))
    else if |st.staged| + 1 > job.limits.maxFiles then (st, Some(QuarantineError))
    else match item.size
      case Raised(e) => (st, Some(e))
      case Ok(size) =>
        if size > job.limits.maxFileBytes then (st, Some(QuarantineError))
        else if st.total + size > job.limits.maxTotalBytes then (st, Some(QuarantineError))
        else match job.target(item.rel)
          case Raised(e) => (st, Some(e))
          case Ok(target) => CopyTo(st, item, size, target)
  }

  /** `makedirs` and `copyfile`, and the note that the file is staged. */
  function CopyTo(st: Progress, item: Item, size: nat, target: string): (Progress, Option<PyError>) {
    var counted := st.(total := st.total + size);
    var next := counted.(written := st.written + [(target, item.content)]);
    match item.copyFault
    case Some(fault) => (if fault.begun then next else counted, Some(fault.error))
    case None => (next.(staged := st.staged + [item.rel]), None)
  }

  /** What the walk meets, in order: a linked folder stops it, an ordinary one means nothing by itself. */
  datatype Entry = Folder(link: bool) | Content(item: Item)

  function PlaceEntry(job: Job, st: Progress, e: Entry): (Progress, Option<PyError>)
  {
    match e
    case Folder(link) => (st, if link then Some(QuarantineError) else None)
    case Content(item) => Place(job, st, item)
  }

  /** The whole walk, up to the first exception. */
  function Stage(job: Job, st: Progress, entries: seq<Entry>): (Progress, Option<PyError>)
    decreases |entries|
  {
    if entries == [] then (st, None)
    else
      var (next, raised) := PlaceEntry(job, st, entries[0]);
      if raised.Some? then (next, raised) else Stage(job, next, entries[1..])
  }

  function Folders(links: seq<bool>): seq<Entry> {
    if links == [] then [] else [Folder(links[0])] + Folders(links[1..])
  }

  function Contents(items: seq<Item>): seq<Entry> {
    if items == [] then [] else [Content(items[0])] + Contents(items[1..])
  }

  function Entries(levels: seq<Level>): seq<Entry> {
    if levels == [] then [] else (Folders(levels[0].folders) + Contents(levels[0].items)) + Entries(levels[1..])
  }

  function EntriesOf(src: Source): seq<Entry> {
    match src case OneFile(item) => [Content(item)] case Walked(_, levels) => Entries(levels)
  }

  /** The files on disk after some writes. */
  function Written(files: map<string, Bytes>, writes: seq<(string, Bytes)>): map<string, Bytes> {
    if writes == [] then files
    else Written(files, writes[..|writes| - 1])[writes[|writes| - 1].0 := writes[|writes| - 1].1]
  }

  /** `stage_local_tree`. */
  function StageResult(job: Job, src: Source): (Progress, Result<seq<string>>)
  {
    var (st, raised) := Stage(job, START, EntriesOf(src));
    (st, match raised case Some(e) => Raised(e) case None => Ok(Sort(Le, st.staged)))
  }

  lemma {:induction false} StageConcat(job: Job, st: Progress, a: seq<Entry>, b: seq<Entry>)
    ensures var (mid, raised) := Stage(job, st, a);
      Stage(job, st, a + b) == if raised.Some? then (mid, raised) else Stage(job, mid, b)
    decreases |a|
  {
    if a == [] {
      assert a + b == b;
    } else {
      assert (a + b)[1..] == a[1..] + b;
      StageConcat(job, PlaceEntry(job, st, a[0]).0, a[1..], b);
    }
  }

  lemma {:induction false} FoldersStage(job: Job, st: Progress, links: seq<bool>)
    ensures Stage(job, st, Folders(links)) == (st, if true in links then Some(QuarantineError) else None)
  {
    if links != [] {
      FoldersStage(job, st, links[1..]);
      assert links == [links[0]] + links[1..];
      assert Folders(links)[1..] == Folders(links[1..]);
    }
  }

  /** One directory of the walk, then the rest. */
  lemma LevelStage(job: Job, st: Progress, levels: seq<Level>)
    requires levels != []
    ensures Stage(job, st, Entries(levels)) ==
      if true in levels[0].folders then (st, Some(QuarantineError))
      else
        var (mid, raised) := Stage(job, st, Contents(levels[0].items));
        if raised.Some? then (mid, raised) else Stage(job, mid, Entries(levels[1..]))
  {
    var fs, cs, rest := Folders(levels[0].folders), Contents(levels[0].items), Entries(levels[1..]);
    assert Entries(levels) == fs + (cs + rest) by { assert (fs + cs) + rest == fs + (cs + rest); }
    StageConcat(job, st, fs, cs + rest);
    FoldersStage(job, st, levels[0].folders);
    StageConcat(job, st, cs, rest);
  }

  lemma OneStage(job: Job, item: Item)
    ensures Stage(job, START, [Content(item)]) == Place(job, START, item)
  {
    assert [Content(item)][1..] == [];
  }

  class Destination {
    var files: map<string, Bytes>

    constructor ()
      ensures files == map[]
    {
      files := map[];
    }

    /** `stage_local_tree(src, dest, limits)`: what it returns, and what it leaves on disk on every path. */
    method StageLocalTree(src: Source, job: Job) returns (r: Result<seq<string>>)
      modifies this
      ensures r == StageResult(job, src).1
      ensures files == Written(old(files), StageResult(job, src).0.written)
    {
      var st, raised;
      ghost var was := files;
      match src {
        case OneFile(item) =>
          st, raised := PlaceFile(job, START, item, was);
          OneStage(job, item);
        case Walked(_, levels) =>
          st, raised := WalkLevels(job, levels, was);
      }
      return if raised.Some? then Raised(raised.value) else Ok(Sort(Le, st.staged));
    }

    method PlaceFile(job: Job, st: Progress, item: Item, ghost was: map<string, Bytes>)
        returns (next: Progress, raised: Option<PyError>)
      requires files == Written(was, st.written)
      modifies this
      ensures (next, raised) == Place(job, st, item)
      ensures files == Written(was, next.written)
    {
      if item.link {
        return st, Some(QuarantineError);
      }
      if |st.staged| + 1 > job.limits.maxFiles {
        return st, Some(QuarantineError);
      }
      if item.size.Raised? {
        return st, Some(item.size.error);
      }
      var size := item.size.value;
      if size > job.limits.maxFileBytes {
        return st, Some(QuarantineError);
      }
      var total := st.total + size;
      if total > job.limits.maxTotalBytes {
        return st, Some(QuarantineError);
      }
      var target := job.target(item.rel);
      if target.Raised? {
        return st, Some(target.error);
      }
      next, raised := CopyFile(st, item, size, target.value, was);
    }

    method CopyFile(st: Progress, item: Item, size: nat, target: string, ghost was: map<string, Bytes>)
        returns (next: Progress, raised: Option<PyError>)
      requires files == Written(was, st.written)
      modifies this
      ensures (next, raised) == CopyTo(st, item, size, target)
      ensures files == Written(was, next.written)
    {
      var total := st.total + size;
      if item.copyFault.Some? && !item.copyFault.value.begun {
        return st.(total := total), Some(item.copyFault.value.error);
      }
      files := files[target := item.content];
      next := Progress(st.staged, total, st.written + [(target, item.content)]);
      assert next.written[..|next.written| - 1] == st.written;
      if item.copyFault.Some? {
        return next, Some(item.copyFault.value.error);
      }
      return next.(staged := st.staged + [item.rel]), None;
    }

    method WalkLevels(job: Job, levels: seq<Level>, ghost was: map<string, Bytes>)
        returns (st: Progress, raised: Option<PyError>)
      requires files == was
      modifies this
      ensures (st, raised) == Stage(job, START, Entries(levels))
      ensures files == Written(was, st.written)
    {
      st, raised := START, None;
      assert levels[0..] == levels;
      for k := 0 to |levels|
        invariant Stage(job, START, Entries(levels)) == Stage(job, st, Entries(levels[k..])) && raised.None?
        invariant files == Written(was, st.written)
      {
        assert levels[k..][1..] == levels[k + 1..];
        LevelStage(job, st, levels[k..]);
        var linked := AnyLink(levels[k].folders);
        if linked {
          return st, Some(QuarantineError);
        }
        st, raised := WalkItems(job, st, levels[k].items, was);
        if raised.Some? {
          return;
        }
      }
    }

    method AnyLink(folders: seq<bool>) returns (linked: bool)
      ensures linked == (true in folders)
    {
      for j := 0 to |folders|
        invariant forall i :: 0 <= i < j ==> !folders[i]
      {
        if folders[j] {
          return true;
        }
      }
      return false;
    }

    method WalkItems(job: Job, st0: Progress, items: seq<Item>, ghost was: map<string, Bytes>)
        returns (st: Progress, raised: Option<PyError>)
      requires files == Written(was, st0.written)
      modifies this
      ensures (st, raised) == Stage(job, st0, Contents(items))
      ensures files == Written(was, st.written)
    {
      st, raised := st0, None;
      assert items[0..] == items;
      for i := 0 to |items|
        invariant Stage(job, st0, Contents(items)) == Stage(job, st, Contents(items[i..])) && raised.None?
        invariant files == Written(was, st.written)
      {
        assert items[i..][1..] == items[i + 1..] && Contents(items[i..])[1..] == Contents(items[i + 1..]);
        st, raised := PlaceFile(job, st, items[i], was);
        if raised.Some? {
          return;
        }
      }
    }
  }

  // ---- budgets -------------------------------------------------------------

  function Sum(sizes: seq<int>): int {
    if sizes == [] then 0 else sizes[0] + Sum(sizes[1..])
  }

  function Lengths(writes: seq<(string, Bytes)>): nat {
    if writes == [] then 0 else Lengths(writes[..|writes| - 1]) + |writes[|writes| - 1].1|
  }

  /** What has been copied is within every limit. */
  predicate WithinLimits(limits: Limits, st: Progress) {
    && |st.staged| <= |st.written| <= |st.staged| + 1 && |st.written| <= limits.maxFiles
    && st.total <= limits.maxTotalBytes && Lengths(st.written) <= st.total
    && forall w :: w in st.written ==> |w.1| <= limits.maxFileBytes
  }

  /** The bytes a copy writes are at most the size just measured. */
  predicate Measured(e: Entry) { e.Content? && e.item.size.Ok? ==> |e.item.content| <= e.item.size.value }

  lemma PlaceWithinLimits(job: Job, st: Progress, item: Item)
    requires WithinLimits(job.limits, st) && |st.staged| == |st.written| && Measured(Content(item))
    ensures var (next, raised) := Place(job, st, item);
      WithinLimits(job.limits, next) && (raised.None? ==> |next.staged| == |next.written|)
  {
    var next := Place(job, st, item).0;
    if next.written != st.written {
      assert next.written[..|next.written| - 1] == st.written;
    }
  }

  /** At every moment of every run, successful or not: the run over any initial part of the walk, which is where
      the whole run stands after that part, has copied no more files and no more bytes than the limits allow. */
  lemma {:induction false} AlwaysWithinLimits(job: Job, st: Progress, entries: seq<Entry>)
    requires WithinLimits(job.limits, st) && |st.staged| == |st.written|
    requires forall e :: e in entries ==> Measured(e)
    ensures WithinLimits(job.limits, Stage(job, st, entries).0)
    decreases |entries|
  {
    if entries != [] {
      assert entries[0] in entries && forall e :: e in entries[1..] ==> e in entries;
      if entries[0].Content? { PlaceWithinLimits(job, st, entries[0].item); }
      var (next, raised) := PlaceEntry(job, st, entries[0]);
      if raised.None? { AlwaysWithinLimits(job, next, entries[1..]); }
    }
  }

  // ---- when staging succeeds -----------------------------------------------

  function ItemsOf(entries: seq<Entry>): seq<Item> {
    if entries == [] then []
    else (if entries[0].Content? then [entries[0].item] else []) + ItemsOf(entries[1..])
  }

  /** Nothing about the file itself stands in the way. */
  predicate Stageable(job: Job, item: Item)
  {
    !item.link && item.size.Ok? && job.target(item.rel).Ok? && item.copyFault.None?
  }

  function SizeOf(item: Item): int { match item.size case Ok(n) => n case Raised(_) => 0 }

  function Sizes(items: seq<Item>): (r: seq<int>) {
    if items == [] then [] else [SizeOf(items[0])] + Sizes(items[1..])
  }

  function Rels(items: seq<Item>): (r: seq<string>) {
    if items == [] then [] else [items[0].rel] + Rels(items[1..])
  }

  /** `check_declared_sizes`. */
  function CheckDeclared(limits: Limits, sizes: seq<int>): Option<PyError> {
    if |sizes| > limits.maxFiles then Some(QuarantineError)
    else if exists s :: s in sizes && s > limits.maxFileBytes then Some(QuarantineError)
    else if Sum(sizes) > limits.maxTotalBytes then Some(QuarantineError)
    else None
  }

  /** The running guard of the copy, on sizes alone: each size is checked before the next file is looked at. */
  predicate RunningOk(limits: Limits, count: nat, total: int, sizes: seq<int>)
    decreases |sizes|
  {
    sizes == [] || (count + 1 <= limits.maxFiles && sizes[0] <= limits.maxFileBytes
      && total + sizes[0] <= limits.maxTotalBytes && RunningOk(limits, count + 1, total + sizes[0], sizes[1..]))
  }

  lemma {:induction false} SumNonNegative(sizes: seq<int>)
    requires forall s :: s in sizes ==> s >= 0
    ensures Sum(sizes) >= 0
  {
    if sizes != [] {
      assert sizes[0] in sizes && forall s :: s in sizes[1..] ==> s in sizes;
      SumNonNegative(sizes[1..]);
    }
  }

  /** On sizes that are not negative, checking as one goes decides as checking the lot. */
  lemma {:induction false} RunningIsWhole(limits: Limits, count: nat, total: int, sizes: seq<int>)
    requires forall s :: s in sizes ==> s >= 0
    requires count <= limits.maxFiles && total <= limits.maxTotalBytes
    ensures RunningOk(limits, count, total, sizes) <==>
      (count + |sizes| <= limits.maxFiles && (forall s :: s in sizes ==> s <= limits.maxFileBytes)
       && total + Sum(sizes) <= limits.maxTotalBytes)
    decreases |sizes|
  {
    if sizes != [] {
      assert sizes == [sizes[0]] + sizes[1..];
      assert forall s :: s in sizes[1..] ==> s in sizes;
      assert sizes[0] in sizes;
      assert (forall s :: s in sizes ==> s <= limits.maxFileBytes)
        <==> (sizes[0] <= limits.maxFileBytes && forall s :: s in sizes[1..] ==> s <= limits.maxFileBytes);
      SumNonNegative(sizes[1..]);
      if count + 1 <= limits.maxFiles && total + sizes[0] <= limits.maxTotalBytes {
        RunningIsWhole(limits, count + 1, total + sizes[0], sizes[1..]);
      }
    }
  }

  /** On any sizes, checking as one goes asks the same of the count and of each size, but of every partial sum what
      checking the lot asks of the last. */
  lemma {:induction false} RunningExactly(limits: Limits, count: nat, total: int, sizes: seq<int>)
    requires count <= limits.maxFiles && total <= limits.maxTotalBytes
    ensures RunningOk(limits, count, total, sizes) <==>
      (count + |sizes| <= limits.maxFiles && (forall s :: s in sizes ==> s <= limits.maxFileBytes)
       && forall k :: 0 <= k <= |sizes| ==> total + Sum(sizes[..k]) <= limits.maxTotalBytes)
    decreases |sizes|
  {
    if sizes != [] {
      var rest := sizes[1..];
      assert sizes == [sizes[0]] + rest && sizes[0] in sizes && forall s :: s in rest ==> s in sizes;
      assert (forall s :: s in sizes ==> s <= limits.maxFileBytes)
        <==> (sizes[0] <= limits.maxFileBytes && forall s :: s in rest ==> s <= limits.maxFileBytes);
      PartialSums(limits.maxTotalBytes, total, sizes);
      if count + 1 <= limits.maxFiles && total + sizes[0] <= limits.maxTotalBytes {
        RunningExactly(limits, count + 1, total + sizes[0], rest);
      }
    }
  }

  lemma PartialSums(cap: int, total: int, sizes: seq<int>)
    requires sizes != [] && total <= cap
    ensures (forall k :: 0 <= k <= |sizes| ==> total + Sum(sizes[..k]) <= cap) <==>
      (total + sizes[0] <= cap && forall k :: 0 <= k <= |sizes| - 1 ==> total + sizes[0] + Sum(sizes[1..][..k]) <= cap)
  {
    forall k | 1 <= k <= |sizes| ensures Sum(sizes[..k]) == sizes[0] + Sum(sizes[1..][..k - 1]) {
      assert sizes[..k][1..] == sizes[1..][..k - 1];
    }
    assert Sum(sizes[..0]) == 0 && Sum(sizes[1..][..0]) == 0;
    if forall k :: 0 <= k <= |sizes| ==> total + Sum(sizes[..k]) <= cap {
      assert total + Sum(sizes[..1]) <= cap;
      forall k | 0 <= k <= |sizes| - 1 ensures total + sizes[0] + Sum(sizes[1..][..k]) <= cap {
        assert total + Sum(sizes[..k + 1]) <= cap;
      }
    }
  }

  /** Declared sizes may be negative, and then the running guard is the stricter: three files at the cap break the
      total before a negative size makes up for them. */
  lemma NegativeSizesDiffer()
    ensures DEFAULT_LIMITS == Limits(68719476736, 137438953472, 100000)
    ensures var sizes := [64 * GIB, 64 * GIB, 64 * GIB, -64 * GIB];
      CheckDeclared(DEFAULT_LIMITS, sizes).None? && !RunningOk(DEFAULT_LIMITS, 0, 0, sizes)
  {
    var sizes := [64 * GIB, 64 * GIB, 64 * GIB, -64 * GIB];
    assert sizes[1..] == [64 * GIB, 64 * GIB, -64 * GIB] && sizes[1..][1..] == [64 * GIB, -64 * GIB];
    assert [64 * GIB, -64 * GIB][1..] == [-64 * GIB] && [-64 * GIB][1..] == [];
    assert Sum([-64 * GIB]) == -64 * GIB && Sum([64 * GIB, -64 * GIB]) == 0;
    assert Sum(sizes[1..]) == 64 * GIB;
    assert Sum(sizes) == 128 * GIB;
    assert !RunningOk(DEFAULT_LIMITS, 2, 128 * GIB, [64 * GIB, -64 * GIB]);
    assert !RunningOk(DEFAULT_LIMITS, 1, 64 * GIB, sizes[1..]);
  }

  /** What a successful run writes. */
  function Writes(job: Job, items: seq<Item>): seq<(string, Bytes)>
    requires forall x :: x in items ==> Stageable(job, x)
  {
    if items == [] then []
    else
      assert items[0] in items && forall x :: x in items[1..] ==> x in items;
      assert Stageable(job, items[0]);
      [(job.target(items[0].rel).value, items[0].content)] + Writes(job, items[1..])
  }

  predicate NoLinkedFolder(entries: seq<Entry>) { forall e :: e in entries ==> !(e.Folder? && e.link) }

  ghost predicate AllStageable(job: Job, items: seq<Item>)
  {
    forall x :: x in items ==> Stageable(job, x)
  }

  lemma SizesNonNegative(items: seq<Item>)
    ensures forall s :: s in Sizes(items) ==> s >= 0
  {
  }

  /** One entry is accepted on its own merits and on the running counts. */
  lemma PlaceAccepts(job: Job, st: Progress, item: Item)
    ensures var (next, raised) := Place(job, st, item);
      && (raised.None? <==>
          (Stageable(job, item) && |st.staged| + 1 <= job.limits.maxFiles && SizeOf(item) <= job.limits.maxFileBytes
           && st.total + SizeOf(item) <= job.limits.maxTotalBytes))
      && (raised.None? ==> next == Progress(st.staged + [item.rel], st.total + SizeOf(item),
                                            st.written + [(job.target(item.rel).value, item.content)]))
  {
  }

  ghost predicate Decides(job: Job, st: Progress, entries: seq<Entry>)
  {
    var items := ItemsOf(entries);
    var (last, raised) := Stage(job, st, entries);
    && (raised.None? <==>
        (NoLinkedFolder(entries) && AllStageable(job, items)
         && RunningOk(job.limits, |st.staged|, st.total, Sizes(items))))
    && (raised.None? ==> last.staged == st.staged + Rels(items) && last.written == st.written + Writes(job, items))
  }

  lemma {:induction false} StageAccepts(job: Job, st: Progress, entries: seq<Entry>)
    ensures Decides(job, st, entries)
    decreases |entries|
  {
    if entries == [] {
      assert st.staged + [] == st.staged && st.written + [] == st.written;
    } else {
      StageAccepts(job, PlaceEntry(job, st, entries[0]).0, entries[1..]);
      match entries[0]
      case Folder(_) => FolderDecides(job, st, entries);
      case Content(_) => ContentDecides(job, st, entries);
    }
  }

  lemma FolderDecides(job: Job, st: Progress, entries: seq<Entry>)
    requires entries != [] && entries[0].Folder? && Decides(job, st, entries[1..])
    ensures Decides(job, st, entries)
  {
    assert entries == [entries[0]] + entries[1..];
    assert ItemsOf(entries) == ItemsOf(entries[1..]);
  }

  lemma ContentDecides(job: Job, st: Progress, entries: seq<Entry>)
    requires entries != [] && entries[0].Content?
    requires Decides(job, Place(job, st, entries[0].item).0, entries[1..])
    ensures Decides(job, st, entries)
  {
    var item, rest := entries[0].item, ItemsOf(entries[1..]);
    var items := ItemsOf(entries);
    assert entries == [entries[0]] + entries[1..];
    assert items == [item] + rest && items[1..] == rest && items[0] == item;
    assert AllStageable(job, items) <==> (Stageable(job, item) && AllStageable(job, rest));
    PlaceAccepts(job, st, item);
    if AllStageable(job, items) { AcceptedJoins(job, st, item, rest); }
  }

  lemma AcceptedJoins(job: Job, st: Progress, item: Item, items: seq<Item>)
    requires AllStageable(job, [item] + items)
    ensures AllStageable(job, items) && Stageable(job, item)
    ensures st.staged + [item.rel] + Rels(items) == st.staged + Rels([item] + items)
    ensures st.written + [(job.target(item.rel).value, item.content)] + Writes(job, items)
         == st.written + Writes(job, [item] + items)
  {
    assert ([item] + items)[1..] == items && ([item] + items)[0] in [item] + items;
    assert forall x :: x in items ==> x in [item] + items;
  }

  /** Staging succeeds exactly when there is no link below the source, every file is readable with a safe name, and the sizes
      pass the check that declared sizes get; it then returns the sorted names of exactly those files, and has
      written each of them once, in full, and nothing else. */
  lemma StagingSucceedsExactly(job: Job, src: Source)
    ensures var items := ItemsOf(EntriesOf(src)); var (st, r) := StageResult(job, src);
      && (r.Ok? <==>
          (NoLinkedFolder(EntriesOf(src)) && AllStageable(job, items)
           && CheckDeclared(job.limits, Sizes(items)).None?))
      && (r.Ok? ==> r.value == Sort(Le, Rels(items)) && st.written == Writes(job, items))
  {
    var items := ItemsOf(EntriesOf(src));
    StageAccepts(job, START, EntriesOf(src));
    SizesNonNegative(items);
    SizesLength(items);
    RunningIsWhole(job.limits, 0, 0, Sizes(items));
    if AllStageable(job, items) {
      assert [] + Rels(items) == Rels(items) && [] + Writes(job, items) == Writes(job, items);
    }
  }

  // ---- what stops staging -----------------------------------------------------

  /** A guard of the quarantine's own is in the way: a link, or a limit. */
  predicate Refused(limits: Limits, st: Progress, item: Item) {
    || item.link || |st.staged| >= limits.maxFiles
    || (item.size.Ok? && (item.size.value > limits.maxFileBytes || st.total + item.size.value > limits.maxTotalBytes))
  }

  /** What one file raises. The quarantine's guards come first, then the failing step's own exception; nothing is written
      unless the copy itself fails after it has begun. */
  lemma WhatAFileRaises(job: Job, st: Progress, item: Item)
    ensures var (next, raised) := Place(job, st, item);
      if Refused(job.limits, st, item) then next == st && raised == Some(QuarantineError)
      else if item.size.Raised? then next == st && raised == Some(item.size.error)
      else if job.target(item.rel).Raised? then next == st && raised == Some(job.target(item.rel).error)
      else if item.copyFault.None? then raised.None?
      else
        && raised == Some(item.copyFault.value.error) && next.staged == st.staged
        && next.written == if item.copyFault.value.begun then st.written + [(job.target(item.rel).value, item.content)]
                           else st.written
  {
  }

  /** A failed run stops at the first entry that raises: all before it are staged, none after it is looked at. */
  lemma {:induction false} FirstObstacle(job: Job, st: Progress, entries: seq<Entry>) returns (k: nat)
    requires Stage(job, st, entries).1.Some?
    ensures k < |entries| && Stage(job, st, entries[..k]).1.None?
    ensures Stage(job, st, entries) == PlaceEntry(job, Stage(job, st, entries[..k]).0, entries[k])
    decreases |entries|
  {
    var (next, raised) := PlaceEntry(job, st, entries[0]);
    if raised.Some? {
      k := 0;
    } else {
      var j := FirstObstacle(job, next, entries[1..]);
      k := j + 1;
      assert entries[..k][0] == entries[0] && entries[..k][1..] == entries[1..][..j];
    }
  }

  /** So of a failed `stage_local_tree`: what is on disk are the files before the one that raised, and perhaps a part of
      that one; a linked folder raises `QuarantineError`. */
  lemma FailedStaging(job: Job, src: Source) returns (k: nat)
    requires StageResult(job, src).1.Raised?
    ensures var es, (st, r) := EntriesOf(src), StageResult(job, src);
      && k < |es| && AllStageable(job, ItemsOf(es[..k]))
      && var before := Stage(job, START, es[..k]).0;
         && before.staged == Rels(ItemsOf(es[..k])) && before.written == Writes(job, ItemsOf(es[..k]))
         && match es[k]
            case Folder(link) => link && st == before && r == Raised(QuarantineError)
            case Content(item) => Place(job, before, item) == (st, Some(r.error))
  {
    var es := EntriesOf(src);
    k := FirstObstacle(job, START, es);
    StageAccepts(job, START, es[..k]);
    var items := ItemsOf(es[..k]);
    assert [] + Rels(items) == Rels(items) && [] + Writes(job, items) == Writes(job, items);
  }

  /** Some path of the artifact is a link: the source itself, a folder or a file. */
  predicate HasLink(src: Source) {
    match src
    case OneFile(item) => item.link
    case Walked(linked, levels) =>
      linked || !NoLinkedFolder(Entries(levels)) || exists x :: x in ItemsOf(Entries(levels)) && x.link
  }

  /** What is staged has no link in it, with the one exception that the code does not look for: the path to a source
      directory may itself be a link. */
  lemma OnlyRootLinkPasses(job: Job, src: Source)
    requires StageResult(job, src).1.Ok?
    ensures HasLink(src) <==> src.Walked? && src.linked
  {
    StagingSucceedsExactly(job, src);
    match src
    case OneFile(item) => assert ItemsOf(EntriesOf(src)) == [item] && Stageable(job, item);
    case Walked(_, levels) =>
      forall x | x in ItemsOf(Entries(levels)) ensures !x.link {
        assert Stageable(job, x);
      }
  }

  /** Such a source is staged as the directory it leads to, whatever that is; already the empty one gets through. */
  lemma RootLinkIsFollowed(job: Job, levels: seq<Level>)
    ensures StageResult(job, Walked(true, levels)) == StageResult(job, Walked(false, levels))
    ensures HasLink(Walked(true, [])) && StageResult(job, Walked(true, [])).1.Ok?
  {
    StagingSucceedsExactly(job, Walked(true, []));
    assert ItemsOf([]) == [] && Sizes([]) == [];
  }

  lemma {:induction false} SizesLength(items: seq<Item>)
    ensures |Sizes(items)| == |items|
  {
    if items != [] { SizesLength(items[1..]); }
  }

  // ---- checking what was staged --------------------------------------------

  /** `getsize(safe_join(root, rel))`. */
  function Measure(job: Job, files: map<string, Bytes>, rel: string): Result<nat>
  {
    var target :- job.target(rel);
    if target in files then Ok(|files[target]|) else Raised(OSError)
  }

  function EnforceFrom(job: Job, files: map<string, Bytes>, total: nat, rels: seq<string>): Option<PyError>
    decreases |rels|
  {
    if rels == [] then (if total > job.limits.maxTotalBytes then Some(QuarantineError) else None)
    else match Measure(job, files, rels[0])
      case Raised(e) => Some(e)
      case Ok(size) =>
        if size > job.limits.maxFileBytes then Some(QuarantineError)
        else EnforceFrom(job, files, total + size, rels[1..])
  }

  /** `enforce`. */
  method Enforce(job: Job, files: map<string, Bytes>, rels: seq<string>) returns (raised: Option<PyError>)
    ensures raised == if |rels| > job.limits.maxFiles then Some(QuarantineError) else EnforceFrom(job, files, 0, rels)
  {
    if |rels| > job.limits.maxFiles {
      return Some(QuarantineError);
    }
    var total := 0;
    assert rels[0..] == rels;
    for i := 0 to |rels|
      invariant total >= 0 && EnforceFrom(job, files, 0, rels) == EnforceFrom(job, files, total, rels[i..])
    {
      assert rels[i..][1..] == rels[i + 1..];
      var size := Measure(job, files, rels[i]);
      if size.Raised? {
        return Some(size.error);
      }
      if size.value > job.limits.maxFileBytes {
        return Some(QuarantineError);
      }
      total := total + size.value;
    }
    return if total > job.limits.maxTotalBytes then Some(QuarantineError) else None;
  }

  /** `check_declared_sizes`. */
  method CheckDeclaredSizes(limits: Limits, sizes: seq<int>) returns (raised: Option<PyError>)
    ensures raised == CheckDeclared(limits, sizes)
    ensures raised == if |sizes| <= limits.maxFiles && (forall s :: s in sizes ==> s <= limits.maxFileBytes)
                         && Sum(sizes) <= limits.maxTotalBytes then None else Some(QuarantineError)
  {
    if |sizes| > limits.maxFiles {
      return Some(QuarantineError);
    }
    for i := 0 to |sizes|
      invariant forall k :: 0 <= k < i ==> sizes[k] <= limits.maxFileBytes
    {
      if sizes[i] > limits.maxFileBytes {
        assert sizes[i] in sizes;
        return Some(QuarantineError);
      }
    }
    return if Sum(sizes) > limits.maxTotalBytes then Some(QuarantineError) else None;
  }

  // ---- the copy reads back --------------------------------------------------

  /** A name the walk produces: ordinary components below the source. */
  ghost predicate WalkName(rel: string) { exists parts :: parts != [] && Names(parts) && rel == Join(parts) }

  /** Different names of the walk go to different places. */
  lemma TargetsDistinct(cwd: Cwd, dest: string, r1: string, r2: string)
    requires WalkName(r1) && WalkName(r2)
    requires SafeJoin(cwd, dest, r1).Ok? && SafeJoin(cwd, dest, r1) == SafeJoin(cwd, dest, r2)
    ensures r1 == r2
  {
    var p1 :| p1 != [] && Names(p1) && r1 == Join(p1);
    var p2 :| p2 != [] && Names(p2) && r2 == Join(p2);
    var lead, base := LeadOf(cwd, dest), Parts(cwd, dest);
    TargetOfNames(cwd, dest, p1);
    TargetOfNames(cwd, dest, p2);
    var t1, t2 := lead + Join(base + p1), lead + Join(base + p2);
    assert t1[|lead|..] == Join(base + p1) && t2[|lead|..] == Join(base + p2);
    SplitOfJoin(base + p1);
    SplitOfJoin(base + p2);
    assert (base + p1)[|base|..] == p1 && (base + p2)[|base|..] == p2;
  }

  lemma TargetOfNames(cwd: Cwd, dest: string, parts: seq<string>)
    requires parts != [] && Names(parts) && SafeJoin(cwd, dest, Join(parts)).Ok?
    ensures SafeJoin(cwd, dest, Join(parts)) == Ok(LeadOf(cwd, dest) + Join(Parts(cwd, dest) + parts))
  {
    SplitOfJoin(parts);
    ResolvePlain(Parts(cwd, dest), parts);
    SafeJoinExact(cwd, dest, Join(parts));
  }

  lemma {:induction false} WritesAt(job: Job, items: seq<Item>, i: nat)
    requires AllStageable(job, items) && i < |items|
    ensures |Writes(job, items)| == |items|
    ensures Stageable(job, items[i]) && Writes(job, items)[i] == (job.target(items[i].rel).value, items[i].content)
  {
    assert items[i] in items && forall x :: x in items[1..] ==> x in items;
    if i > 0 { WritesAt(job, items[1..], i - 1); } else { WritesLength(job, items); }
  }

  lemma {:induction false} WritesLength(job: Job, items: seq<Item>)
    requires AllStageable(job, items)
    ensures |Writes(job, items)| == |items|
  {
    if items != [] {
      assert forall x :: x in items[1..] ==> x in items;
      WritesLength(job, items[1..]);
    }
  }

  lemma {:induction false} WrittenAt(files: map<string, Bytes>, writes: seq<(string, Bytes)>, i: nat)
    requires i < |writes| && forall j, k :: 0 <= j < k < |writes| ==> writes[j].0 != writes[k].0
    ensures writes[i].0 in Written(files, writes) && Written(files, writes)[writes[i].0] == writes[i].1
  {
    if i < |writes| - 1 { WrittenAt(files, writes[..|writes| - 1], i); }
  }

  /** The source as the walk found it, and the staged copy read through the same names. */
  function SourceTree(items: seq<Item>): (t: Hashing.Tree)
    ensures |t| == |items|
  {
    seq(|items|, i requires 0 <= i < |items| => Hashing.File(items[i].rel, items[i].content))
  }

  function StagedTree(job: Job, files: map<string, Bytes>, items: seq<Item>): Hashing.Tree
    requires forall x :: x in items ==> job.target(x.rel).Ok? && job.target(x.rel).value in files
  {
    seq(|items|, i requires 0 <= i < |items| =>
      assert items[i] in items; Hashing.File(items[i].rel, files[job.target(items[i].rel).value]))
  }

  /** A successful copy is the source, file for file and byte for byte, so both have one tree digest. */
  lemma StagedReadsBack(cwd: Cwd, dest: string, limits: Limits, src: Source, before: map<string, Bytes>)
    requires var job, items := JobFor(cwd, dest, limits), ItemsOf(EntriesOf(src));
      StageResult(job, src).1.Ok? && NoRepeats(Rels(items)) && forall x :: x in items ==> WalkName(x.rel)
    ensures var job, items := JobFor(cwd, dest, limits), ItemsOf(EntriesOf(src));
      var after := Written(before, StageResult(job, src).0.written);
      && (forall x :: x in items ==> job.target(x.rel).Ok? && job.target(x.rel).value in after)
      && StagedTree(job, after, items) == SourceTree(items)
  {
    var job, items := JobFor(cwd, dest, limits), ItemsOf(EntriesOf(src));
    var after := Written(before, StageResult(job, src).0.written);
    StagingSucceedsExactly(job, src);
    forall i | 0 <= i < |items|
      ensures job.target(items[i].rel).Ok? && job.target(items[i].rel).value in after
      ensures after[job.target(items[i].rel).value] == items[i].content
    {
      FileReadsBack(cwd, dest, limits, items, before, i);
    }
  }

  lemma FileReadsBack(cwd: Cwd, dest: string, limits: Limits, items: seq<Item>, before: map<string, Bytes>, i: nat)
    requires AllStageable(JobFor(cwd, dest, limits), items) && i < |items|
    requires NoRepeats(Rels(items)) && forall x :: x in items ==> WalkName(x.rel)
    ensures var job := JobFor(cwd, dest, limits); var after := Written(before, Writes(job, items));
      && job.target(items[i].rel).Ok? && job.target(items[i].rel).value in after
      && after[job.target(items[i].rel).value] == items[i].content
  {
    var job := JobFor(cwd, dest, limits);
    var writes := Writes(job, items);
    WritesLength(job, items);
    forall j, k | 0 <= j < k < |writes| ensures writes[j].0 != writes[k].0 {
      WritesAt(job, items, j);
      WritesAt(job, items, k);
      RelsAt(items, j);
      RelsAt(items, k);
      assert items[j] in items && items[k] in items;
      if writes[j].0 == writes[k].0 { TargetsDistinct(cwd, dest, items[j].rel, items[k].rel); }
    }
    WritesAt(job, items, i);
    WrittenAt(before, writes, i);
  }

  lemma {:induction false} RelsAt(items: seq<Item>, i: nat)
    requires i < |items|
    ensures |Rels(items)| == |items| && Rels(items)[i] == items[i].rel
  {
    if i > 0 { RelsAt(items[1..], i - 1); } else { RelsLength(items); }
  }

  lemma {:induction false} RelsLength(items: seq<Item>)
    ensures |Rels(items)| == |items|
  {
    if items != [] { RelsLength(items[1..]); }
  }

  /** `enforce` accepts exactly when every file can be measured and the sizes pass the same check. */
  lemma {:induction false} EnforceExact(job: Job, files: map<string, Bytes>, total: nat, rels: seq<string>)
    ensures EnforceFrom(job, files, total, rels).None? <==>
      ((forall r :: r in rels ==> Measure(job, files, r).Ok? && Measure(job, files, r).value <= job.limits.maxFileBytes)
       && total + Sum(Measures(job, files, rels)) <= job.limits.maxTotalBytes)
    decreases |rels|
  {
    if rels != [] {
      assert rels == [rels[0]] + rels[1..];
      var size := Measure(job, files, rels[0]);
      if size.Ok? && size.value <= job.limits.maxFileBytes {
        EnforceExact(job, files, total + size.value, rels[1..]);
      } else {
        assert rels[0] in rels;
      }
    }
  }

  /** What `enforce` raises: the quarantine's own error, or an `OSError` for a name with a safe place but no file there. */
  lemma {:induction false} EnforceErrors(cwd: Cwd, dest: string, limits: Limits, files: map<string, Bytes>, total: nat,
                                         rels: seq<string>)
    requires EnforceFrom(JobFor(cwd, dest, limits), files, total, rels).Some?
    ensures var e := EnforceFrom(JobFor(cwd, dest, limits), files, total, rels).value;
      && (e.QuarantineError? || e.OSError?)
      && (e.OSError? ==>
            exists r :: r in rels && SafeJoin(cwd, dest, r).Ok? && SafeJoin(cwd, dest, r).value !in files)
    decreases |rels|
  {
    if rels != [] {
      var size := Measure(JobFor(cwd, dest, limits), files, rels[0]);
      SafeJoinExact(cwd, dest, rels[0]);
      if size.Ok? && size.value <= limits.maxFileBytes {
        EnforceErrors(cwd, dest, limits, files, total + size.value, rels[1..]);
        assert forall r :: r in rels[1..] ==> r in rels;
      } else {
        assert rels[0] in rels;
      }
    }
  }

  function Measures(job: Job, files: map<string, Bytes>, rels: seq<string>): (r: seq<int>) {
    if rels == [] then []
    else [match Measure(job, files, rels[0]) case Ok(n) => n case Raised(_) => 0] + Measures(job, files, rels[1..])
  }

  lemma {:induction false} MeasuresConcat(job: Job, files: map<string, Bytes>, a: seq<string>, b: seq<string>)
    ensures Sum(Measures(job, files, a + b)) == Sum(Measures(job, files, a)) + Sum(Measures(job, files, b))
  {
    if a == [] {
      assert a + b == b;
    } else {
      assert (a + b)[1..] == a[1..] + b;
      MeasuresConcat(job, files, a[1..], b);
      assert Measures(job, files, a + b)[1..] == Measures(job, files, a[1..] + b);
      assert Measures(job, files, a)[1..] == Measures(job, files, a[1..]);
    }
  }

  lemma MeasuresExtract(job: Job, files: map<string, Bytes>, b: seq<string>, k: nat)
    requires k < |b|
    ensures Sum(Measures(job, files, b))
         == Sum(Measures(job, files, [b[k]])) + Sum(Measures(job, files, b[..k] + b[k + 1..]))
  {
    var l, m, r := b[..k], [b[k]], b[k + 1..];
    assert b == l + (m + r);
    MeasuresConcat(job, files, l, m + r);
    MeasuresConcat(job, files, m, r);
    MeasuresConcat(job, files, l, r);
  }

  /** Taking the same element out of two permuted lists leaves them permuted. */
  lemma DropCommon(a: seq<string>, b: seq<string>, k: nat)
    requires multiset(a) == multiset(b) && a != [] && k < |b| && b[k] == a[0]
    ensures multiset(a[1..]) == multiset(b[..k] + b[k + 1..]) && a[..0] + a[1..] == a[1..]
  {
    assert a[..0] + a[1..] == a[1..];
    Extract(a, 0);
    Extract(b, k);
  }

  lemma {:induction false} MeasuresPermute(job: Job, files: map<string, Bytes>, a: seq<string>, b: seq<string>)
    requires multiset(a) == multiset(b)
    ensures Sum(Measures(job, files, a)) == Sum(Measures(job, files, b))
  {
    if a == [] {
      assert |multiset(b)| == 0;
      assert b == [];
    } else {
      assert a[0] in multiset(b);
      var k :| 0 <= k < |b| && b[k] == a[0];
      DropCommon(a, b, k);
      MeasuresPermute(job, files, a[1..], b[..k] + b[k + 1..]);
      MeasuresExtract(job, files, a, 0);
      MeasuresExtract(job, files, b, k);
    }
  }

  lemma {:induction false} MeasuresAreSizes(job: Job, files: map<string, Bytes>, items: seq<Item>)
    requires forall x :: x in items ==> x.size.Ok? && Measure(job, files, x.rel) == Ok(x.size.value)
    ensures Measures(job, files, Rels(items)) == Sizes(items)
  {
    if items != [] {
      assert items[0] in items && forall x :: x in items[1..] ==> x in items;
      MeasuresAreSizes(job, files, items[1..]);
      assert Rels(items)[1..] == Rels(items[1..]);
    }
  }

  lemma SmallFile(job: Job, files: map<string, Bytes>, items: seq<Item>, rel: string)
    requires rel in Rels(items) && CheckDeclared(job.limits, Sizes(items)).None?
    requires forall x :: x in items ==> x.size.Ok? && Measure(job, files, x.rel) == Ok(x.size.value)
    ensures Measure(job, files, rel).Ok? && Measure(job, files, rel).value <= job.limits.maxFileBytes
  {
    RelsLength(items);
    var i :| 0 <= i < |items| && Rels(items)[i] == rel;
    RelsAt(items, i);
    SizesAt(items, i);
    assert items[i] in items && Sizes(items)[i] in Sizes(items);
  }

  /** The check made after staging agrees with the guard that ran during it. */
  lemma StagedPassesEnforce(cwd: Cwd, dest: string, limits: Limits, src: Source, before: map<string, Bytes>)
    requires var job, items := JobFor(cwd, dest, limits), ItemsOf(EntriesOf(src));
      && StageResult(job, src).1.Ok? && NoRepeats(Rels(items))
      && forall x :: x in items ==> WalkName(x.rel) && x.size == Ok(|x.content|)
    ensures var job := JobFor(cwd, dest, limits); var (st, r) := StageResult(job, src);
      |r.value| <= limits.maxFiles && EnforceFrom(job, Written(before, st.written), 0, r.value).None?
  {
    var job, items := JobFor(cwd, dest, limits), ItemsOf(EntriesOf(src));
    var (st, r) := StageResult(job, src);
    var after := Written(before, st.written);
    StagingSucceedsExactly(job, src);
    SizesLength(items);
    RelsLength(items);
    LeTotalPreorder();
    SortPermutesAndOrders(Le, Rels(items));
    forall x | x in items ensures Measure(job, after, x.rel) == Ok(x.size.value) {
      var i :| 0 <= i < |items| && items[i] == x;
      FileReadsBack(cwd, dest, limits, items, before, i);
    }
    MeasuresAreSizes(job, after, items);
    MeasuresPermute(job, after, Rels(items), r.value);
    forall rel | rel in r.value
      ensures Measure(job, after, rel).Ok? && Measure(job, after, rel).value <= limits.maxFileBytes
    {
      assert rel in multiset(Rels(items));
      SmallFile(job, after, items, rel);
    }
    EnforceExact(job, after, 0, r.value);
  }

  lemma {:induction false} SizesAt(items: seq<Item>, i: nat)
    requires i < |items|
    ensures |Sizes(items)| == |items| && Sizes(items)[i] == SizeOf(items[i])
  {
    if i > 0 { SizesAt(items[1..], i - 1); } else { SizesLength(items); }
  }
}
