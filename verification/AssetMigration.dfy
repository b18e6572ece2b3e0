/**
 Copying the legacy asset tree into the public storage tree: first classify every file, then copy only
 when nothing needs review. The file system is a finite map from absolute paths to entries.
 */
module AssetMigration {
  import opened Sums

  type Path = seq<string>
  type Bytes = seq<bv8>

  /** Other stands for symbolic links and special files. */
  datatype Entry = File(content: Bytes) | Dir | Other

  type FileSystem = map<Path, Entry>

  datatype Setup = Setup(legacyRoot: Path, publicRoot: Path, hash: Bytes -> string)

  datatype Kind = Pending | Same | Conflict

  /** Failed is an operating system error other than a missing entry, which the migration lets through. */
  datatype Outcome = Failed | Migrated(copied: nat, skipped: nat, conflicts: seq<Path>)

  // ---------- The tree ----------

  function Parent(p: Path): Path
    requires p != []
  {
    p[..|p| - 1]
  }

  /** Only directories have entries below them. */
  ghost predicate WellFormed(fs: FileSystem) {
    && [] in fs && fs[[]].Dir?
    && forall p {:trigger Parent(p)} | p in fs && p != [] :: Parent(p) in fs && fs[Parent(p)].Dir?
  }

  lemma {:induction false} AncestorsAreDirectories(fs: FileSystem, p: Path, q: Path)
    requires WellFormed(fs) && p in fs && q < p
    ensures q in fs && fs[q].Dir?
    decreases |p|
  {
    var parent := Parent(p);
    if q != parent { AncestorsAreDirectories(fs, parent, q); }
  }

  /** Some proper ancestor is a regular file, so looking the path up is an error rather than a miss. */
  predicate Blocked(fs: FileSystem, p: Path) {
    exists k | 0 <= k < |p| :: p[..k] in fs && fs[p[..k]].File?
  }

  ghost predicate NoLinkAbove(fs: FileSystem, p: Path) {
    forall q | q < p && q in fs :: !fs[q].Other?
  }

  /** What the migration takes for granted: a tree, roots apart, and no link on the way to either root. */
  ghost predicate Ready(u: Setup, fs: FileSystem) {
    && WellFormed(fs)
    && !(u.legacyRoot <= u.publicRoot) && !(u.publicRoot <= u.legacyRoot)
    && NoLinkAbove(fs, u.legacyRoot) && NoLinkAbove(fs, u.publicRoot)
    && (u.legacyRoot in fs ==> !fs[u.legacyRoot].Other?)
  }

  ghost function Below(fs: FileSystem, directory: Path): set<Path> { set p | p in fs && directory < p }

  function Children(fs: FileSystem, directory: Path): set<Path> {
    set p | p in fs && directory < p && |p| == |directory| + 1
  }

  /** Every regular file below the legacy root, at any depth. */
  ghost predicate Legacy(u: Setup, fs: FileSystem, p: Path) { p in fs && u.legacyRoot < p && fs[p].File? }

  ghost function FilesBelow(fs: FileSystem, directory: Path): set<Path> {
    set p | p in fs && directory < p && fs[p].File?
  }

  ghost function LegacyFiles(u: Setup, fs: FileSystem): set<Path> { FilesBelow(fs, u.legacyRoot) }

  function Relative(u: Setup, p: Path): Path
    requires u.legacyRoot <= p
  {
    p[|u.legacyRoot|..]
  }

  function Target(u: Setup, p: Path): Path
    requires u.legacyRoot <= p
  {
    u.publicRoot + Relative(u, p)
  }

  /** The legacy path that maps to a public path. */
  function Source(u: Setup, q: Path): Path
    requires u.publicRoot <= q
  {
    u.legacyRoot + q[|u.publicRoot|..]
  }

  lemma SourceOfTarget(u: Setup, p: Path)
    requires u.legacyRoot <= p
    ensures u.publicRoot <= Target(u, p) && Source(u, Target(u, p)) == p
  {
  }

  // ---------- Classification ----------

  /** Every existing directory from the public root down to the target is a real directory. */
  ghost predicate Safe(u: Setup, fs: FileSystem, target: Path) {
    forall q | u.publicRoot <= q < target && q in fs :: fs[q].Dir?
  }

  predicate SameContent(u: Setup, fs: FileSystem, source: Path, target: Path)
    requires source in fs && fs[source].File? && target in fs
  {
    fs[target].File? && u.hash(fs[source].content) == u.hash(fs[target].content)
  }

  ghost function KindOf(u: Setup, fs: FileSystem, p: Path): Kind
    requires Legacy(u, fs, p)
  {
    var target := Target(u, p);
    if !Safe(u, fs, target) then Conflict
    else if target !in fs then Pending
    else if SameContent(u, fs, p, target) then Same
    else Conflict
  }

  ghost function Those(u: Setup, fs: FileSystem, kind: Kind): set<Path> {
    set p | p in LegacyFiles(u, fs) && KindOf(u, fs, p) == kind
  }

  /** Nothing needs review, and the way to the public root is free. */
  ghost predicate Clear(u: Setup, fs: FileSystem) {
    && Those(u, fs, Conflict) == {}
    && (LegacyFiles(u, fs) != {} ==> forall q | q < u.publicRoot && q in fs :: fs[q].Dir?)
  }

  // ---------- The result ----------

  ghost function Needed(u: Setup, fs: FileSystem): set<Path> {
    set p, k | p in LegacyFiles(u, fs) && 0 <= k <= |u.publicRoot| + |p| - |u.legacyRoot| :: Target(u, p)[..k]
  }

  ghost predicate IsTarget(u: Setup, fs: FileSystem, q: Path) {
    u.publicRoot <= q && Legacy(u, fs, Source(u, q))
  }

  /** The file system with every legacy file in place: nothing existing changes. */
  ghost function Merge(u: Setup, fs: FileSystem): FileSystem {
    map q | q in fs.Keys + Needed(u, fs) ::
      if q in fs then fs[q] else if IsTarget(u, fs, q) then fs[Source(u, q)] else Dir
  }

  ghost predicate Extends(fs: FileSystem, g: FileSystem) {
    forall q | q in fs :: q in g && g[q] == fs[q]
  }

  lemma NeededIs(u: Setup, fs: FileSystem, q: Path)
    ensures q in Needed(u, fs) <==> exists p :: Legacy(u, fs, p) && q <= Target(u, p)
  {
    if q in Needed(u, fs) {
      var p, k :| p in LegacyFiles(u, fs) && 0 <= k <= |u.publicRoot| + |p| - |u.legacyRoot| && q == Target(u, p)[..k];
      assert Legacy(u, fs, p) && q <= Target(u, p);
    }
    if p :| Legacy(u, fs, p) && q <= Target(u, p) {
      assert p in LegacyFiles(u, fs) && q == Target(u, p)[..|q|];
    }
  }

  /** A proper ancestor of a target is never itself a target, and is a directory wherever it exists. */
  lemma {:induction false} AboveTargets(u: Setup, fs: FileSystem, p: Path, q: Path)
    requires Ready(u, fs) && Clear(u, fs) && Legacy(u, fs, p) && q < Target(u, p)
    ensures !IsTarget(u, fs, q)
    ensures q in fs ==> fs[q].Dir?
    ensures q in Merge(u, fs) && Merge(u, fs)[q].Dir?
  {
    SourceOfTarget(u, p);
    assert p in LegacyFiles(u, fs);
    assert p !in Those(u, fs, Conflict);
    assert Safe(u, fs, Target(u, p));
    if u.publicRoot <= q {
      assert Source(u, q) < p by {
        assert Source(u, q) == p[..|Source(u, q)|];
      }
      AncestorsAreDirectories(fs, p, Source(u, q));
    } else {
      assert q < u.publicRoot by {
        assert q == Target(u, p)[..|q|];
      }
    }
    NeededIs(u, fs, q);
  }

  lemma Comparable(a: Path, b: Path, p: Path)
    requires a <= p && b <= p
    ensures a <= b || b <= a
  {
  }

  /** Nothing is added under the legacy root. */
  lemma {:induction false} NothingAddedToLegacy(u: Setup, fs: FileSystem, g: FileSystem, p: Path)
    requires Ready(u, fs) && Extends(fs, g) && Extends(g, Merge(u, fs))
    requires p in g && u.legacyRoot <= p
    ensures p in fs
  {
  }

  /** Every legacy file ends up in place with the same hash, and nothing that existed changes. */
  lemma {:induction false} MergeInstallsEveryFile(u: Setup, fs: FileSystem, p: Path)
    requires Ready(u, fs) && Clear(u, fs) && Legacy(u, fs, p)
    ensures Extends(fs, Merge(u, fs))
    ensures Target(u, p) in Merge(u, fs) && SameContent(u, Merge(u, fs), p, Target(u, p))
    ensures Target(u, p) !in fs ==> Merge(u, fs)[Target(u, p)] == fs[p]
  {
    SourceOfTarget(u, p);
    NeededIs(u, fs, Target(u, p));
    assert p in LegacyFiles(u, fs);
    assert p !in Those(u, fs, Conflict);
  }

  ghost predicate CollisionFree(u: Setup, fs: FileSystem) {
    forall p, q | p in fs && q in fs && fs[p].File? && fs[q].File? && u.hash(fs[p].content) == u.hash(fs[q].content) ::
      fs[p] == fs[q]
  }

  /** With no hash collision among the files at hand, the copies hold the same bytes. */
  lemma {:induction false} CopiesAreEqual(u: Setup, fs: FileSystem, p: Path)
    requires Ready(u, fs) && Clear(u, fs) && CollisionFree(u, fs) && Legacy(u, fs, p)
    ensures Target(u, p) in Merge(u, fs) && Merge(u, fs)[Target(u, p)] == fs[p]
  {
    MergeInstallsEveryFile(u, fs, p);
  }

  /** The merged file system is again a tree. */
  lemma {:induction false} MergeIsWellFormed(u: Setup, fs: FileSystem)
    requires Ready(u, fs) && Clear(u, fs)
    ensures WellFormed(Merge(u, fs))
  {
    var merged := Merge(u, fs);
    forall q | q in merged && q != []
      ensures Parent(q) in merged && merged[Parent(q)].Dir?
    {
      if q !in fs {
        NeededIs(u, fs, q);
        var p :| Legacy(u, fs, p) && q <= Target(u, p);
        AboveTargets(u, fs, p, Parent(q));
      }
    }
  }

  // ---------- Interrupted and repeated runs ----------

  /** A tree some way between the start and the merged result. */
  ghost predicate Between(u: Setup, fs: FileSystem, g: FileSystem) {
    Extends(fs, g) && Extends(g, Merge(u, fs)) && WellFormed(g)
  }

  lemma {:induction false} LegacyUnchanged(u: Setup, fs: FileSystem, g: FileSystem)
    requires Ready(u, fs) && Between(u, fs, g)
    ensures forall p :: Legacy(u, g, p) <==> Legacy(u, fs, p)
    ensures LegacyFiles(u, g) == LegacyFiles(u, fs)
  {
    forall p ensures Legacy(u, g, p) <==> Legacy(u, fs, p) {
      if Legacy(u, g, p) { NothingAddedToLegacy(u, fs, g, p); }
    }
  }

  lemma {:induction false} BetweenIsReady(u: Setup, fs: FileSystem, g: FileSystem)
    requires Ready(u, fs) && Between(u, fs, g)
    ensures Ready(u, g)
  {
  }

  lemma {:induction false} BetweenIsClear(u: Setup, fs: FileSystem, g: FileSystem)
    requires Ready(u, fs) && Clear(u, fs) && Between(u, fs, g)
    ensures Clear(u, g)
  {
    LegacyUnchanged(u, fs, g);
    forall p | Legacy(u, g, p) ensures KindOf(u, g, p) != Conflict {
      forall q | q < Target(u, p) && q in g ensures g[q].Dir? { AboveTargets(u, fs, p, q); }
      MergeInstallsEveryFile(u, fs, p);
    }
    forall q | LegacyFiles(u, g) != {} && q < u.publicRoot && q in g ensures g[q].Dir? {
      if q !in fs {
        NeededIs(u, fs, q);
        var p :| Legacy(u, fs, p) && q <= Target(u, p);
        AboveTargets(u, fs, p, q);
      }
    }
  }

  lemma {:induction false} NeededDependsOnLegacy(u: Setup, fs: FileSystem, g: FileSystem)
    requires forall p :: Legacy(u, g, p) <==> Legacy(u, fs, p)
    ensures Needed(u, g) == Needed(u, fs)
  {
    forall q ensures q in Needed(u, g) <==> q in Needed(u, fs) {
      NeededIs(u, fs, q);
      NeededIs(u, g, q);
    }
  }

  lemma {:induction false} SameMerge(u: Setup, fs: FileSystem, g: FileSystem)
    requires Extends(fs, g) && Extends(g, Merge(u, fs)) && Needed(u, g) == Needed(u, fs)
    requires forall p :: Legacy(u, g, p) <==> Legacy(u, fs, p)
    ensures Merge(u, g) == Merge(u, fs)
  {
  }

  /**
   Wherever a run stopped, running again needs no review and reaches the same final state.
   */
  lemma {:induction false} InterruptedRunsConverge(u: Setup, fs: FileSystem, g: FileSystem)
    requires Ready(u, fs) && Clear(u, fs) && Between(u, fs, g)
    ensures Ready(u, g) && Clear(u, g) && Merge(u, g) == Merge(u, fs)
  {
    BetweenIsReady(u, fs, g);
    BetweenIsClear(u, fs, g);
    LegacyUnchanged(u, fs, g);
    NeededDependsOnLegacy(u, fs, g);
    SameMerge(u, fs, g);
  }

  /** A second run finds every file in place. */
  lemma {:induction false} SecondRunCopiesNothing(u: Setup, fs: FileSystem)
    requires Ready(u, fs) && Clear(u, fs)
    ensures Ready(u, Merge(u, fs)) && Clear(u, Merge(u, fs))
    ensures Those(u, Merge(u, fs), Pending) == {} && Those(u, Merge(u, fs), Same) == LegacyFiles(u, fs)
    ensures Merge(u, Merge(u, fs)) == Merge(u, fs)
  {
    var merged := Merge(u, fs);
    MergeIsWellFormed(u, fs);
    InterruptedRunsConverge(u, fs, merged);
    LegacyUnchanged(u, fs, merged);
    forall p | p in LegacyFiles(u, merged) ensures KindOf(u, merged, p) == Same {
      MergeInstallsEveryFile(u, fs, p);
      assert p !in Those(u, merged, Conflict);
    }
  }

  // ---------- The migration ----------

  ghost predicate NoDuplicates(s: seq<Path>) { forall i, j | 0 <= i < j < |s| :: s[i] != s[j] }

  ghost predicate Lists(s: seq<Path>, members: set<Path>) { NoDuplicates(s) && forall p :: p in s <==> p in members }

  lemma {:induction false} ListLength(s: seq<Path>, members: set<Path>)
    requires Lists(s, members)
    ensures |s| == |members|
  {
    if s != [] {
      var last := s[|s| - 1];
      var rest := s[..|s| - 1];
      assert s == rest + [last];
      assert Lists(rest, members - {last});
      ListLength(rest, members - {last});
    }
  }

  lemma {:induction false} TreeEntriesAreReachable(fs: FileSystem, p: Path)
    requires WellFormed(fs) && p in fs
    ensures !Blocked(fs, p) && NoLinkAbove(fs, p)
  {
    forall q | q < p ensures q in fs && fs[q].Dir? { AncestorsAreDirectories(fs, p, q); }
  }

  /** Where nothing exists, nothing exists below. */
  lemma NothingBelowMissing(fs: FileSystem, directory: Path)
    requires WellFormed(fs) && directory !in fs
    ensures forall p | p in fs :: !(directory < p)
  {
    forall p | p in fs ensures !(directory < p) {
      if directory < p { AncestorsAreDirectories(fs, p, directory); }
    }
  }

  /** The files below a directory whose first step is not among the entries still to visit. */
  ghost function Visited(fs: FileSystem, directory: Path, todo: set<Path>): set<Path> {
    set p | p in fs && directory < p && fs[p].File? && p[..|directory| + 1] !in todo
  }

  /** What one entry contributes: itself when it is a file, its files when it is a directory. */
  ghost function Contribution(fs: FileSystem, entry: Path): set<Path>
    requires entry in fs
  {
    if fs[entry].Dir? then FilesBelow(fs, entry) else if fs[entry].File? then {entry} else {}
  }

  lemma {:induction false} ListsUnion(a: seq<Path>, A: set<Path>, b: seq<Path>, B: set<Path>)
    requires Lists(a, A) && Lists(b, B) && A !! B
    ensures Lists(a + b, A + B)
  {
    forall i, j | 0 <= i < j < |a + b| ensures (a + b)[i] != (a + b)[j] {
      assert i < |a| ==> (a + b)[i] in A;
      assert |a| <= j ==> (a + b)[j] in B;
    }
  }

  lemma {:induction false} VisitEntry(fs: FileSystem, directory: Path, todo: set<Path>, entry: Path)
    requires WellFormed(fs) && directory in fs && entry in todo && todo <= Children(fs, directory)
    ensures Visited(fs, directory, todo) !! Contribution(fs, entry)
    ensures Visited(fs, directory, todo - {entry}) == Visited(fs, directory, todo) + Contribution(fs, entry)
  {
    forall p | p in fs && directory < p && fs[p].File?
      ensures p[..|directory| + 1] == entry <==> p in Contribution(fs, entry)
    {
      if p[..|directory| + 1] == entry && p != entry { AncestorsAreDirectories(fs, p, entry); }
    }
    forall p | p in Contribution(fs, entry) ensures directory < p && p[..|directory| + 1] == entry {}
  }

  lemma {:induction false} VisitedAtTheEnds(fs: FileSystem, directory: Path)
    requires WellFormed(fs)
    ensures Visited(fs, directory, Children(fs, directory)) == {}
    ensures Visited(fs, directory, {}) == FilesBelow(fs, directory)
  {
    forall p | p in fs && directory < p ensures p[..|directory| + 1] in Children(fs, directory) {
      AllListed(fs, directory, p);
    }
  }

  lemma AllListed(fs: FileSystem, directory: Path, p: Path)
    requires WellFormed(fs) && p in fs && directory < p
    ensures p[..|directory| + 1] in Children(fs, directory)
  {
    if |p| > |directory| + 1 { AncestorsAreDirectories(fs, p, p[..|directory| + 1]); }
    assert p[..|p|] == p;
  }

  lemma {:induction false} TargetsBringTheirAncestors(u: Setup, fs: FileSystem, g: FileSystem)
    requires WellFormed(g) && forall p | Legacy(u, fs, p) :: Target(u, p) in g
    ensures Needed(u, fs) <= g.Keys
  {
    forall q | q in Needed(u, fs) ensures q in g {
      NeededIs(u, fs, q);
      var p :| Legacy(u, fs, p) && q <= Target(u, p);
      if |q| < |Target(u, p)| {
        AncestorsAreDirectories(g, Target(u, p), q);
      } else {
        assert q == Target(u, p);
      }
    }
  }

  /** Once every pending file is copied, the tree is the merged one. */
  lemma {:induction false} AllCopiedIsMerge(u: Setup, fs: FileSystem, g: FileSystem)
    requires Clear(u, fs) && Between(u, fs, g)
    requires forall p | p in Those(u, fs, Pending) :: Target(u, p) in g
    ensures g == Merge(u, fs)
  {
    forall p | Legacy(u, fs, p) ensures Target(u, p) in g {
      assert p in LegacyFiles(u, fs) && p !in Those(u, fs, Conflict);
      if KindOf(u, fs, p) == Pending { assert p in Those(u, fs, Pending); }
    }
    TargetsBringTheirAncestors(u, fs, g);
    assert g.Keys == Merge(u, fs).Keys;
  }

  /** Directories made on the way to a target stay between the start and the merged tree. */
  lemma {:induction false} DirectoriesStayBetween(u: Setup, fs: FileSystem, g: FileSystem, h: FileSystem, p: Path)
    requires Ready(u, fs) && Clear(u, fs) && Between(u, fs, g) && Legacy(u, fs, p)
    requires Extends(g, h) && WellFormed(h)
    requires forall q | q in h && q !in g :: q < Target(u, p) && h[q].Dir?
    ensures Between(u, fs, h)
  {
    forall q | q in h && q !in g ensures q in Merge(u, fs) && Merge(u, fs)[q] == h[q] { AboveTargets(u, fs, p, q); }
  }

  /** Whatever exists on the way to a pending target is a directory. */
  lemma {:induction false} TheWayIsFree(u: Setup, fs: FileSystem, g: FileSystem, p: Path)
    requires Ready(u, fs) && Clear(u, fs) && Between(u, fs, g) && Legacy(u, fs, p)
    ensures Target(u, p) != [] && forall q | q <= Parent(Target(u, p)) && q in g :: g[q].Dir?
  {
    forall q | q <= Parent(Target(u, p)) && q in g ensures g[q].Dir? { AboveTargets(u, fs, p, q); }
  }

  lemma {:induction false} NewFileKeepsTree(g: FileSystem, target: Path, file: Entry)
    requires WellFormed(g) && target != [] && target !in g
    requires Parent(target) in g && g[Parent(target)].Dir?
    ensures WellFormed(g[target := file])
  {
  }

  lemma {:induction false} CopyStaysBetween(u: Setup, fs: FileSystem, g: FileSystem, p: Path)
    requires Ready(u, fs) && Clear(u, fs) && Between(u, fs, g)
    requires p in Those(u, fs, Pending) && Target(u, p) != []
    requires Parent(Target(u, p)) in g && g[Parent(Target(u, p))].Dir?
    ensures p in g && g[p].File? && (Target(u, p) in g ==> g[Target(u, p)].File?)
    ensures Extends(g, g[Target(u, p) := g[p]]) && Between(u, fs, g[Target(u, p) := g[p]])
  {
    var target := Target(u, p);
    MergeInstallsEveryFile(u, fs, p);
    assert target !in fs && Merge(u, fs)[target] == fs[p] == g[p];
    if target in g {
      assert g[target := g[p]] == g;
    } else {
      NewFileKeepsTree(g, target, g[p]);
      assert Extends(g[target := g[p]], Merge(u, fs));
    }
  }

  ghost function OfKind(u: Setup, fs: FileSystem, files: seq<Path>, kind: Kind): set<Path> {
    set p | p in files && Legacy(u, fs, p) && KindOf(u, fs, p) == kind
  }

  ghost function Relatives(u: Setup, paths: set<Path>): set<Path>
    requires forall p | p in paths :: u.legacyRoot <= p
  {
    set p | p in paths :: Relative(u, p)
  }

  lemma {:induction false} OfKindGrows(u: Setup, fs: FileSystem, files: seq<Path>, i: nat, kind: Kind)
    requires i < |files| && NoDuplicates(files) && Legacy(u, fs, files[i])
    ensures files[i] !in OfKind(u, fs, files[..i], kind)
    ensures OfKind(u, fs, files[..i + 1], kind) ==
            if KindOf(u, fs, files[i]) == kind then OfKind(u, fs, files[..i], kind) + {files[i]}
            else OfKind(u, fs, files[..i], kind)
  {
  }

  lemma {:induction false} ListsOneMore(list: seq<Path>, members: set<Path>, p: Path)
    requires Lists(list, members) && p !in members
    ensures Lists(list + [p], members + {p})
  {
  }

  lemma {:induction false} RelativeOneMore(u: Setup, paths: set<Path>, p: Path)
    requires u.legacyRoot <= p && p !in paths && forall q | q in paths :: u.legacyRoot <= q
    ensures Relative(u, p) !in Relatives(u, paths)
    ensures Relatives(u, paths + {p}) == Relatives(u, paths) + {Relative(u, p)}
  {
    forall q | q in paths ensures Relative(u, q) != Relative(u, p) {
      assert q == u.legacyRoot + Relative(u, q) && p == u.legacyRoot + Relative(u, p);
    }
    assert p in paths + {p};
    forall q | q in paths ensures Relative(u, q) in Relatives(u, paths + {p}) { assert q in paths + {p}; }
  }

  /** Without conflicts every legacy file is either pending or already there. */
  lemma {:induction false} KindsPartition(u: Setup, fs: FileSystem)
    requires Those(u, fs, Conflict) == {}
    ensures |Those(u, fs, Pending)| + |Those(u, fs, Same)| == |LegacyFiles(u, fs)|
  {
    forall p | p in LegacyFiles(u, fs) ensures p in Those(u, fs, Pending) + Those(u, fs, Same) {
      assert p !in Those(u, fs, Conflict);
    }
    assert LegacyFiles(u, fs) == Those(u, fs, Pending) + Those(u, fs, Same);
    assert Those(u, fs, Pending) !! Those(u, fs, Same);
  }

  lemma SomeRelative(u: Setup, paths: set<Path>)
    requires forall p | p in paths :: u.legacyRoot <= p
    ensures paths != {} ==> Relatives(u, paths) != {}
  {
    if p :| p in paths { assert Relative(u, p) in Relatives(u, paths); }
  }

  lemma {:induction false} NothingToReview(u: Setup, fs: FileSystem, files: seq<Path>, conflicts: seq<Path>)
    requires Ready(u, fs) && Lists(files, LegacyFiles(u, fs)) && conflicts == []
    requires Lists(conflicts, Relatives(u, Those(u, fs, Conflict)))
    requires files != [] ==> !Blocked(fs, u.publicRoot)
    ensures Clear(u, fs)
  {
    SomeRelative(u, Those(u, fs, Conflict));
    assert forall p | p in Relatives(u, Those(u, fs, Conflict)) :: p in conflicts;
    forall q | LegacyFiles(u, fs) != {} && q < u.publicRoot && q in fs ensures fs[q].Dir? {
      assert q == u.publicRoot[..|q|];
    }
  }

  // ---------- The outcome read off the two trees ----------

  /** The path of a legacy file below the public root. */
  function Place(u: Setup, p: Path): Path
    requires |u.legacyRoot| <= |p|
  {
    u.publicRoot + p[|u.legacyRoot|..]
  }

  predicate IsLegacyFile(u: Setup, fs: FileSystem, p: Path) {
    p in fs && |u.legacyRoot| < |p| && p[..|u.legacyRoot|] == u.legacyRoot && fs[p].File?
  }

  /** Something other than a directory stands between the public root and the place. */
  ghost predicate Obstructed(u: Setup, fs: FileSystem, place: Path) {
    exists q :: u.publicRoot <= q < place && q in fs && !fs[q].Dir?
  }

  predicate SameFile(u: Setup, a: Entry, b: Entry) { a.File? && b.File? && u.hash(a.content) == u.hash(b.content) }

  ghost predicate NeedsReview(u: Setup, fs: FileSystem, p: Path) {
    && IsLegacyFile(u, fs, p)
    && (Obstructed(u, fs, Place(u, p)) || (Place(u, p) in fs && !SameFile(u, fs[p], fs[Place(u, p)])))
  }

  ghost predicate InPlace(u: Setup, fs: FileSystem, p: Path) {
    && IsLegacyFile(u, fs, p) && !Obstructed(u, fs, Place(u, p))
    && Place(u, p) in fs && SameFile(u, fs[p], fs[Place(u, p)])
  }

  ghost predicate Absent(u: Setup, fs: FileSystem, p: Path) {
    IsLegacyFile(u, fs, p) && !Obstructed(u, fs, Place(u, p)) && Place(u, p) !in fs
  }

  /** A regular file stands somewhere above the path. */
  ghost predicate UnderFile(fs: FileSystem, p: Path) { exists q :: q < p && q in fs && fs[q].File? }

  lemma BlockedIsUnderFile(fs: FileSystem, p: Path)
    ensures Blocked(fs, p) <==> UnderFile(fs, p)
  {
    if q :| q < p && q in fs && fs[q].File? { assert q == p[..|q|]; }
    if Blocked(fs, p) {
      var k :| 0 <= k < |p| && p[..k] in fs && fs[p[..k]].File?;
      assert p[..k] < p;
    }
  }

  lemma KindsAre(u: Setup, fs: FileSystem, p: Path)
    ensures Legacy(u, fs, p) <==> IsLegacyFile(u, fs, p)
    ensures p in Those(u, fs, Conflict) <==> NeedsReview(u, fs, p)
    ensures p in Those(u, fs, Same) <==> InPlace(u, fs, p)
    ensures p in Those(u, fs, Pending) <==> Absent(u, fs, p)
  {
    if Legacy(u, fs, p) {
      assert p in LegacyFiles(u, fs) && Target(u, p) == Place(u, p);
      assert Safe(u, fs, Target(u, p)) <==> !Obstructed(u, fs, Place(u, p));
    }
  }

  lemma SetsAre(u: Setup, fs: FileSystem)
    ensures Blocked(fs, u.legacyRoot) <==> UnderFile(fs, u.legacyRoot)
    ensures Blocked(fs, u.publicRoot) <==> UnderFile(fs, u.publicRoot)
    ensures LegacyFiles(u, fs) == set p | p in fs && IsLegacyFile(u, fs, p)
    ensures LegacyFiles(u, fs) != {} <==> exists p :: IsLegacyFile(u, fs, p)
    ensures Those(u, fs, Same) == set p | p in fs && InPlace(u, fs, p)
    ensures Those(u, fs, Pending) == set p | p in fs && Absent(u, fs, p)
  {
    BlockedIsUnderFile(fs, u.legacyRoot);
    BlockedIsUnderFile(fs, u.publicRoot);
    forall p
      ensures p in LegacyFiles(u, fs) <==> IsLegacyFile(u, fs, p)
      ensures p in Those(u, fs, Same) <==> InPlace(u, fs, p)
      ensures p in Those(u, fs, Pending) <==> Absent(u, fs, p)
    {
      KindsAre(u, fs, p);
    }
  }

  /** All legacy files are in place, nothing that was there changes, and nothing is added but their copies and directories. */
  ghost predicate Installed(u: Setup, fs: FileSystem, after: FileSystem) {
    && (forall q | q in fs :: q in after && after[q] == fs[q])
    && (forall p | IsLegacyFile(u, fs, p) ::
          && Place(u, p) in after && SameFile(u, fs[p], after[Place(u, p)])
          && (Place(u, p) !in fs ==> after[Place(u, p)] == fs[p]))
    && (forall q | q in after && q !in fs :: AddedFor(u, fs, after, q))
  }

  ghost predicate AddedFor(u: Setup, fs: FileSystem, after: FileSystem, q: Path)
    requires q in after
  {
    exists p :: IsLegacyFile(u, fs, p) && q <= Place(u, p) && (if q == Place(u, p) then after[q] == fs[p] else after[q] == Dir)
  }

  lemma MergeIsInstalled(u: Setup, fs: FileSystem)
    requires Ready(u, fs) && Clear(u, fs)
    ensures Installed(u, fs, Merge(u, fs))
  {
    var merged := Merge(u, fs);
    forall p | IsLegacyFile(u, fs, p)
      ensures Place(u, p) in merged && SameFile(u, fs[p], merged[Place(u, p)])
      ensures Place(u, p) !in fs ==> merged[Place(u, p)] == fs[p]
    {
      KindsAre(u, fs, p);
      MergeInstallsEveryFile(u, fs, p);
    }
    forall q | q in merged && q !in fs ensures AddedFor(u, fs, merged, q) {
      NeededIs(u, fs, q);
      var p :| Legacy(u, fs, p) && q <= Target(u, p);
      KindsAre(u, fs, p);
      if q < Target(u, p) {
        AboveTargets(u, fs, p, q);
      } else {
        MergeInstallsEveryFile(u, fs, p);
      }
    }
  }

  /** The conflicts are listed by their paths below the legacy root, each once. */
  ghost predicate ListsReviews(u: Setup, fs: FileSystem, conflicts: seq<Path>) {
    && NoDuplicates(conflicts)
    && (forall rest :: rest in conflicts <==> NeedsReview(u, fs, u.legacyRoot + rest))
  }

  lemma RelativesAreReviews(u: Setup, fs: FileSystem, conflicts: seq<Path>)
    requires Lists(conflicts, Relatives(u, Those(u, fs, Conflict)))
    ensures ListsReviews(u, fs, conflicts)
  {
    forall rest ensures rest in conflicts <==> NeedsReview(u, fs, u.legacyRoot + rest) {
      var p := u.legacyRoot + rest;
      KindsAre(u, fs, p);
      assert p[|u.legacyRoot|..] == rest;
      if rest in conflicts {
        var q :| q in Those(u, fs, Conflict) && Relative(u, q) == rest;
        assert q == p;
      }
      if NeedsReview(u, fs, p) { assert Relative(u, p) in Relatives(u, Those(u, fs, Conflict)); }
    }
  }

  class AssetsMigration {
    const u: Setup
    var fs: FileSystem

    constructor (u: Setup, fs: FileSystem)
      ensures this.u == u && this.fs == fs
    {
      this.u, this.fs := u, fs;
    }

    /** Every regular file at any depth, once; a missing directory lists nothing. */
    method ListFiles(directory: Path) returns (r: Option<seq<Path>>)
      requires WellFormed(fs) && NoLinkAbove(fs, directory) && (directory in fs ==> !fs[directory].Other?)
      ensures r.None? <==> Blocked(fs, directory) || (directory in fs && fs[directory].File?)
      ensures r.Some? ==> Lists(r.value, FilesBelow(fs, directory))
      decreases Below(fs, directory)
    {
      if Blocked(fs, directory) || (directory in fs && fs[directory].File?) { return None; }
      if directory !in fs {
        NothingBelowMissing(fs, directory);
        return Some([]);
      }
      var todo, files := Children(fs, directory), [];
      VisitedAtTheEnds(fs, directory);
      while todo != {}
        invariant todo <= Children(fs, directory)
        invariant Lists(files, Visited(fs, directory, todo))
        decreases todo
      {
        var entry :| entry in todo;
        VisitEntry(fs, directory, todo, entry);
        var found := [];
        if fs[entry].Dir? {
          TreeEntriesAreReachable(fs, entry);
          assert entry in Below(fs, directory) && entry !in Below(fs, entry);
          var sub := ListFiles(entry);
          found := sub.value;
        } else if fs[entry].File? {
          found := [entry];
        }
        ListsUnion(files, Visited(fs, directory, todo), found, Contribution(fs, entry));
        todo, files := todo - {entry}, files + found;
      }
      r := Some(files);
    }

    /** Looks at the public root and then downwards, stopping at the first missing directory. */
    method HasSafeTargetDirectories(target: Path) returns (r: Option<bool>)
      requires WellFormed(fs) && NoLinkAbove(fs, u.publicRoot) && u.publicRoot < target
      ensures r.None? <==> Blocked(fs, u.publicRoot)
      ensures r.Some? ==> (r.value <==> Safe(u, fs, target))
    {
      var k := |u.publicRoot|;
      assert target[..k] == u.publicRoot;
      while k < |target|
        invariant |u.publicRoot| <= k <= |target|
        invariant forall q | u.publicRoot <= q < target && |q| < k :: q in fs && fs[q].Dir?
        invariant k > |u.publicRoot| ==> u.publicRoot in fs
      {
        var directory := target[..k];
        if directory in fs {
          TreeEntriesAreReachable(fs, directory);
          if k > |u.publicRoot| { TreeEntriesAreReachable(fs, u.publicRoot); }
          if !fs[directory].Dir? { return Some(false); }
        } else if k == |u.publicRoot| && Blocked(fs, directory) {
          return None;
        } else {
          if k > |u.publicRoot| { TreeEntriesAreReachable(fs, u.publicRoot); }
          NothingBelowMissing(fs, directory);
          forall q | u.publicRoot <= q < target && q in fs ensures fs[q].Dir? {
            Comparable(directory, q, target);
            assert |q| == k ==> q == directory;
          }
          return Some(true);
        }
        assert forall q | u.publicRoot <= q < target && |q| == k :: q == directory;
        k := k + 1;
      }
      if u.publicRoot in fs { TreeEntriesAreReachable(fs, u.publicRoot); }
      r := Some(true);
    }

    method CompareExistingFile(source: Path, target: Path) returns (present: bool, sameContent: bool)
      requires source in fs && fs[source].File?
      ensures present <==> target in fs
      ensures sameContent <==> target in fs && SameContent(u, fs, source, target)
    {
      if target !in fs { return false, false; }
      if !fs[target].File? { return true, false; }
      return true, u.hash(fs[source].content) == u.hash(fs[target].content);
    }

    method MakeDirectories(directory: Path)
      requires WellFormed(fs) && forall q | q <= directory && q in fs :: fs[q].Dir?
      modifies this
      ensures WellFormed(fs) && Extends(old(fs), fs)
      ensures directory in fs
      ensures forall q | q in fs && q !in old(fs) :: q <= directory && fs[q].Dir?
    {
      var k := 0;
      while k < |directory|
        invariant 0 <= k <= |directory|
        invariant WellFormed(fs) && Extends(old(fs), fs)
        invariant forall q | q <= directory && q in fs :: fs[q].Dir?
        invariant forall q | q in fs && q !in old(fs) :: q <= directory
        invariant directory[..k] in fs
      {
        k := k + 1;
        assert directory[..k][..k - 1] == directory[..k - 1];
        if directory[..k] !in fs { fs := fs[directory[..k] := Dir]; }
      }
      assert directory[..k] == directory;
    }

    method CopyFile(source: Path, target: Path)
      requires source in fs && fs[source].File?
      requires target != [] && Parent(target) in fs && fs[Parent(target)].Dir?
      requires target in fs ==> fs[target].File?
      modifies this
      ensures fs == old(fs)[target := old(fs)[source]]
    {
      fs := fs[target := fs[source]];
    }

    /** The body of the first loop: what to do with one legacy file. */
    method Classify(source: Path) returns (r: Option<Kind>)
      requires Ready(u, fs) && Legacy(u, fs, source)
      ensures r.None? <==> Blocked(fs, u.publicRoot)
      ensures r.Some? ==> r.value == KindOf(u, fs, source)
    {
      SourceOfTarget(u, source);
      var target := Target(u, source);
      var safe := HasSafeTargetDirectories(target);
      if safe.None? { return None; }
      if !safe.value { return Some(Conflict); }
      var present, sameContent := CompareExistingFile(source, target);
      if present { return Some(if sameContent then Same else Conflict); }
      r := Some(Pending);
    }

    /** Phase one: only reads. */
    method ClassifyAll(files: seq<Path>) returns (blocked: bool, pending: seq<Path>, skipped: nat, conflicts: seq<Path>)
      requires Ready(u, fs) && Lists(files, LegacyFiles(u, fs))
      ensures blocked <==> files != [] && Blocked(fs, u.publicRoot)
      ensures !blocked ==> Lists(pending, Those(u, fs, Pending))
      ensures !blocked ==> skipped == |Those(u, fs, Same)|
      ensures !blocked ==> Lists(conflicts, Relatives(u, Those(u, fs, Conflict)))
    {
      blocked, pending, skipped, conflicts := false, [], 0, [];
      for i := 0 to |files|
        invariant i > 0 ==> !Blocked(fs, u.publicRoot)
        invariant Lists(pending, OfKind(u, fs, files[..i], Pending))
        invariant skipped == |OfKind(u, fs, files[..i], Same)|
        invariant Lists(conflicts, Relatives(u, OfKind(u, fs, files[..i], Conflict)))
      {
        assert files[i] in LegacyFiles(u, fs);
        OfKindGrows(u, fs, files, i, Pending);
        OfKindGrows(u, fs, files, i, Same);
        OfKindGrows(u, fs, files, i, Conflict);
        var kind := Classify(files[i]);
        if kind.None? { return true, [], 0, []; }
        match kind.value
        case Pending =>
          ListsOneMore(pending, OfKind(u, fs, files[..i], Pending), files[i]);
          pending := pending + [files[i]];
        case Same =>
          skipped := skipped + 1;
        case Conflict =>
          RelativeOneMore(u, OfKind(u, fs, files[..i], Conflict), files[i]);
          ListsOneMore(conflicts, Relatives(u, OfKind(u, fs, files[..i], Conflict)), Relative(u, files[i]));
          conflicts := conflicts + [Relative(u, files[i])];
      }
      assert files[..|files|] == files;
      forall kind ensures OfKind(u, fs, files, kind) == Those(u, fs, kind) {}
    }

    /** One pending file: its directories, then the file. */
    method CopyOne(ghost start: FileSystem, source: Path)
      requires Ready(u, start) && Clear(u, start) && Between(u, start, fs) && source in Those(u, start, Pending)
      modifies this
      ensures Between(u, start, fs) && Extends(old(fs), fs)
      ensures Target(u, source) in fs
    {
      var target := Target(u, source);
      ghost var was := fs;
      TheWayIsFree(u, start, fs, source);
      MakeDirectories(Parent(target));
      DirectoriesStayBetween(u, start, was, fs, source);
      CopyStaysBetween(u, start, fs, source);
      CopyFile(source, target);
    }

    /** Phase two. Wherever it stops, the tree lies between the start and the merged tree. */
    method CopyAll(pending: seq<Path>) returns (copied: nat)
      requires Ready(u, fs) && Clear(u, fs) && Lists(pending, Those(u, fs, Pending))
      modifies this
      ensures fs == Merge(u, old(fs))
      ensures copied == |pending|
    {
      copied := 0;
      ghost var start := fs;
      for i := 0 to |pending|
        invariant Between(u, start, fs)
        invariant copied == i
        invariant forall p | p in pending[..i] :: u.legacyRoot <= p && Target(u, p) in fs
      {
        assert pending[..i + 1] == pending[..i] + [pending[i]];
        CopyOne(start, pending[i]);
        copied := copied + 1;
      }
      assert pending[..|pending|] == pending;
      AllCopiedIsMerge(u, start, fs);
    }

    /** Any conflict leaves the file system untouched; otherwise it becomes the merged one. */
    method Migrate() returns (r: Outcome)
      requires Ready(u, fs)
      modifies this
      ensures r.Failed? <==> (
                || UnderFile(old(fs), u.legacyRoot) || (u.legacyRoot in old(fs) && old(fs)[u.legacyRoot].File?)
                || ((exists p :: IsLegacyFile(u, old(fs), p)) && UnderFile(old(fs), u.publicRoot)))
      ensures r.Failed? ==> fs == old(fs)
      ensures r.Migrated? ==> ListsReviews(u, old(fs), r.conflicts)
      ensures r.Migrated? ==> r.skipped == |set p | p in old(fs) && InPlace(u, old(fs), p)|
      ensures r.Migrated? && r.conflicts != [] ==> fs == old(fs) && r.copied == 0
      ensures r.Migrated? && r.conflicts == [] ==>
                && Clear(u, old(fs)) && fs == Merge(u, old(fs)) && Installed(u, old(fs), fs)
                && r.copied == |set p | p in old(fs) && Absent(u, old(fs), p)|
                && r.copied + r.skipped == |set p | p in old(fs) && IsLegacyFile(u, old(fs), p)|
    {
      ghost var start := fs;
      SetsAre(u, start);
      var listed := ListFiles(u.legacyRoot);
      if listed.None? { return Failed; }
      var files := listed.value;
      ListLength(files, LegacyFiles(u, fs));
      var blocked, pending, skipped, conflicts := ClassifyAll(files);
      if blocked { return Failed; }
      RelativesAreReviews(u, start, conflicts);
      if conflicts != [] {
        return Migrated(0, skipped, conflicts);
      }
      NothingToReview(u, fs, files, conflicts);
      KindsPartition(u, fs);
      ListLength(pending, Those(u, fs, Pending));
      var copied := CopyAll(pending);
      MergeIsInstalled(u, start);
      r := Migrated(copied, skipped, conflicts);
    }
  }
}
