/**
 The runtime skills directory of internal/skills/merge.go.  A source skill is a tree; the disk is a
 map from paths (lists of components) to nodes, so that what is mounted can be looked up by path.
 */
module SkillMerge {
  import opened Prelude
  import opened Strings

  type Name = string
  type Path = seq<Name>

  datatype Node = FileNode(content: string) | DirNode

  /** A directory tree as os.ReadDir and os.ReadFile show it. */
  datatype Tree = File(content: string) | Dir(entries: map<Name, Tree>)

  /** What a tree has at a relative path. */
  function NodeAt(t: Tree, rel: Path): Option<Node>
    decreases rel
  {
    match t
    case File(c) => if rel == [] then Some(FileNode(c)) else None
    case Dir(es) =>
      if rel == [] then Some(DirNode) else if rel[0] in es then NodeAt(es[rel[0]], rel[1..]) else None
  }

  type Files = map<Path, Node>

  function At(files: Files, p: Path): Option<Node> { if p in files then Some(files[p]) else None }

  predicate SameKind(a: Node, b: Node) { a.DirNode? <==> b.DirNode? }

  /** The tree can be laid over what is on disk at `dst`: no file meets a directory. */
  ghost predicate Compatible(files: Files, dst: Path, t: Tree) {
    forall rel {:trigger NodeAt(t, rel)} :: NodeAt(t, rel).Some? && dst + rel in files ==>
      SameKind(NodeAt(t, rel).value, files[dst + rel])
  }

  /** `now` is `before` with the tree laid over it at `dst`. */
  ghost predicate Overlaid(before: Files, now: Files, dst: Path, t: Tree) {
    && (forall rel {:trigger NodeAt(t, rel)} ::
          At(now, dst + rel) == if NodeAt(t, rel).Some? then NodeAt(t, rel) else At(before, dst + rel))
    && Beside(before, now, dst)
  }

  /** Only paths under `dst` may differ. */
  ghost predicate Beside(before: Files, now: Files, dst: Path) {
    forall p :: !(dst <= p) ==> At(now, p) == At(before, p)
  }

  // ---- copyDir -------------------------------------------------------------------------------

  /** The part of a directory's entries that has been copied. */
  function Part(es: map<Name, Tree>, names: set<Name>): Tree {
    Dir(map n | n in es && n in names :: es[n])
  }

  lemma PartAt(es: map<Name, Tree>, names: set<Name>, rel: Path)
    ensures NodeAt(Part(es, names), rel) ==
      if rel == [] then Some(DirNode)
      else if rel[0] in es && rel[0] in names then NodeAt(es[rel[0]], rel[1..]) else None
  {
  }

  lemma UnderEntry(dst: Path, n: Name, p: Path)
    ensures dst + [n] <= p ==> dst <= p && |p| > |dst| && p[|dst|] == n
  {
    if dst + [n] <= p {
      assert p[..|dst|] == dst;
    }
  }

  /** Copying one more entry extends the overlay by the tree of that entry. */
  lemma OverlayGrows(f0: Files, f1: Files, f2: Files, dst: Path, es: map<Name, Tree>, done: set<Name>, n: Name)
    requires n in es && n !in done
    requires Overlaid(f0, f1, dst, Part(es, done)) && Overlaid(f1, f2, dst + [n], es[n])
    ensures Overlaid(f0, f2, dst, Part(es, done + {n}))
  {
    forall rel ensures At(f2, dst + rel) ==
      if NodeAt(Part(es, done + {n}), rel).Some? then NodeAt(Part(es, done + {n}), rel) else At(f0, dst + rel)
    {
      PartAt(es, done, rel);
      PartAt(es, done + {n}, rel);
      if rel != [] && rel[0] == n {
        assert dst + rel == (dst + [n]) + rel[1..];
        assert NodeAt(es[n], rel[1..]) == NodeAt(es[n], rel[1..]);
      } else {
        UnderEntry(dst, n, dst + rel);
      }
    }
    forall p | !(dst <= p) ensures At(f2, p) == At(f0, p) {
      UnderEntry(dst, n, p);
    }
  }

  /** An entry not copied yet finds on disk what was there at the start. */
  lemma EntryUntouched(f0: Files, f1: Files, dst: Path, es: map<Name, Tree>, done: set<Name>, n: Name)
    requires n in es && n !in done && Overlaid(f0, f1, dst, Part(es, done))
    ensures forall rel {:trigger dst + [n] + rel} :: At(f1, dst + [n] + rel) == At(f0, dst + [n] + rel)
    ensures Compatible(f1, dst + [n], es[n]) <==> Compatible(f0, dst + [n], es[n])
  {
    forall rel ensures At(f1, dst + [n] + rel) == At(f0, dst + [n] + rel) {
      PartAt(es, done, [n] + rel);
      assert dst + ([n] + rel) == dst + [n] + rel;
    }
  }

  /** A directory fits exactly when it meets no file and all its entries fit. */
  lemma CompatibleDir(files: Files, dst: Path, es: map<Name, Tree>)
    requires dst in files && files[dst].DirNode?
    ensures Compatible(files, dst, Dir(es)) <==> forall n :: n in es ==> Compatible(files, dst + [n], es[n])
  {
    if Compatible(files, dst, Dir(es)) {
      forall n, rel | n in es && NodeAt(es[n], rel).Some? && dst + [n] + rel in files
        ensures SameKind(NodeAt(es[n], rel).value, files[dst + [n] + rel])
      {
        assert dst + [n] + rel == dst + ([n] + rel) && NodeAt(Dir(es), [n] + rel) == NodeAt(es[n], rel);
      }
    }
    if forall n :: n in es ==> Compatible(files, dst + [n], es[n]) {
      forall rel | NodeAt(Dir(es), rel).Some? && dst + rel in files
        ensures SameKind(NodeAt(Dir(es), rel).value, files[dst + rel])
      {
        if rel == [] {
          assert dst + rel == dst;
        } else {
          assert dst + rel == dst + [rel[0]] + rel[1..];
          assert NodeAt(es[rel[0]], rel[1..]).Some?;
        }
      }
    }
  }

  lemma FileFits(files: Files, p: Path, c: string)
    ensures Compatible(files, p, File(c)) <==> (p in files ==> files[p].FileNode?)
    ensures Overlaid(files, files[p := FileNode(c)], p, File(c))
  {
    assert p + [] == p;
    assert NodeAt(File(c), []) == Some(FileNode(c));
  }

  lemma NothingCopiedYet(files: Files, dst: Path, es: map<Name, Tree>)
    requires dst in files && files[dst].DirNode?
    ensures Overlaid(files, files, dst, Part(es, {}))
  {
    forall rel ensures At(files, dst + rel) ==
      if NodeAt(Part(es, {}), rel).Some? then NodeAt(Part(es, {}), rel) else At(files, dst + rel)
    {
      PartAt(es, {}, rel);
      if rel == [] { assert dst + rel == dst; }
    }
  }

  /** Making the directory of a subtree first does not change what copying it amounts to. */
  lemma MkdirThenOverlay(f0: Files, f1: Files, f2: Files, p: Path, t: Tree)
    requires t.Dir? && f1 == f0[p := DirNode] && (p in f0 ==> f0[p].DirNode?) && Overlaid(f1, f2, p, t)
    ensures Overlaid(f0, f2, p, t)
  {
    forall rel ensures At(f2, p + rel) == if NodeAt(t, rel).Some? then NodeAt(t, rel) else At(f0, p + rel) {
      if rel != [] { assert p + rel != p; }
    }
  }

  lemma MkdirFits(f0: Files, p: Path, t: Tree)
    requires t.Dir?
    ensures p in f0 && f0[p].FileNode? ==> !Compatible(f0, p, t)
    ensures (p in f0 ==> f0[p].DirNode?) ==> (Compatible(f0[p := DirNode], p, t) <==> Compatible(f0, p, t))
  {
    assert NodeAt(t, []) == Some(DirNode) && p + [] == p;
    forall rel | rel != [] ensures p + rel != p { assert |p + rel| > |p|; }
  }

  // ---- A tree mounted at a path ---------------------------------------------------------------------

  /** What a path holds when the tree is at `target`: the tree below, and directories above. */
  function Mounted(target: Path, t: Tree, p: Path): Option<Node> {
    if target <= p then NodeAt(t, p[|target|..]) else if p <= target then Some(DirNode) else None
  }

  /** No file meets a directory when the tree is put there. */
  ghost predicate Fits(files: Files, target: Path, t: Tree) {
    forall p :: p in files && Mounted(target, t, p).Some? ==> SameKind(Mounted(target, t, p).value, files[p])
  }

  ghost predicate MountedOver(before: Files, now: Files, target: Path, t: Tree) {
    forall p :: At(now, p) == if Mounted(target, t, p).Some? then Mounted(target, t, p) else At(before, p)
  }

  const EMPTY_DIR: Tree := Dir(map[])

  /** The directories down to the target, and then the tree, amount to the mounted tree. */
  lemma MkdirThenCopy(f0: Files, f1: Files, f2: Files, target: Path, t: Tree)
    requires t.Dir? && MountedOver(f0, f1, target, EMPTY_DIR) && Overlaid(f1, f2, target, t)
    ensures MountedOver(f0, f2, target, t)
  {
    forall p ensures At(f2, p) == if Mounted(target, t, p).Some? then Mounted(target, t, p) else At(f0, p) {
      if target <= p {
        assert target + p[|target|..] == p;
        BelowEmpty(target, p);
        assert NodeAt(t, p[|target|..]) == NodeAt(t, p[|target|..]);
      }
    }
  }

  lemma BelowEmpty(target: Path, p: Path)
    requires target <= p
    ensures Mounted(target, EMPTY_DIR, p) == if p == target then Some(DirNode) else None
  {
  }

  /** The mounted tree fits exactly when the directories above fit and the tree fits below. */
  lemma FitsInParts(f0: Files, f1: Files, target: Path, t: Tree)
    requires t.Dir? && MountedOver(f0, f1, target, EMPTY_DIR)
    ensures Fits(f0, target, t) ==> Compatible(f1, target, t)
    ensures Fits(f0, target, EMPTY_DIR) && Compatible(f1, target, t) ==> Fits(f0, target, t)
  {
    if Fits(f0, target, t) {
      forall rel | NodeAt(t, rel).Some? && target + rel in f1
        ensures SameKind(NodeAt(t, rel).value, f1[target + rel])
      {
        BelowEmpty(target, target + rel);
        assert (target + rel)[|target|..] == rel;
        assert At(f1, target + rel) == if rel == [] then Some(DirNode) else At(f0, target + rel);
      }
    }
    if Fits(f0, target, EMPTY_DIR) && Compatible(f1, target, t) {
      forall p | p in f0 && Mounted(target, t, p).Some? ensures SameKind(Mounted(target, t, p).value, f0[p]) {
        if target <= p {
          BelowEmpty(target, p);
          assert target + p[|target|..] == p;
          assert NodeAt(t, p[|target|..]).Some?;
        } else {
          assert Mounted(target, EMPTY_DIR, p) == Some(DirNode);
        }
      }
    }
  }

  lemma FitsNeedsDirs(files: Files, target: Path, t: Tree)
    requires t.Dir? && Fits(files, target, t)
    ensures Fits(files, target, EMPTY_DIR)
  {
    forall p | p in files && Mounted(target, EMPTY_DIR, p).Some? ensures files[p].DirNode? {
      if target <= p { BelowEmpty(target, p); }
      assert Mounted(target, t, p) == Some(DirNode);
    }
  }

  // ---- Merge -----------------------------------------------------------------------------------

  /** A discovered skill with the tree of the directory its SKILL.md is in. */
  datatype Skill = Skill(name: Name, tree: Tree)

  /** filepath.Join of a directory and the parts of a name: empty parts and "." go, ".." goes up. */
  function Resolve(base: Path, parts: seq<string>): Path {
    if parts == [] then base
    else
      var at := Resolve(base, parts[..|parts| - 1]);
      var last := parts[|parts| - 1];
      if last == "" || last == "." then at
      else if last == ".." then (if at == [] then [] else at[..|at| - 1])
      else at + [last]
  }

  lemma {:induction false} ResolveConcat(base: Path, xs: seq<string>, ys: seq<string>)
    ensures Resolve(base, xs + ys) == Resolve(Resolve(base, xs), ys)
  {
    if ys == [] {
      assert xs + ys == xs;
    } else {
      assert (xs + ys)[..|xs + ys| - 1] == xs + ys[..|ys| - 1];
      ResolveConcat(base, xs, ys[..|ys| - 1]);
    }
  }

  lemma ResolveOne(base: Path, part: string)
    ensures Resolve(base, [part]) ==
      if part == "" || part == "." then base
      else if part == ".." then (if base == [] then [] else base[..|base| - 1])
      else base + [part]
  {
    assert [part][..0] == [];
  }

  /**
   The rules of filepath.Clean, which filepath.Join applies: an empty part or "." changes nothing, ".." takes
   back the component before it and stays at the root, and any other part goes down.
   */
  lemma ResolveRules(base: Path, xs: seq<string>, ys: seq<string>, part: string)
    ensures Resolve(base, xs + [""] + ys) == Resolve(base, xs + ys) == Resolve(base, xs + ["."] + ys)
    ensures IsComponent(part) ==> Resolve(base, xs + [part] + [".."] + ys) == Resolve(base, xs + ys)
    ensures Resolve([], [".."] + ys) == Resolve([], ys)
    ensures IsComponent(part) ==> Resolve(base, xs + [part]) == Resolve(base, xs) + [part]
    ensures Resolve(base, []) == base
  {
    var at := Resolve(base, xs);
    ResolveConcat(base, xs, ys);
    ResolveConcat(base, xs + [""], ys);
    ResolveConcat(base, xs + ["."], ys);
    ResolveConcat(base, xs, [""]);
    ResolveConcat(base, xs, ["."]);
    ResolveOne(at, "");
    ResolveOne(at, ".");
    ResolveConcat(base, xs, [part]);
    ResolveOne(at, part);
    ResolveConcat(base, xs + [part] + [".."], ys);
    ResolveConcat(base, xs + [part], [".."]);
    ResolveOne(at + [part], "..");
    assert (at + [part])[..|at|] == at;
    ResolveConcat([], [".."], ys);
    ResolveOne([], "..");
  }

  function Target(dest: Path, name: Name): Path { Resolve(dest, Split(name, '/')) }

  datatype Mount = Mount(target: Path, tree: Tree)

  /** The skills at their targets, and the empty destination, which is made first. */
  function Mounts(dest: Path, skills: seq<Skill>): seq<Mount> {
    if skills == [] then [Mount(dest, EMPTY_DIR)]
    else [Mount(Target(dest, skills[0].name), skills[0].tree)] + Mounts(dest, skills[1..])
  }

  /** First-wins lookup: the node of the first mount that has the path. */
  function FirstMounted(mounts: seq<Mount>, p: Path): Option<Node> {
    if mounts == [] then None
    else
      var node := Mounted(mounts[0].target, mounts[0].tree, p);
      if node.Some? then node else FirstMounted(mounts[1..], p)
  }

  ghost predicate SameKindAt(a: Mount, b: Mount, p: Path) {
    Mounted(a.target, a.tree, p).Some? && Mounted(b.target, b.tree, p).Some? ==>
      SameKind(Mounted(a.target, a.tree, p).value, Mounted(b.target, b.tree, p).value)
  }

  /** No file meets a directory, neither among the mounts nor with what is on disk. */
  ghost predicate NoClashes(disk: Files, mounts: seq<Mount>) {
    && (forall i :: 0 <= i < |mounts| ==> Fits(disk, mounts[i].target, mounts[i].tree))
    && (forall i, j, p :: 0 <= i < j < |mounts| ==> SameKindAt(mounts[i], mounts[j], p))
  }

  /** The disk shows exactly the first-wins lookup, and elsewhere what it held. */
  ghost predicate ShowsMounts(disk: Files, files: Files, mounts: seq<Mount>) {
    forall p :: At(files, p) == if FirstMounted(mounts, p).Some? then FirstMounted(mounts, p) else At(disk, p)
  }

  lemma {:induction false} FirstIsAMount(mounts: seq<Mount>, p: Path) returns (k: nat)
    requires FirstMounted(mounts, p).Some?
    ensures k < |mounts| && FirstMounted(mounts, p) == Mounted(mounts[k].target, mounts[k].tree, p)
  {
    if Mounted(mounts[0].target, mounts[0].tree, p).Some? {
      k := 0;
    } else {
      var i := FirstIsAMount(mounts[1..], p);
      k := i + 1;
    }
  }

  lemma {:induction false} SomeMountFound(mounts: seq<Mount>, p: Path, j: nat)
    requires j < |mounts| && Mounted(mounts[j].target, mounts[j].tree, p).Some?
    ensures FirstMounted(mounts, p).Some?
  {
    if j == 0 {
    } else {
      SomeMountFound(mounts[1..], p, j - 1);
    }
  }

  lemma NoClashWithFirst(disk: Files, mounts: seq<Mount>, p: Path, j: nat)
    requires NoClashes(disk, mounts) && j < |mounts| && Mounted(mounts[j].target, mounts[j].tree, p).Some?
    ensures FirstMounted(mounts, p).Some?
    ensures SameKind(Mounted(mounts[j].target, mounts[j].tree, p).value, FirstMounted(mounts, p).value)
    ensures p in disk ==> SameKind(FirstMounted(mounts, p).value, disk[p])
  {
    SomeMountFound(mounts, p, j);
    var k := FirstIsAMount(mounts, p);
    assert k < j ==> SameKindAt(mounts[k], mounts[j], p);
    assert j < k ==> SameKindAt(mounts[j], mounts[k], p);
  }

  /** The next skill fits on disk exactly when it clashes with nothing that is there and nothing copied before. */
  lemma FitsIffNoClash(disk: Files, files: Files, m: Mount, rest: seq<Mount>)
    requires ShowsMounts(disk, files, rest) && NoClashes(disk, rest)
    ensures Fits(files, m.target, m.tree) <==> NoClashes(disk, [m] + rest)
  {
    var all := [m] + rest;
    if Fits(files, m.target, m.tree) {
      forall p | p in disk && Mounted(m.target, m.tree, p).Some?
        ensures SameKind(Mounted(m.target, m.tree, p).value, disk[p])
      {
        if FirstMounted(rest, p).Some? {
          var k := FirstIsAMount(rest, p);
          assert At(files, p) == FirstMounted(rest, p);
          NoClashWithFirst(disk, rest, p, k);
        } else {
          assert At(files, p) == At(disk, p);
        }
      }
      forall i, j, p | 0 <= i < j < |all| ensures SameKindAt(all[i], all[j], p) {
        if i > 0 {
          assert SameKindAt(rest[i - 1], rest[j - 1], p);
        } else if Mounted(all[j].target, all[j].tree, p).Some? && Mounted(m.target, m.tree, p).Some? {
          NoClashWithFirst(disk, rest, p, j - 1);
          assert At(files, p) == FirstMounted(rest, p);
        }
      }
      forall i | 0 <= i < |all| ensures Fits(disk, all[i].target, all[i].tree) {
        if i > 0 { assert all[i] == rest[i - 1]; }
      }
    }
    if NoClashes(disk, all) {
      forall p | p in files && Mounted(m.target, m.tree, p).Some?
        ensures SameKind(Mounted(m.target, m.tree, p).value, files[p])
      {
        assert all[0] == m && Fits(disk, all[0].target, all[0].tree);
        if FirstMounted(rest, p).Some? {
          var k := FirstIsAMount(rest, p);
          assert SameKindAt(all[0], all[k + 1], p);
        }
      }
    }
  }

  /** Copying the next skill over the others makes it win. */
  lemma MountsGrow(disk: Files, f0: Files, f1: Files, m: Mount, rest: seq<Mount>)
    requires ShowsMounts(disk, f0, rest) && MountedOver(f0, f1, m.target, m.tree)
    ensures ShowsMounts(disk, f1, [m] + rest)
  {
    var all := [m] + rest;
    assert all[1..] == rest;
    forall p ensures At(f1, p) == if FirstMounted(all, p).Some? then FirstMounted(all, p) else At(disk, p) {
      assert At(f0, p) == if FirstMounted(rest, p).Some? then FirstMounted(rest, p) else At(disk, p);
    }
  }

  lemma NoClashSuffix(disk: Files, mounts: seq<Mount>, k: nat)
    requires k <= |mounts| && NoClashes(disk, mounts)
    ensures NoClashes(disk, mounts[k..])
  {
    forall i, j, p | 0 <= i < j < |mounts[k..]| ensures SameKindAt(mounts[k..][i], mounts[k..][j], p) {
      assert SameKindAt(mounts[k + i], mounts[k + j], p);
    }
  }

  lemma {:induction false} MountsFrom(dest: Path, skills: seq<Skill>, i: nat)
    requires i <= |skills|
    ensures |Mounts(dest, skills)| == |skills| + 1 && Mounts(dest, skills)[i..] == Mounts(dest, skills[i..])
  {
    if i == 0 {
      assert skills[0..] == skills;
      MountsLength(dest, skills);
    } else {
      MountsFrom(dest, skills[1..], i - 1);
      assert skills[1..][i - 1..] == skills[i..];
    }
  }

  lemma {:induction false} MountsLength(dest: Path, skills: seq<Skill>)
    ensures |Mounts(dest, skills)| == |skills| + 1
  {
    if skills == [] {
    } else {
      MountsLength(dest, skills[1..]);
    }
  }

  class Disk {
    var files: Files

    constructor (files: Files)
      ensures this.files == files
    {
      this.files := files;
    }

    /** os.MkdirAll of a directory whose parent exists. */
    method Mkdir(p: Path) returns (ok: bool)
      modifies this
      ensures ok <==> (p in old(files) ==> old(files)[p].DirNode?)
      ensures files == if ok then old(files)[p := DirNode] else old(files)
    {
      if p in files { return files[p].DirNode?; }
      files := files[p := DirNode];
      return true;
    }

    /** copyFile: a file is overwritten, a directory in its place is an error. */
    method CopyFile(content: string, p: Path) returns (ok: bool)
      modifies this
      ensures ok <==> (p in old(files) ==> old(files)[p].FileNode?)
      ensures files == if ok then old(files)[p := FileNode(content)] else old(files)
    {
      if p in files && files[p].DirNode? { return false; }
      files := files[p := FileNode(content)];
      return true;
    }

    /** One entry of copyDir's loop. */
    method CopyEntry(t: Tree, p: Path) returns (ok: bool)
      modifies this
      ensures ok <==> Compatible(old(files), p, t)
      ensures ok ==> Overlaid(old(files), files, p, t)
      ensures Beside(old(files), files, p)
      decreases t, 1
    {
      match t
      case File(c) =>
        FileFits(files, p, c);
        ok := CopyFile(c, p);
      case Dir(_) =>
        ghost var f0 := files;
        MkdirFits(f0, p, t);
        ok := Mkdir(p);
        if ok {
          ghost var f1 := files;
          ok := CopyDir(t, p);
          if ok { MkdirThenOverlay(f0, f1, files, p, t); }
        }
    }

    /**
     copyDir: succeeds exactly when no file meets a directory, and then the source tree lies over
     what was there; nothing beside the destination changes in any case.
     */
    method CopyDir(src: Tree, dst: Path) returns (ok: bool)
      requires src.Dir? && dst in files && files[dst].DirNode?
      modifies this
      ensures ok <==> Compatible(old(files), dst, src)
      ensures ok ==> Overlaid(old(files), files, dst, src)
      ensures Beside(old(files), files, dst)
      decreases src, 0
    {
      var es := src.entries;
      var todo := es.Keys;
      ghost var f0 := files;
      ghost var done: set<Name> := {};
      CompatibleDir(f0, dst, es);
      NothingCopiedYet(f0, dst, es);
      while todo != {}
        invariant todo == es.Keys - done && done <= es.Keys
        invariant Overlaid(f0, files, dst, Part(es, done))
        invariant forall n :: n in done ==> Compatible(f0, dst + [n], es[n])
        decreases todo
      {
        var n :| n in todo;
        ghost var f1 := files;
        EntryUntouched(f0, f1, dst, es, done, n);
        var copied := CopyEntry(es[n], dst + [n]);
        if !copied {
          BesideEntry(f0, f1, files, dst, n);
          return false;
        }
        OverlayGrows(f0, f1, files, dst, es, done, n);
        done, todo := done + {n}, todo - {n};
      }
      assert Part(es, done) == src by {
        assert (map n | n in es && n in done :: es[n]) == es;
      }
      return true;
    }

    /** os.MkdirAll: every directory down to the target. */
    method MkdirAll(target: Path) returns (ok: bool)
      modifies this
      ensures ok <==> Fits(old(files), target, EMPTY_DIR)
      ensures ok ==> MountedOver(old(files), files, target, EMPTY_DIR)
    {
      ghost var f0 := files;
      for k := 0 to |target| + 1
        invariant forall p :: At(files, p) == if |p| < k && p <= target then Some(DirNode) else At(f0, p)
        invariant forall p :: p in f0 && |p| < k && p <= target ==> f0[p].DirNode?
      {
        ghost var f1 := files;
        var made := Mkdir(target[..k]);
        PrefixOfLength(target, k);
        if !made {
          assert Mounted(target, EMPTY_DIR, target[..k]) == Some(DirNode);
          return false;
        }
      }
      AllDirs(f0, files, target);
      return true;
    }

    /** One skill: its directory and all above it, then its tree. */
    method MountTree(target: Path, t: Tree) returns (ok: bool)
      requires t.Dir?
      modifies this
      ensures ok <==> Fits(old(files), target, t)
      ensures ok ==> MountedOver(old(files), files, target, t)
    {
      ghost var f0 := files;
      ok := MkdirAll(target);
      if ok {
        ghost var f1 := files;
        FitsInParts(f0, f1, target, t);
        BelowEmpty(target, target);
        ok := CopyDir(t, target);
        if ok { MkdirThenCopy(f0, f1, files, target, t); }
      } else if Fits(f0, target, t) {
        FitsNeedsDirs(f0, target, t);
      }
    }

    /**
     Merge, for skills of any name: clear the destination, then put the skills at their targets, the last
     first.  It succeeds exactly when no file meets a directory, and then every path has the node of the
     first skill that has it, or what the cleared disk held.
     */
    method Merge(dest: Path, skills: seq<Skill>) returns (ok: bool)
      requires forall s :: s in skills ==> s.tree.Dir?
      modifies this
      ensures ok <==> NoClashes(Cleared(old(files), dest), Mounts(dest, skills))
      ensures ok ==> ShowsMounts(Cleared(old(files), dest), files, Mounts(dest, skills))
    {
      files := map p | p in files && !(dest <= p) :: files[p];
      ghost var disk, mounts := files, Mounts(dest, skills);
      MountsFrom(dest, skills, |skills|);
      FitsIffNoClash(disk, disk, Mount(dest, EMPTY_DIR), []);
      assert [Mount(dest, EMPTY_DIR)] + [] == mounts[|skills|..];
      ok := MkdirAll(dest);
      if !ok {
        if NoClashes(disk, mounts) { NoClashSuffix(disk, mounts, |skills|); }
        return;
      }
      MountsGrow(disk, disk, files, Mount(dest, EMPTY_DIR), []);
      var i := |skills|;
      while i > 0
        invariant 0 <= i <= |skills| && ok
        invariant ShowsMounts(disk, files, mounts[i..]) && NoClashes(disk, mounts[i..])
      {
        i := i - 1;
        var target := Target(dest, skills[i].name);
        ghost var f0 := files;
        NextMount(dest, skills, i);
        FitsIffNoClash(disk, f0, mounts[i], mounts[i + 1..]);
        ok := MountTree(target, skills[i].tree);
        if !ok {
          if NoClashes(disk, mounts) { NoClashSuffix(disk, mounts, i); }
          return;
        }
        MountsGrow(disk, f0, files, mounts[i], mounts[i + 1..]);
      }
      assert mounts[0..] == mounts;
    }
  }

  lemma BesideEntry(f0: Files, f1: Files, f2: Files, dst: Path, n: Name)
    requires Beside(f0, f1, dst) && Beside(f1, f2, dst + [n])
    ensures Beside(f0, f2, dst)
  {
    forall p | !(dst <= p) ensures At(f2, p) == At(f0, p) {
      UnderEntry(dst, n, p);
    }
  }

  /** What os.RemoveAll leaves. */
  function Cleared(files: Files, dest: Path): Files { map p | p in files && !(dest <= p) :: files[p] }

  lemma NextMount(dest: Path, skills: seq<Skill>, i: nat)
    requires i < |skills|
    ensures var mounts := Mounts(dest, skills);
      && |mounts| == |skills| + 1 && mounts[i] == Mount(Target(dest, skills[i].name), skills[i].tree)
      && mounts[i..] == [mounts[i]] + mounts[i + 1..]
  {
    MountsFrom(dest, skills, i);
    MountsFrom(dest, skills, i + 1);
    assert Mounts(dest, skills)[i..][0] == Mounts(dest, skills)[i];
  }

  lemma PrefixOfLength(target: Path, k: nat)
    requires k <= |target|
    ensures target[..k] <= target && forall p :: p <= target && |p| == k ==> p == target[..k]
  {
  }

  lemma AllDirs(f0: Files, f1: Files, target: Path)
    requires forall p :: At(f1, p) == if |p| < |target| + 1 && p <= target then Some(DirNode) else At(f0, p)
    requires forall p :: p in f0 && |p| < |target| + 1 && p <= target ==> f0[p].DirNode?
    ensures Fits(f0, target, EMPTY_DIR) && MountedOver(f0, f1, target, EMPTY_DIR)
  {
    forall p ensures Mounted(target, EMPTY_DIR, p) == if p <= target then Some(DirNode) else None {
      if target <= p { BelowEmpty(target, p); }
    }
  }

  // ---- Skills whose name is one component of a path ------------------------------------------------

  /** A name that filepath.Join keeps as one component. */
  predicate IsComponent(n: Name) { n != "" && n != "." && n != ".." && '/' !in n }

  lemma ComponentTarget(dest: Path, name: Name)
    requires IsComponent(name)
    ensures Target(dest, name) == dest + [name]
  {
    SplitWithout(name, '/');
    var parts := [name];
    assert parts[..|parts| - 1] == [] && Resolve(dest, []) == dest;
    assert Resolve(dest, parts) == dest + [name];
  }

  /** First-wins lookup by name: the node of the first skill of that name that has the path. */
  function FirstWins(skills: seq<Skill>, name: Name, rel: Path): Option<Node> {
    if skills == [] then None
    else if skills[0].name == name && NodeAt(skills[0].tree, rel).Some? then NodeAt(skills[0].tree, rel)
    else FirstWins(skills[1..], name, rel)
  }

  /** No two skills of one name have a file and a directory at the same path. */
  ghost predicate NoClash(skills: seq<Skill>) {
    forall i, j, rel {:trigger NodeAt(skills[i].tree, rel), NodeAt(skills[j].tree, rel)} ::
      0 <= i < j < |skills| && skills[i].name == skills[j].name
      && NodeAt(skills[i].tree, rel).Some? && NodeAt(skills[j].tree, rel).Some? ==>
        SameKind(NodeAt(skills[i].tree, rel).value, NodeAt(skills[j].tree, rel).value)
  }

  /** The lookup finds the skill with the lowest index, among those of the name that have the path. */
  lemma {:induction false} LowestIndexWins(skills: seq<Skill>, name: Name, rel: Path, i: nat)
    requires i < |skills| && skills[i].name == name && NodeAt(skills[i].tree, rel).Some?
    requires forall j :: 0 <= j < i && skills[j].name == name ==> NodeAt(skills[j].tree, rel).None?
    ensures FirstWins(skills, name, rel) == NodeAt(skills[i].tree, rel)
  {
    if i == 0 {
    } else {
      LowestIndexWins(skills[1..], name, rel, i - 1);
    }
  }

  lemma {:induction false} FoundSomewhere(skills: seq<Skill>, name: Name, rel: Path) returns (i: nat)
    requires FirstWins(skills, name, rel).Some?
    ensures i < |skills| && skills[i].name == name && FirstWins(skills, name, rel) == NodeAt(skills[i].tree, rel)
  {
    if skills[0].name == name && NodeAt(skills[0].tree, rel).Some? {
      i := 0;
    } else {
      var k := FoundSomewhere(skills[1..], name, rel);
      i := k + 1;
    }
  }

  /** With one skill of the name, the mounted subtree is exactly its source tree. */
  lemma UniqueSkillIsMounted(skills: seq<Skill>, i: nat, rel: Path)
    requires i < |skills| && forall j :: 0 <= j < |skills| && skills[j].name == skills[i].name ==> j == i
    ensures FirstWins(skills, skills[i].name, rel) == NodeAt(skills[i].tree, rel)
  {
    if NodeAt(skills[i].tree, rel).Some? {
      LowestIndexWins(skills, skills[i].name, rel, i);
    } else if FirstWins(skills, skills[i].name, rel).Some? {
      var k := FoundSomewhere(skills, skills[i].name, rel);
    }
  }

  lemma MountedComponent(dest: Path, name: Name, t: Tree, other: Name, rel: Path)
    ensures Mounted(dest + [name], t, dest + [other] + rel) == if name == other then NodeAt(t, rel) else None
    ensures Mounted(dest, EMPTY_DIR, dest + [other] + rel) == None
  {
    var p := dest + [other] + rel;
    assert p[|dest|] == other && |p| > |dest|;
    if name == other {
      assert p[|dest + [name]|..] == rel;
    }
    assert p[|dest|..] == [other] + rel;
  }

  /** For well-formed names, what is below the destination is the lookup by name. */
  lemma {:induction false} LookupByName(dest: Path, skills: seq<Skill>, name: Name, rel: Path)
    requires forall s :: s in skills ==> IsComponent(s.name)
    ensures FirstMounted(Mounts(dest, skills), dest + [name] + rel) == FirstWins(skills, name, rel)
  {
    var p := dest + [name] + rel;
    if skills == [] {
      MountedComponent(dest, name, EMPTY_DIR, name, rel);
      assert Mounts(dest, skills)[1..] == [];
    } else {
      ComponentTarget(dest, skills[0].name);
      MountedComponent(dest, skills[0].name, skills[0].tree, name, rel);
      LookupByName(dest, skills[1..], name, rel);
      assert Mounts(dest, skills)[1..] == Mounts(dest, skills[1..]);
    }
  }

  /**
   A merge of skills with well-formed names: every path below the destination has the node of the first
   skill of that name with that path, nothing else and nothing stale.
   */
  lemma MergedByName(before: Files, now: Files, dest: Path, skills: seq<Skill>, name: Name, rel: Path)
    requires ShowsMounts(Cleared(before, dest), now, Mounts(dest, skills))
    requires forall s :: s in skills ==> IsComponent(s.name)
    ensures At(now, dest + [name] + rel) == FirstWins(skills, name, rel)
  {
    LookupByName(dest, skills, name, rel);
    var p := dest + [name] + rel;
    assert dest <= p by { assert p[..|dest|] == dest; }
    assert At(now, p) == if FirstMounted(Mounts(dest, skills), p).Some? then FirstMounted(Mounts(dest, skills), p)
                         else At(Cleared(before, dest), p);
  }

  lemma {:induction false} ElsewhereUnchanged(dest: Path, skills: seq<Skill>, p: Path)
    requires (forall s :: s in skills ==> IsComponent(s.name)) && !(dest <= p) && !(p <= dest)
    ensures FirstMounted(Mounts(dest, skills), p) == None
  {
    if skills == [] {
      assert Mounts(dest, skills)[1..] == [];
    } else {
      ComponentTarget(dest, skills[0].name);
      NotNear(dest, skills[0].name, p);
      ElsewhereUnchanged(dest, skills[1..], p);
      assert Mounts(dest, skills)[1..] == Mounts(dest, skills[1..]);
    }
  }

  /** It changes nothing but the destination, what is below it and the directories above it. */
  lemma MergedElsewhere(before: Files, now: Files, dest: Path, skills: seq<Skill>, p: Path)
    requires ShowsMounts(Cleared(before, dest), now, Mounts(dest, skills))
    requires (forall s :: s in skills ==> IsComponent(s.name)) && !(dest <= p) && !(p <= dest)
    ensures At(now, p) == At(before, p)
  {
    ElsewhereUnchanged(dest, skills, p);
    assert At(now, p) == if FirstMounted(Mounts(dest, skills), p).Some? then FirstMounted(Mounts(dest, skills), p)
                         else At(Cleared(before, dest), p);
  }

  lemma NotNear(dest: Path, name: Name, p: Path)
    ensures dest + [name] <= p ==> dest <= p
    ensures p <= dest + [name] ==> p <= dest || dest <= p
  {
    if dest + [name] <= p {
      assert p[..|dest|] == dest;
    }
    if p <= dest + [name] && |p| <= |dest| {
      assert p == dest[..|p|];
    }
  }

  lemma {:induction false} MountAt(dest: Path, skills: seq<Skill>, i: nat)
    requires i < |skills| && IsComponent(skills[i].name)
    ensures |Mounts(dest, skills)| == |skills| + 1
    ensures Mounts(dest, skills)[i] == Mount(dest + [skills[i].name], skills[i].tree)
    ensures Mounts(dest, skills)[|skills|] == Mount(dest, EMPTY_DIR)
  {
    NextMount(dest, skills, i);
    MountsFrom(dest, skills, |skills|);
    ComponentTarget(dest, skills[i].name);
    assert Mounts(dest, skills)[|skills|..][0] == Mount(dest, EMPTY_DIR);
  }

  /** Above the destination every mount is a directory; below, only the skill of the name has anything. */
  lemma MountsNear(dest: Path, name: Name, t: Tree, p: Path)
    requires Mounted(dest + [name], t, p).Some?
    ensures p <= dest ==> Mounted(dest + [name], t, p) == Some(DirNode)
    ensures !(p <= dest) ==> dest + [name] <= p && p == dest + [name] + p[|dest| + 1..]
  {
    NotNear(dest, name, p);
    ShortPrefix(dest, name, p);
    if !(p <= dest) && p <= dest + [name] {
      assert p == dest + [name];
    }
  }

  lemma ShortPrefix(dest: Path, name: Name, p: Path)
    ensures p <= dest + [name] && |p| <= |dest| ==> p <= dest
  {
    if p <= dest + [name] && |p| <= |dest| {
      assert p == dest[..|p|];
    }
  }

  lemma PairByName(dest: Path, a: Skill, b: Skill, p: Path)
    requires a.name == b.name ==> forall rel {:trigger NodeAt(a.tree, rel), NodeAt(b.tree, rel)} ::
      NodeAt(a.tree, rel).Some? && NodeAt(b.tree, rel).Some? ==>
        SameKind(NodeAt(a.tree, rel).value, NodeAt(b.tree, rel).value)
    ensures SameKindAt(Mount(dest + [a.name], a.tree), Mount(dest + [b.name], b.tree), p)
  {
    if Mounted(dest + [a.name], a.tree, p).Some? && Mounted(dest + [b.name], b.tree, p).Some? {
      MountsNear(dest, a.name, a.tree, p);
      MountsNear(dest, b.name, b.tree, p);
      if !(p <= dest) {
        assert p[|dest|] == a.name == b.name;
        MountedComponent(dest, a.name, a.tree, a.name, p[|dest| + 1..]);
        MountedComponent(dest, b.name, b.tree, a.name, p[|dest| + 1..]);
      }
    }
  }

  lemma WithDestination(dest: Path, a: Skill, p: Path)
    ensures SameKindAt(Mount(dest + [a.name], a.tree), Mount(dest, EMPTY_DIR), p)
  {
    if Mounted(dest + [a.name], a.tree, p).Some? && Mounted(dest, EMPTY_DIR, p).Some? {
      MountsNear(dest, a.name, a.tree, p);
      if dest <= p { BelowEmpty(dest, p); }
    }
  }

  lemma FitsByName(before: Files, dest: Path, a: Skill)
    requires Fits(Cleared(before, dest), dest, EMPTY_DIR)
    ensures Fits(Cleared(before, dest), dest + [a.name], a.tree)
  {
    var disk := Cleared(before, dest);
    forall p | p in disk && Mounted(dest + [a.name], a.tree, p).Some?
      ensures SameKind(Mounted(dest + [a.name], a.tree, p).value, disk[p])
    {
      MountsNear(dest, a.name, a.tree, p);
      NotNear(dest, a.name, p);
      assert Mounted(dest, EMPTY_DIR, p) == Some(DirNode);
    }
  }

  /** For well-formed names, Merge succeeds exactly when no two skills of one name clash and dest can be made. */
  lemma ClashesByName(before: Files, dest: Path, skills: seq<Skill>)
    requires forall s :: s in skills ==> IsComponent(s.name)
    ensures NoClashes(Cleared(before, dest), Mounts(dest, skills)) <==>
      NoClash(skills) && Fits(Cleared(before, dest), dest, EMPTY_DIR)
  {
    var disk, mounts := Cleared(before, dest), Mounts(dest, skills);
    MountsFrom(dest, skills, |skills|);
    assert mounts[|skills|..][0] == Mount(dest, EMPTY_DIR);
    forall i | 0 <= i < |skills| ensures mounts[i] == Mount(dest + [skills[i].name], skills[i].tree) {
      assert skills[i] in skills;
      MountAt(dest, skills, i);
    }
    if NoClashes(disk, mounts) {
      forall i, j, rel | 0 <= i < j < |skills| && skills[i].name == skills[j].name
                         && NodeAt(skills[i].tree, rel).Some? && NodeAt(skills[j].tree, rel).Some?
        ensures SameKind(NodeAt(skills[i].tree, rel).value, NodeAt(skills[j].tree, rel).value)
      {
        MountedComponent(dest, skills[i].name, skills[i].tree, skills[i].name, rel);
        MountedComponent(dest, skills[j].name, skills[j].tree, skills[i].name, rel);
        assert SameKindAt(mounts[i], mounts[j], dest + [skills[i].name] + rel);
      }
      assert Fits(disk, mounts[|skills|].target, mounts[|skills|].tree);
    }
    if NoClash(skills) && Fits(disk, dest, EMPTY_DIR) {
      forall i, j, p | 0 <= i < j < |mounts| ensures SameKindAt(mounts[i], mounts[j], p) {
        if j < |skills| { PairByName(dest, skills[i], skills[j], p); } else { WithDestination(dest, skills[i], p); }
      }
      forall i | 0 <= i < |mounts| ensures Fits(disk, mounts[i].target, mounts[i].tree) {
        if i < |skills| { FitsByName(before, dest, skills[i]); }
      }
    }
  }
}
