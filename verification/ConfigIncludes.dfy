/** Files that include other files: `ConfigLoader._process_includes` of src/ttllm/config.py. */
module ConfigIncludes {
  import opened Model
  import opened ConfigTree
  import M = ConfigMerge

  /** The file system as the loader sees it. `contents` has the files that exist, with None
      for one that is not YAML; `locate` is `(base_dir / path).resolve()`. */
  datatype Files = Files(
    contents: map<string, Option<Tree>>,
    locate: (string, string) -> string,
    parent: string -> string)

  const INCLUDE := "include"

  // --- Putting results together, with None for an exception ---

  function ListOf(items: seq<Option<Tree>>): Option<Tree> {
    if forall i :: 0 <= i < |items| ==> items[i].Some?
    then Some(List(seq(|items|, i requires 0 <= i < |items| => items[i].GetOr(Null))))
    else None
  }

  function DictOf(entries: map<string, Option<Tree>>): Option<Tree> {
    if forall k :: k in entries ==> entries[k].Some?
    then Some(Dict(map k | k in entries :: entries[k].GetOr(Null)))
    else None
  }

  /** Layers merged from the first up, each one over those before it. */
  function Pile(layers: seq<Option<Tree>>): Option<Tree>
    decreases |layers|
  {
    if layers == [] then Some(M.EMPTY)
    else
      match (layers[|layers| - 1], Pile(layers[..|layers| - 1]))
      case (Some(top), Some(below)) => M.Merge(top, below)
      case _ => None
  }

  function IncludePaths(value: Tree): Option<seq<Tree>> {
    match value
    case Str(_) => Some([value])
    case List(items) => Some(items)
    case _ => None
  }

  /** The include paths of a dict: none if it has no include key. */
  function PathsIn(entries: map<string, Tree>): seq<Tree> {
    if INCLUDE in entries then IncludePaths(entries[INCLUDE]).GetOr([]) else []
  }

  /** The result for a dict, from the results for its own keys and for the files it names. */
  function Compose(entries: map<string, Tree>, own: map<string, Option<Tree>>, loads: seq<Option<Tree>>): Option<Tree> {
    if INCLUDE !in entries then DictOf(own)
    else if IncludePaths(entries[INCLUDE]).None? then None
    else Pile(loads + [DictOf(own)])
  }

  // --- The loader ---

  /** `_process_includes(config, base_dir, include_stack)`: the tree with every include
      replaced, or None when it raises. The stack can only grow within the files that exist,
      which with the size of the tree makes the recursion end, even if files include each
      other in a circle. */
  function Process(t: Tree, base: string, stack: set<string>, fs: Files): Option<Tree>
    decreases |fs.contents.Keys - stack|, 1, t
  {
    match t
    case List(items) =>
      ListOf(seq(|items|, i requires 0 <= i < |items| => Process(items[i], base, stack, fs)))
    case Dict(entries) =>
      Compose(entries,
        map k | k in entries && k != INCLUDE :: Process(entries[k], base, stack, fs),
        Loads(PathsIn(entries), base, stack, fs))
    case _ => Some(t)
  }

  function Loads(paths: seq<Tree>, base: string, stack: set<string>, fs: Files): seq<Option<Tree>>
    decreases |fs.contents.Keys - stack|, 0, 1
  {
    seq(|paths|, i requires 0 <= i < |paths| => Load(paths[i], base, stack, fs))
  }

  /** One included file, with its own includes replaced. */
  function Load(path: Tree, base: string, stack: set<string>, fs: Files): Option<Tree>
    decreases |fs.contents.Keys - stack|, 0, 0
  {
    if !path.Str? then None
    else
      var file := fs.locate(base, path.s);
      if file !in fs.contents || file in stack then None
      else
        OneFewer(fs.contents.Keys, stack, file);
        match fs.contents[file]
        case Some(Null) => Some(M.EMPTY)
        case Some(Dict(_)) => Process(fs.contents[file].value, fs.parent(file), stack + {file}, fs)
        case other => other
  }

  /** The layers of a dict that includes files: the files in order, then its other keys. */
  function Layers(entries: map<string, Tree>, base: string, stack: set<string>, fs: Files): seq<Option<Tree>> {
    Loads(PathsIn(entries), base, stack, fs)
    + [DictOf(map k | k in entries && k != INCLUDE :: Process(entries[k], base, stack, fs))]
  }

  /** The loop of the loader: it merges each file before it opens the next one. */
  method MergeIncludes(paths: seq<Tree>, base: string, stack: set<string>, fs: Files) returns (merged: Option<Tree>)
    ensures merged == Pile(Loads(paths, base, stack, fs))
  {
    ghost var loads := Loads(paths, base, stack, fs);
    var tree := M.EMPTY;
    var i := 0;
    while i < |paths|
      invariant 0 <= i <= |paths|
      invariant Pile(loads[..i]) == Some(tree)
    {
      assert loads[..i + 1][..i] == loads[..i];
      var layer := Load(paths[i], base, stack, fs);
      if layer.None? || !M.CanMerge(layer.value, tree) {
        PileFails(loads, i + 1);
        return None;
      }
      tree := M.Merged(layer.value, tree);
      i := i + 1;
    }
    assert loads[..i] == loads;
    return Some(tree);
  }

  lemma {:induction false} PileFails(layers: seq<Option<Tree>>, n: nat)
    requires n <= |layers| && Pile(layers[..n]).None?
    ensures Pile(layers).None?
    decreases |layers| - n
  {
    if n == |layers| {
      assert layers[..n] == layers;
    } else {
      assert layers[..n + 1][..n] == layers[..n];
      PileFails(layers, n + 1);
    }
  }

  // --- What a key reads as ---

  /** The value of the topmost layer that has one, unless a plain value above it cuts the
      path short. */
  function TopMost(layers: seq<Option<Tree>>, path: seq<string>): Option<Tree>
    decreases |layers|
  {
    if layers == [] then None
    else
      match layers[|layers| - 1]
      case None => None
      case Some(top) =>
        if M.Read(top, path).Some? then M.Read(top, path)
        else if M.Blocked(top, path) then None
        else TopMost(layers[..|layers| - 1], path)
  }

  lemma {:induction false} PileReads(layers: seq<Option<Tree>>, path: seq<string>)
    requires Pile(layers).Some?
    ensures M.Read(Pile(layers).value, path) == TopMost(layers, path)
    decreases |layers|
  {
    if layers == [] {
      M.ReadOfEmpty(path);
    } else {
      var below := layers[..|layers| - 1];
      PileReads(below, path);
      M.MergedReads(layers[|layers| - 1].value, Pile(below).value, path);
    }
  }

  /** Sibling keys win over included files, and later files over earlier ones. */
  lemma Precedence(entries: map<string, Tree>, base: string, stack: set<string>, fs: Files, path: seq<string>)
    requires INCLUDE in entries && Process(Dict(entries), base, stack, fs).Some?
    ensures M.Read(Process(Dict(entries), base, stack, fs).value, path)
         == TopMost(Layers(entries, base, stack, fs), path)
  {
    PileReads(Layers(entries, base, stack, fs), path);
  }

  // --- No include is left ---

  predicate NoIncludes(t: Tree) {
    match t
    case List(items) => forall i :: 0 <= i < |items| ==> NoIncludes(items[i])
    case Dict(entries) => INCLUDE !in entries && forall k :: k in entries ==> NoIncludes(entries[k])
    case _ => true
  }

  lemma {:induction false} MergedHasNoIncludes(s: Tree, d: Tree)
    requires M.CanMerge(s, d) && NoIncludes(s) && NoIncludes(d)
    ensures NoIncludes(M.Merged(s, d))
    decreases s
  {
    if s.entries != map[] {
      forall k | k in s.entries && s.entries[k].Dict?
        ensures NoIncludes(M.Merged(s.entries[k], M.DefaultAt(d, k)))
      {
        assert NoIncludes(M.EMPTY);
        MergedHasNoIncludes(s.entries[k], M.DefaultAt(d, k));
      }
    }
  }

  lemma {:induction false} PileHasNoIncludes(layers: seq<Option<Tree>>)
    requires Pile(layers).Some?
    requires forall i :: 0 <= i < |layers| && layers[i].Some? && layers[i].value.Dict? ==> NoIncludes(layers[i].value)
    ensures NoIncludes(Pile(layers).value)
    decreases |layers|
  {
    if layers != [] {
      var below := layers[..|layers| - 1];
      PileHasNoIncludes(below);
      MergedHasNoIncludes(layers[|layers| - 1].value, Pile(below).value);
    }
  }

  /** Whatever the files hold, no include key is left at any depth of the result. */
  lemma {:induction false} NoIncludeIsLeft(t: Tree, base: string, stack: set<string>, fs: Files)
    requires Process(t, base, stack, fs).Some?
    ensures NoIncludes(Process(t, base, stack, fs).value)
    decreases |fs.contents.Keys - stack|, 1, t
  {
    match t {
      case List(items) =>
        forall i | 0 <= i < |items| && Process(items[i], base, stack, fs).Some?
          ensures NoIncludes(Process(items[i], base, stack, fs).value)
        {
          NoIncludeIsLeft(items[i], base, stack, fs);
        }
      case Dict(entries) =>
        forall k | k in entries && k != INCLUDE && Process(entries[k], base, stack, fs).Some?
          ensures NoIncludes(Process(entries[k], base, stack, fs).value)
        {
          NoIncludeIsLeft(entries[k], base, stack, fs);
        }
        if INCLUDE in entries {
          var layers := Layers(entries, base, stack, fs);
          var paths := PathsIn(entries);
          forall i | 0 <= i < |paths| && layers[i].Some? && layers[i].value.Dict?
            ensures NoIncludes(layers[i].value)
          {
            LoadedHasNoIncludes(paths[i], base, stack, fs);
          }
          PileHasNoIncludes(layers);
        }
      case _ =>
    }
  }

  lemma {:induction false} LoadedHasNoIncludes(path: Tree, base: string, stack: set<string>, fs: Files)
    requires Load(path, base, stack, fs).Some? && Load(path, base, stack, fs).value.Dict?
    ensures NoIncludes(Load(path, base, stack, fs).value)
    decreases |fs.contents.Keys - stack|, 0
  {
    var file := fs.locate(base, path.s);
    OneFewer(fs.contents.Keys, stack, file);
    if fs.contents[file].value.Dict? {
      NoIncludeIsLeft(fs.contents[file].value, fs.parent(file), stack + {file}, fs);
    }
  }

  // --- The meaning of a tree that includes files ---

  /** What a tree means: replace includes by the files they name, again and again, with no
      memory of where one has been. It has a value just when some depth is enough. */
  function Expand(t: Tree, base: string, fs: Files, depth: nat): Option<Tree>
    decreases depth, 1, t
  {
    match t
    case List(items) =>
      ListOf(seq(|items|, i requires 0 <= i < |items| => Expand(items[i], base, fs, depth)))
    case Dict(entries) =>
      Compose(entries,
        map k | k in entries && k != INCLUDE :: Expand(entries[k], base, fs, depth),
        Includeds(PathsIn(entries), base, fs, depth))
    case _ => Some(t)
  }

  function Includeds(paths: seq<Tree>, base: string, fs: Files, depth: nat): seq<Option<Tree>>
    decreases depth, 0, 1
  {
    seq(|paths|, i requires 0 <= i < |paths| =>
      if paths[i].Str? then Opened(fs.locate(base, paths[i].s), fs, depth) else None)
  }

  function Opened(file: string, fs: Files, depth: nat): Option<Tree>
    decreases depth, 0, 0
  {
    if depth == 0 || file !in fs.contents then None
    else
      match fs.contents[file]
      case Some(Null) => Some(M.EMPTY)
      case Some(Dict(_)) => Expand(fs.contents[file].value, fs.parent(file), fs, depth - 1)
      case other => other
  }

  lemma {:induction false} PileNeedsAll(layers: seq<Option<Tree>>, i: nat)
    requires Pile(layers).Some? && i < |layers|
    ensures layers[i].Some?
    decreases |layers|
  {
    if i < |layers| - 1 {
      PileNeedsAll(layers[..|layers| - 1], i);
    }
  }

  lemma ComposeNeedsAll(entries: map<string, Tree>, own: map<string, Option<Tree>>, loads: seq<Option<Tree>>)
    requires Compose(entries, own, loads).Some? && |loads| == |PathsIn(entries)|
    ensures forall k :: k in own ==> own[k].Some?
    ensures forall i :: 0 <= i < |loads| ==> loads[i].Some?
  {
    if INCLUDE in entries {
      var layers := loads + [DictOf(own)];
      forall i | 0 <= i < |layers| ensures layers[i].Some? {
        PileNeedsAll(layers, i);
      }
      assert layers[|loads|].Some?;
      forall i | 0 <= i < |loads| ensures loads[i].Some? {
        assert layers[i].Some?;
      }
    }
  }

  lemma {:induction false} ExpandDeeper(t: Tree, base: string, fs: Files, depth: nat, deeper: nat)
    requires depth <= deeper && Expand(t, base, fs, depth).Some?
    ensures Expand(t, base, fs, deeper) == Expand(t, base, fs, depth)
    decreases depth, 1, t
  {
    match t {
      case List(items) =>
        var results := seq(|items|, i requires 0 <= i < |items| => Expand(items[i], base, fs, depth));
        forall i | 0 <= i < |items| ensures Expand(items[i], base, fs, deeper) == results[i] {
          assert results[i].Some?;
          ExpandDeeper(items[i], base, fs, depth, deeper);
        }
        assert seq(|items|, i requires 0 <= i < |items| => Expand(items[i], base, fs, deeper)) == results;
      case Dict(entries) =>
        var own := map k | k in entries && k != INCLUDE :: Expand(entries[k], base, fs, depth);
        var loads := Includeds(PathsIn(entries), base, fs, depth);
        ComposeNeedsAll(entries, own, loads);
        forall k | k in entries && k != INCLUDE
          ensures Expand(entries[k], base, fs, deeper) == own[k]
        {
          assert own[k].Some?;
          ExpandDeeper(entries[k], base, fs, depth, deeper);
        }
        forall i | 0 <= i < |loads| ensures Includeds(PathsIn(entries), base, fs, deeper)[i] == loads[i] {
          assert loads[i].Some?;
          OpenedDeeper(fs.locate(base, PathsIn(entries)[i].s), fs, depth, deeper);
        }
        assert Includeds(PathsIn(entries), base, fs, deeper) == loads;
        assert (map k | k in entries && k != INCLUDE :: Expand(entries[k], base, fs, deeper)) == own;
      case _ =>
    }
  }

  lemma {:induction false} OpenedDeeper(file: string, fs: Files, depth: nat, deeper: nat)
    requires depth <= deeper && Opened(file, fs, depth).Some?
    ensures Opened(file, fs, deeper) == Opened(file, fs, depth)
    decreases depth, 0
  {
    if fs.contents[file].value.Dict? {
      ExpandDeeper(fs.contents[file].value, fs.parent(file), fs, depth - 1, deeper - 1);
    }
  }

  /** The loader and the expansion agree on a tree when they agree on what it holds. */
  lemma Same(t: Tree, base: string, stack: set<string>, fs: Files, depth: nat)
    requires t.List? ==> forall i :: 0 <= i < |t.items| ==>
               Process(t.items[i], base, stack, fs) == Expand(t.items[i], base, fs, depth)
    requires t.Dict? ==> forall k :: k in t.entries && k != INCLUDE ==>
               Process(t.entries[k], base, stack, fs) == Expand(t.entries[k], base, fs, depth)
    requires t.Dict? ==> Loads(PathsIn(t.entries), base, stack, fs) == Includeds(PathsIn(t.entries), base, fs, depth)
    ensures Process(t, base, stack, fs) == Expand(t, base, fs, depth)
  {
    match t {
      case List(items) =>
        assert seq(|items|, i requires 0 <= i < |items| => Process(items[i], base, stack, fs))
            == seq(|items|, i requires 0 <= i < |items| => Expand(items[i], base, fs, depth));
      case Dict(entries) =>
        assert (map k | k in entries && k != INCLUDE :: Process(entries[k], base, stack, fs))
            == (map k | k in entries && k != INCLUDE :: Expand(entries[k], base, fs, depth));
      case _ =>
    }
  }

  /** A tree is loaded only if everything it holds and names is. */
  lemma ProcessNeedsAll(t: Tree, base: string, stack: set<string>, fs: Files)
    requires Process(t, base, stack, fs).Some?
    ensures t.List? ==> forall i :: 0 <= i < |t.items| ==> Process(t.items[i], base, stack, fs).Some?
    ensures t.Dict? ==> forall k :: k in t.entries && k != INCLUDE ==> Process(t.entries[k], base, stack, fs).Some?
    ensures t.Dict? ==> forall i :: 0 <= i < |PathsIn(t.entries)| ==> Load(PathsIn(t.entries)[i], base, stack, fs).Some?
  {
    match t {
      case List(items) =>
        var results := seq(|items|, i requires 0 <= i < |items| => Process(items[i], base, stack, fs));
        forall i | 0 <= i < |items| ensures Process(items[i], base, stack, fs).Some? {
          assert results[i].Some?;
        }
      case Dict(entries) =>
        var own := map k | k in entries && k != INCLUDE :: Process(entries[k], base, stack, fs);
        var loads := Loads(PathsIn(entries), base, stack, fs);
        ComposeNeedsAll(entries, own, loads);
        forall k | k in entries && k != INCLUDE ensures Process(entries[k], base, stack, fs).Some? {
          assert own[k].Some?;
        }
        forall i | 0 <= i < |loads| ensures Load(PathsIn(entries)[i], base, stack, fs).Some? {
          assert loads[i].Some?;
        }
      case _ =>
    }
  }

  lemma {:induction false} ProcessExpands(t: Tree, base: string, stack: set<string>, fs: Files, depth: nat)
    requires Process(t, base, stack, fs).Some? && depth == |fs.contents.Keys - stack|
    ensures Expand(t, base, fs, depth) == Process(t, base, stack, fs)
    decreases depth, 1, t
  {
    ProcessNeedsAll(t, base, stack, fs);
    match t {
      case List(items) =>
        forall i | 0 <= i < |items| ensures Process(items[i], base, stack, fs) == Expand(items[i], base, fs, depth) {
          ProcessExpands(items[i], base, stack, fs, depth);
        }
      case Dict(entries) =>
        forall k | k in entries && k != INCLUDE
          ensures Process(entries[k], base, stack, fs) == Expand(entries[k], base, fs, depth)
        {
          ProcessExpands(entries[k], base, stack, fs, depth);
        }
        LoadsOpen(PathsIn(entries), base, stack, fs, depth);
      case _ =>
    }
    Same(t, base, stack, fs, depth);
  }

  lemma {:induction false} LoadsOpen(paths: seq<Tree>, base: string, stack: set<string>, fs: Files, depth: nat)
    requires forall i :: 0 <= i < |paths| ==> Load(paths[i], base, stack, fs).Some?
    requires depth == |fs.contents.Keys - stack|
    ensures Loads(paths, base, stack, fs) == Includeds(paths, base, fs, depth)
    decreases depth, 0, 1
  {
    forall i | 0 <= i < |paths| ensures Loads(paths, base, stack, fs)[i] == Includeds(paths, base, fs, depth)[i] {
      LoadOpens(paths[i], base, stack, fs, depth);
    }
  }

  lemma {:induction false} LoadOpens(path: Tree, base: string, stack: set<string>, fs: Files, depth: nat)
    requires Load(path, base, stack, fs).Some? && depth == |fs.contents.Keys - stack|
    ensures path.Str? && Opened(fs.locate(base, path.s), fs, depth) == Load(path, base, stack, fs)
    decreases depth, 0, 0
  {
    var file := fs.locate(base, path.s);
    OneFewer(fs.contents.Keys, stack, file);
    if fs.contents[file].value.Dict? {
      ProcessExpands(fs.contents[file].value, fs.parent(file), stack + {file}, fs, depth - 1);
    }
  }

  /** The files on the stack all need more than this depth. */
  ghost predicate AllNeedMore(stack: set<string>, fs: Files, depth: nat) {
    forall file :: file in stack ==> Opened(file, fs, depth).None?
  }

  lemma {:induction false} LeastDepth(file: string, fs: Files, depth: nat) returns (least: nat)
    requires Opened(file, fs, depth).Some?
    ensures 0 < least <= depth && Opened(file, fs, least) == Opened(file, fs, depth)
    ensures Opened(file, fs, least - 1).None?
    decreases depth
  {
    if Opened(file, fs, depth - 1).None? {
      least := depth;
    } else {
      OpenedDeeper(file, fs, depth - 1, depth);
      least := LeastDepth(file, fs, depth - 1);
    }
  }

  /** A file that needs less depth than the files on the stack is not one of them, and below
      the least depth it needs, neither they nor the file itself can be opened. */
  lemma FileNeedsLess(file: string, stack: set<string>, fs: Files, depth: nat) returns (least: nat)
    requires Opened(file, fs, depth).Some? && AllNeedMore(stack, fs, depth)
    ensures 0 < least <= depth && file !in stack && Opened(file, fs, least) == Opened(file, fs, depth)
    ensures AllNeedMore(stack + {file}, fs, least - 1)
  {
    least := LeastDepth(file, fs, depth);
    forall f | f in stack ensures Opened(f, fs, least - 1).None? {
      if Opened(f, fs, least - 1).Some? {
        OpenedDeeper(f, fs, least - 1, depth);
      }
    }
  }

  /** A tree that has a meaning is loaded as that, provided the files on the stack need more
      depth than it does. */
  lemma {:induction false} ExpandProcesses(t: Tree, base: string, stack: set<string>, fs: Files, depth: nat)
    requires Expand(t, base, fs, depth).Some? && AllNeedMore(stack, fs, depth)
    ensures Process(t, base, stack, fs) == Expand(t, base, fs, depth)
    decreases depth, 1, t
  {
    match t {
      case List(items) =>
        var results := seq(|items|, i requires 0 <= i < |items| => Expand(items[i], base, fs, depth));
        forall i | 0 <= i < |items| ensures Process(items[i], base, stack, fs) == Expand(items[i], base, fs, depth) {
          assert results[i].Some?;
          ExpandProcesses(items[i], base, stack, fs, depth);
        }
      case Dict(entries) =>
        var own := map k | k in entries && k != INCLUDE :: Expand(entries[k], base, fs, depth);
        var loads := Includeds(PathsIn(entries), base, fs, depth);
        ComposeNeedsAll(entries, own, loads);
        forall k | k in entries && k != INCLUDE ensures Process(entries[k], base, stack, fs) == own[k] {
          assert own[k].Some?;
          ExpandProcesses(entries[k], base, stack, fs, depth);
        }
        forall i | 0 <= i < |loads| ensures Loads(PathsIn(entries), base, stack, fs)[i] == loads[i] {
          assert loads[i].Some?;
          OpenedLoads(PathsIn(entries)[i], base, stack, fs, depth);
        }
        assert Loads(PathsIn(entries), base, stack, fs) == loads;
      case _ =>
    }
    Same(t, base, stack, fs, depth);
  }

  lemma {:induction false} OpenedLoads(path: Tree, base: string, stack: set<string>, fs: Files, depth: nat)
    requires path.Str? && Opened(fs.locate(base, path.s), fs, depth).Some? && AllNeedMore(stack, fs, depth)
    ensures Load(path, base, stack, fs) == Opened(fs.locate(base, path.s), fs, depth)
    decreases depth, 0
  {
    var file := fs.locate(base, path.s);
    var least := FileNeedsLess(file, stack, fs, depth);
    if fs.contents[file].value.Dict? {
      ExpandProcesses(fs.contents[file].value, fs.parent(file), stack + {file}, fs, least - 1);
    }
  }

  /** Loading succeeds exactly on the trees that have a meaning, and gives it: the check for
      circular includes refuses nothing that would have ended. */
  lemma LoadingIsExpansion(config: Tree, base: string, fs: Files, result: Tree)
    ensures Process(config, base, {}, fs) == Some(result)
        <==> exists depth: nat :: Expand(config, base, fs, depth) == Some(result)
  {
    if Process(config, base, {}, fs) == Some(result) {
      ProcessExpands(config, base, {}, fs, |fs.contents.Keys - {}|);
    }
    if exists depth: nat :: Expand(config, base, fs, depth) == Some(result) {
      var depth: nat :| Expand(config, base, fs, depth) == Some(result);
      ExpandProcesses(config, base, {}, fs, depth);
    }
  }
}
