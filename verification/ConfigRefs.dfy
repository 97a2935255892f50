/** Cross-references inside a configuration: `ConfigLoader._resolve_refs` of
    src/ttllm/config.py. */
module ConfigRefs {
  import opened Model
  import opened ConfigTree

  predicate IsRef(s: string) {
    "ref:" <= s
  }

  function RefPath(s: string): string
    requires IsRef(s)
  {
    s[4..]
  }

  /** The string that refers to a path. */
  function RefTo(path: string): Tree {
    Str("ref:" + path)
  }

  lemma RefForms(path: string)
    ensures IsRef("ref:" + path) && RefPath("ref:" + path) == path
  {
  }

  /** `path.split(".")` */
  function Split(path: string): (r: seq<string>)
    ensures r != []
  {
    if path == "" then [""]
    else
      var rest := Split(path[1..]);
      if path[0] == '.' then [""] + rest else [[path[0]] + rest[0]] + rest[1..]
  }

  function Walk(from: Tree, parts: seq<string>): Option<Tree>
    decreases |parts|
  {
    if parts == [] then Some(from)
    else if !from.Dict? || parts[0] !in from.entries then None
    else Walk(from.entries[parts[0]], parts[1..])
  }

  /** The value a ref path of the configuration points at. */
  function Target(root: Tree, path: string): Option<Tree> {
    Walk(root, Split(path))
  }

  /** The walk as the loader does it. */
  method FindTarget(root: Tree, path: string) returns (target: Option<Tree>)
    ensures target == Target(root, path)
  {
    var parts := Split(path);
    var current := root;
    var i := 0;
    while i < |parts|
      invariant 0 <= i <= |parts|
      invariant Target(root, path) == Walk(current, parts[i..])
    {
      assert parts[i..][1..] == parts[i + 1..];
      if !current.Dict? || parts[i] !in current.entries {
        return None;
      }
      current := current.entries[parts[i]];
      i := i + 1;
    }
    return Some(current);
  }

  /** Every ref path written anywhere in a tree. */
  function RefPaths(t: Tree): set<string> {
    match t
    case Str(s) => if IsRef(s) then {RefPath(s)} else {}
    case List(items) => set i, p | 0 <= i < |items| && p in RefPaths(items[i]) :: p
    case Dict(entries) => set k, p | k in entries && p in RefPaths(entries[k]) :: p
    case _ => {}
  }

  lemma {:induction false} WalkStaysInside(from: Tree, parts: seq<string>)
    ensures Walk(from, parts).Some? ==> RefPaths(Walk(from, parts).value) <= RefPaths(from)
    decreases |parts|
  {
    if parts != [] && from.Dict? && parts[0] in from.entries {
      WalkStaysInside(from.entries[parts[0]], parts[1..]);
    }
  }

  /** `_resolve_refs`: the tree with every ref replaced, or None for ConfigRefError.
      `resolving` is the stack of paths being replaced; it can only grow within the paths
      the root mentions, which with the size of the tree makes the recursion end. */
  function Resolve(t: Tree, root: Tree, resolving: set<string>): Option<Tree>
    requires RefPaths(t) <= RefPaths(root)
    decreases |RefPaths(root) - resolving|, t
  {
    match t
    case List(items) =>
      if forall i :: 0 <= i < |items| ==> Resolve(items[i], root, resolving).Some?
      then Some(List(seq(|items|, i requires 0 <= i < |items| => Resolve(items[i], root, resolving).GetOr(Null))))
      else None
    case Dict(entries) =>
      if forall k :: k in entries ==> Resolve(entries[k], root, resolving).Some?
      then Some(Dict(map k | k in entries :: Resolve(entries[k], root, resolving).GetOr(Null)))
      else None
    case Str(s) =>
      if !IsRef(s) then Some(t)
      else if RefPath(s) in resolving then None
      else
        (match Target(root, RefPath(s))
         case None => None
         case Some(target) =>
           WalkStaysInside(root, Split(RefPath(s)));
           OneFewer(RefPaths(root), resolving, RefPath(s));
           Resolve(target, root, resolving + {RefPath(s)}))
    case _ => Some(t)
  }

  /** One ref replaced: the recursion goes on at its target, one path further. */
  lemma RefStep(s: string, root: Tree, resolving: set<string>)
    requires IsRef(s) && RefPaths(Str(s)) <= RefPaths(root)
    requires RefPath(s) !in resolving && Target(root, RefPath(s)).Some?
    ensures var target := Target(root, RefPath(s)).value;
            && RefPaths(target) <= RefPaths(root)
            && Resolve(Str(s), root, resolving) == Resolve(target, root, resolving + {RefPath(s)})
    ensures |RefPaths(root) - (resolving + {RefPath(s)})| == |RefPaths(root) - resolving| - 1
  {
    WalkStaysInside(root, Split(RefPath(s)));
    OneFewer(RefPaths(root), resolving, RefPath(s));
  }

  lemma ResolveOfRef(path: string, root: Tree, resolving: set<string>)
    requires RefPaths(RefTo(path)) <= RefPaths(root)
    requires path !in resolving && Target(root, path).Some?
    ensures RefPaths(Target(root, path).value) <= RefPaths(root)
    ensures Resolve(RefTo(path), root, resolving) == Resolve(Target(root, path).value, root, resolving + {path})
  {
    RefForms(path);
    RefStep(RefTo(path).s, root, resolving);
  }

  /** The whole configuration. */
  function ResolveRefs(config: Tree): Option<Tree> {
    Resolve(config, config, {})
  }

  // --- The meaning of a configuration ---

  /** What a configuration means: replace refs by what they point at, again and again, with
      no memory of where one has been. It has a value just when some depth is enough. */
  function Unfold(t: Tree, root: Tree, depth: nat): Option<Tree>
    decreases depth, t
  {
    match t
    case List(items) =>
      if forall i :: 0 <= i < |items| ==> Unfold(items[i], root, depth).Some?
      then Some(List(seq(|items|, i requires 0 <= i < |items| => Unfold(items[i], root, depth).GetOr(Null))))
      else None
    case Dict(entries) =>
      if forall k :: k in entries ==> Unfold(entries[k], root, depth).Some?
      then Some(Dict(map k | k in entries :: Unfold(entries[k], root, depth).GetOr(Null)))
      else None
    case Str(s) =>
      if !IsRef(s) then Some(t)
      else if depth == 0 then None
      else
        (match Target(root, RefPath(s))
         case None => None
         case Some(target) => Unfold(target, root, depth - 1))
    case _ => Some(t)
  }

  lemma {:induction false} UnfoldDeeper(t: Tree, root: Tree, depth: nat, deeper: nat)
    requires depth <= deeper && Unfold(t, root, depth).Some?
    ensures Unfold(t, root, deeper) == Unfold(t, root, depth)
    decreases depth, t
  {
    match t {
      case List(items) =>
        forall i | 0 <= i < |items| ensures Unfold(items[i], root, deeper) == Unfold(items[i], root, depth) {
          UnfoldDeeper(items[i], root, depth, deeper);
        }
        assert Unfold(t, root, deeper).value.items == Unfold(t, root, depth).value.items;
      case Dict(entries) =>
        forall k | k in entries ensures Unfold(entries[k], root, deeper) == Unfold(entries[k], root, depth) {
          UnfoldDeeper(entries[k], root, depth, deeper);
        }
        assert Unfold(t, root, deeper).value.entries == Unfold(t, root, depth).value.entries;
      case Str(s) =>
        if IsRef(s) {
          UnfoldDeeper(Target(root, RefPath(s)).value, root, depth - 1, deeper - 1);
        }
      case _ =>
    }
  }

  lemma ChildRefs(t: Tree, all: set<string>)
    requires RefPaths(t) <= all
    ensures t.List? ==> forall i :: 0 <= i < |t.items| ==> RefPaths(t.items[i]) <= all
    ensures t.Dict? ==> forall k :: k in t.entries ==> RefPaths(t.entries[k]) <= all
  {
    if t.List? {
      forall i | 0 <= i < |t.items| ensures RefPaths(t.items[i]) <= RefPaths(t) {
      }
    } else if t.Dict? {
      forall k | k in t.entries ensures RefPaths(t.entries[k]) <= RefPaths(t) {
      }
    }
  }

  /** Resolving and unfolding agree on a collection when they agree on its elements. */
  lemma SameList(items: seq<Tree>, root: Tree, resolving: set<string>, depth: nat)
    requires RefPaths(List(items)) <= RefPaths(root)
    requires forall i :: 0 <= i < |items| ==> RefPaths(items[i]) <= RefPaths(root)
    requires forall i :: 0 <= i < |items| ==>
               Resolve(items[i], root, resolving) == Unfold(items[i], root, depth)
    ensures Resolve(List(items), root, resolving) == Unfold(List(items), root, depth)
  {
    if forall i :: 0 <= i < |items| ==> Unfold(items[i], root, depth).Some? {
      assert Resolve(List(items), root, resolving).value.items == Unfold(List(items), root, depth).value.items;
    }
  }

  lemma SameDict(entries: map<string, Tree>, root: Tree, resolving: set<string>, depth: nat)
    requires RefPaths(Dict(entries)) <= RefPaths(root)
    requires forall k :: k in entries ==> RefPaths(entries[k]) <= RefPaths(root)
    requires forall k :: k in entries ==>
               Resolve(entries[k], root, resolving) == Unfold(entries[k], root, depth)
    ensures Resolve(Dict(entries), root, resolving) == Unfold(Dict(entries), root, depth)
  {
    if forall k :: k in entries ==> Unfold(entries[k], root, depth).Some? {
      assert Resolve(Dict(entries), root, resolving).value.entries == Unfold(Dict(entries), root, depth).value.entries;
    }
  }

  lemma {:induction false} ResolveUnfolds(t: Tree, root: Tree, resolving: set<string>, depth: nat)
    requires RefPaths(t) <= RefPaths(root)
    requires Resolve(t, root, resolving).Some?
    requires depth == |RefPaths(root) - resolving|
    ensures Unfold(t, root, depth) == Resolve(t, root, resolving)
    decreases depth, t
  {
    ChildRefs(t, RefPaths(root));
    match t {
      case List(items) =>
        forall i | 0 <= i < |items| ensures Unfold(items[i], root, depth) == Resolve(items[i], root, resolving) {
          ResolveUnfolds(items[i], root, resolving, depth);
        }
        SameList(items, root, resolving, depth);
      case Dict(entries) =>
        forall k | k in entries ensures Unfold(entries[k], root, depth) == Resolve(entries[k], root, resolving) {
          ResolveUnfolds(entries[k], root, resolving, depth);
        }
        SameDict(entries, root, resolving, depth);
      case Str(s) =>
        if IsRef(s) {
          var target := Target(root, RefPath(s)).value;
          RefStep(s, root, resolving);
          ResolveUnfolds(target, root, resolving + {RefPath(s)}, depth - 1);
        }
      case _ =>
    }
  }

  /** The least depth that is enough. */
  lemma {:induction false} LeastDepth(t: Tree, root: Tree, depth: nat) returns (least: nat)
    requires Unfold(t, root, depth).Some?
    ensures least <= depth && Unfold(t, root, least) == Unfold(t, root, depth)
    ensures least > 0 ==> Unfold(t, root, least - 1).None?
    decreases depth
  {
    if depth == 0 || Unfold(t, root, depth - 1).None? {
      least := depth;
    } else {
      UnfoldDeeper(t, root, depth - 1, depth);
      least := LeastDepth(t, root, depth - 1);
    }
  }

  /** A ref whose meaning needs less depth than the refs being resolved is not one of them,
      and at the least depth its target needs, neither they nor the ref itself have one. */
  lemma TargetNeedsLess(path: string, root: Tree, resolving: set<string>, depth: nat) returns (least: nat)
    requires Unfold(RefTo(path), root, depth).Some?
    requires AllNeedMore(resolving, root, depth)
    ensures 0 < least <= depth && path !in resolving && Target(root, path).Some?
    ensures Unfold(Target(root, path).value, root, least - 1) == Unfold(RefTo(path), root, depth)
    ensures AllNeedMore(resolving + {path}, root, least - 1)
  {
    least := LeastDepth(RefTo(path), root, depth);
    RefForms(path);
    forall p | p in resolving ensures Unfold(RefTo(p), root, least - 1).None? {
      if Unfold(RefTo(p), root, least - 1).Some? {
        UnfoldDeeper(RefTo(p), root, least - 1, depth);
      }
    }
  }

  /** The paths being resolved all need more than this depth. */
  ghost predicate AllNeedMore(resolving: set<string>, root: Tree, depth: nat) {
    forall p :: p in resolving ==> Unfold(RefTo(p), root, depth).None?
  }

  /** A value that has a meaning is resolved to it, provided the paths being resolved need
      more depth than it does. */
  lemma {:induction false} UnfoldResolves(t: Tree, root: Tree, resolving: set<string>, depth: nat)
    requires RefPaths(t) <= RefPaths(root)
    requires Unfold(t, root, depth).Some?
    requires AllNeedMore(resolving, root, depth)
    ensures Resolve(t, root, resolving) == Unfold(t, root, depth)
    decreases depth, 1, t
  {
    ChildRefs(t, RefPaths(root));
    match t {
      case List(items) =>
        forall i | 0 <= i < |items| ensures Resolve(items[i], root, resolving) == Unfold(items[i], root, depth) {
          UnfoldResolves(items[i], root, resolving, depth);
        }
        SameList(items, root, resolving, depth);
      case Dict(entries) =>
        forall k | k in entries ensures Resolve(entries[k], root, resolving) == Unfold(entries[k], root, depth) {
          UnfoldResolves(entries[k], root, resolving, depth);
        }
        SameDict(entries, root, resolving, depth);
      case Str(s) =>
        if IsRef(s) {
          RefForms(RefPath(s));
          UnfoldedRefResolves(RefPath(s), root, resolving, depth);
        }
      case _ =>
    }
  }

  lemma {:induction false} UnfoldedRefResolves(path: string, root: Tree, resolving: set<string>, depth: nat)
    requires RefPaths(RefTo(path)) <= RefPaths(root)
    requires Unfold(RefTo(path), root, depth).Some?
    requires AllNeedMore(resolving, root, depth)
    ensures Resolve(RefTo(path), root, resolving) == Unfold(RefTo(path), root, depth)
    decreases depth, 0
  {
    var least := TargetNeedsLess(path, root, resolving, depth);
    var target, longer := Target(root, path).value, resolving + {path};
    ResolveOfRef(path, root, resolving);
    UnfoldResolves(target, root, longer, least - 1);
  }

  /** Resolution succeeds exactly on the configurations that have a meaning, and gives it:
      detecting cycles refuses nothing that would have ended. */
  lemma ResolutionIsUnfolding(config: Tree, result: Tree)
    ensures ResolveRefs(config) == Some(result) <==> exists depth: nat :: Unfold(config, config, depth) == Some(result)
  {
    if ResolveRefs(config) == Some(result) {
      ResolveUnfolds(config, config, {}, |RefPaths(config) - {}|);
    }
    if exists depth: nat :: Unfold(config, config, depth) == Some(result) {
      var depth: nat :| Unfold(config, config, depth) == Some(result);
      UnfoldResolves(config, config, {}, depth);
    }
  }

  // --- Exactly when it fails ---

  /** Refs followed one after the other: the first is written in `t`, each next one inside
      what the one before points at. */
  ghost predicate Chain(t: Tree, root: Tree, path: seq<string>)
    decreases |path|
  {
    && path != []
    && path[0] in RefPaths(t)
    && (|path| > 1 ==> Target(root, path[0]).Some? && Chain(Target(root, path[0]).value, root, path[1..]))
  }

  /** Its last ref points nowhere, or back into the chain or the paths being resolved. */
  ghost predicate DeadEnd(root: Tree, resolving: set<string>, path: seq<string>)
    requires path != []
  {
    var last := path[|path| - 1];
    Target(root, last).None? || last in resolving || last in path[..|path| - 1]
  }

  lemma {:induction false} BrokenRefBreaksTree(t: Tree, root: Tree, resolving: set<string>, p: string)
    requires RefPaths(t) <= RefPaths(root) && p in RefPaths(t)
    requires Resolve(RefTo(p), root, resolving).None?
    ensures Resolve(t, root, resolving).None?
    decreases t
  {
    match t {
      case List(items) =>
        var i :| 0 <= i < |items| && p in RefPaths(items[i]);
        BrokenRefBreaksTree(items[i], root, resolving, p);
      case Dict(entries) =>
        var k :| k in entries && p in RefPaths(entries[k]);
        BrokenRefBreaksTree(entries[k], root, resolving, p);
      case Str(s) =>
        assert RefTo(p) == t;
    }
  }

  lemma {:induction false} DeadEndFails(t: Tree, root: Tree, resolving: set<string>, path: seq<string>)
    requires RefPaths(t) <= RefPaths(root)
    requires Chain(t, root, path) && DeadEnd(root, resolving, path)
    ensures Resolve(t, root, resolving).None?
    decreases |path|
  {
    var p := path[0];
    assert RefPaths(RefTo(p)) == {p};
    if p !in resolving && |path| > 1 {
      var target := Target(root, p).value;
      WalkStaysInside(root, Split(p));
      var rest := path[1..];
      assert rest[|rest| - 1] == path[|path| - 1];
      assert path[..|path| - 1] == [p] + rest[..|rest| - 1];
      DeadEndFails(target, root, resolving + {p}, rest);
    }
    BrokenRefBreaksTree(t, root, resolving, p);
  }

  lemma LongerDeadEnd(t: Tree, root: Tree, resolving: set<string>, p: string, rest: seq<string>)
    requires p in RefPaths(t) && Target(root, p).Some?
    requires Chain(Target(root, p).value, root, rest) && DeadEnd(root, resolving + {p}, rest)
    ensures Chain(t, root, [p] + rest) && DeadEnd(root, resolving, [p] + rest)
  {
    var path := [p] + rest;
    assert path[1..] == rest;
    assert path[|path| - 1] == rest[|rest| - 1];
    assert path[..|path| - 1] == [p] + rest[..|rest| - 1];
  }

  lemma {:induction false} FailureHasDeadEnd(t: Tree, root: Tree, resolving: set<string>) returns (path: seq<string>)
    requires RefPaths(t) <= RefPaths(root)
    requires Resolve(t, root, resolving).None?
    ensures Chain(t, root, path) && DeadEnd(root, resolving, path)
    decreases |RefPaths(root) - resolving|, t
  {
    ChildRefs(t, RefPaths(root));
    match t {
      case List(items) =>
        var i :| 0 <= i < |items| && Resolve(items[i], root, resolving).None?;
        path := FailureHasDeadEnd(items[i], root, resolving);
      case Dict(entries) =>
        var k :| k in entries && Resolve(entries[k], root, resolving).None?;
        path := FailureHasDeadEnd(entries[k], root, resolving);
      case Str(s) =>
        var p := RefPath(s);
        if p in resolving || Target(root, p).None? {
          path := [p];
        } else {
          RefStep(s, root, resolving);
          var rest := FailureHasDeadEnd(Target(root, p).value, root, resolving + {p});
          LongerDeadEnd(t, root, resolving, p, rest);
          path := [p] + rest;
        }
    }
  }

  /** ConfigRefError is raised exactly when some chain of refs, starting in the configuration,
      runs into a missing path or into itself. Two refs to one target are no cycle. */
  lemma FailsExactlyAtDeadEnds(config: Tree)
    ensures ResolveRefs(config).None? <==>
              exists path: seq<string> :: Chain(config, config, path) && DeadEnd(config, {}, path)
  {
    if ResolveRefs(config).None? {
      var path := FailureHasDeadEnd(config, config, {});
    }
    forall path: seq<string> | Chain(config, config, path) && DeadEnd(config, {}, path)
      ensures ResolveRefs(config).None?
    {
      DeadEndFails(config, config, {}, path);
    }
  }

  // --- The result ---

  lemma {:induction false} ResultHasNoRefs(t: Tree, root: Tree, resolving: set<string>)
    requires RefPaths(t) <= RefPaths(root)
    requires Resolve(t, root, resolving).Some?
    ensures RefPaths(Resolve(t, root, resolving).value) == {}
    decreases |RefPaths(root) - resolving|, t
  {
    ChildRefs(t, RefPaths(root));
    match t {
      case List(items) =>
        forall i | 0 <= i < |items| ensures RefPaths(Resolve(items[i], root, resolving).value) == {} {
          ResultHasNoRefs(items[i], root, resolving);
        }
      case Dict(entries) =>
        forall k | k in entries ensures RefPaths(Resolve(entries[k], root, resolving).value) == {} {
          ResultHasNoRefs(entries[k], root, resolving);
        }
      case Str(s) =>
        if IsRef(s) {
          RefStep(s, root, resolving);
          ResultHasNoRefs(Target(root, RefPath(s)).value, root, resolving + {RefPath(s)});
        }
      case _ =>
    }
  }

  lemma {:induction false} NoRefsIsFixed(t: Tree, root: Tree, resolving: set<string>)
    requires RefPaths(t) == {}
    ensures Resolve(t, root, resolving) == Some(t)
    decreases t
  {
    match t {
      case List(items) =>
        forall i | 0 <= i < |items|
          ensures RefPaths(items[i]) == {} && Resolve(items[i], root, resolving) == Some(items[i])
        {
          assert RefPaths(items[i]) <= RefPaths(t);
          NoRefsIsFixed(items[i], root, resolving);
        }
        assert Resolve(t, root, resolving).value.items == items;
      case Dict(entries) =>
        forall k | k in entries
          ensures RefPaths(entries[k]) == {} && Resolve(entries[k], root, resolving) == Some(entries[k])
        {
          assert RefPaths(entries[k]) <= RefPaths(t);
          NoRefsIsFixed(entries[k], root, resolving);
        }
        assert Resolve(t, root, resolving).value.entries == entries;
      case Str(s) =>
        assert RefPaths(t) == {};
      case _ =>
    }
  }

  /** A resolved configuration holds no ref at any depth, and resolving it again, even
      against another root, changes nothing. */
  lemma ResolvedIsFixed(config: Tree)
    requires ResolveRefs(config).Some?
    ensures RefPaths(ResolveRefs(config).value) == {}
    ensures ResolveRefs(ResolveRefs(config).value) == ResolveRefs(config)
  {
    ResultHasNoRefs(config, config, {});
    var result := ResolveRefs(config).value;
    NoRefsIsFixed(result, result, {});
  }
}
