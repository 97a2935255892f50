/** What a ref path means: `ref:a.b.c` in src/ttllm/config.py is the entry c of the entry b of the
    entry a of the configuration. */
module ConfigPaths {
  import opened Model
  import opened ConfigTree
  import opened ConfigRefs

  // --- Dotted paths ---

  predicate HasDot(s: string) {
    exists i :: 0 <= i < |s| && s[i] == '.'
  }

  /** Keys that a path can name one by one. */
  predicate AreKeys(keys: seq<string>) {
    keys != [] && forall i :: 0 <= i < |keys| ==> !HasDot(keys[i])
  }

  function Dotted(keys: seq<string>): string
    requires keys != []
  {
    if |keys| == 1 then keys[0] else keys[0] + "." + Dotted(keys[1..])
  }

  /** A path is cut at its dots, all of them, and nowhere else. */
  lemma {:induction false} SplitCutsAtDots(path: string)
    ensures AreKeys(Split(path)) && Dotted(Split(path)) == path
  {
    if path != "" {
      var rest := Split(path[1..]);
      SplitCutsAtDots(path[1..]);
      assert path == [path[0]] + path[1..];
      if path[0] == '.' {
        assert ([""] + rest)[1..] == rest;
        assert Dotted([""] + rest) == "." + path[1..];
      } else {
        var parts := [[path[0]] + rest[0]] + rest[1..];
        assert parts[1..] == rest[1..];
        assert Dotted(parts) == [path[0]] + Dotted(rest);
        forall i | 0 <= i < |parts| ensures !HasDot(parts[i]) {
          assert !HasDot(rest[i]);
          assert i == 0 ==> forall j :: 0 < j < |parts[0]| ==> parts[0][j] == rest[0][j - 1];
        }
      }
    }
  }

  lemma SplitOfKey(key: string)
    requires !HasDot(key)
    ensures Split(key) == [key]
    decreases |key|
  {
    if key != "" {
      var rest := key[1..];
      assert forall j :: 0 <= j < |rest| ==> rest[j] == key[j + 1];
      assert key[0] != '.';
      SplitOfKey(rest);
      assert key == [key[0]] + rest;
    }
  }

  lemma {:induction false} SplitAtFirstDot(key: string, rest: string)
    requires !HasDot(key)
    ensures Split(key + "." + rest) == [key] + Split(rest)
    decreases |key|
  {
    var path := key + "." + rest;
    if key == "" {
      assert path[1..] == rest;
    } else {
      assert forall j :: 0 <= j < |key[1..]| ==> key[1..][j] == key[j + 1];
      assert path[1..] == key[1..] + "." + rest && path[0] == key[0] != '.';
      SplitAtFirstDot(key[1..], rest);
      assert key == [key[0]] + key[1..];
    }
  }

  /** And there is only one way to do so. */
  lemma {:induction false} DottedIsSplit(keys: seq<string>)
    requires AreKeys(keys)
    ensures Split(Dotted(keys)) == keys
    decreases |keys|
  {
    if |keys| == 1 {
      SplitOfKey(keys[0]);
    } else {
      assert AreKeys(keys[1..]);
      DottedIsSplit(keys[1..]);
      SplitAtFirstDot(keys[0], Dotted(keys[1..]));
    }
  }

  // --- What a path points at ---

  /** The trees on the way, each the entry of the one before under the next key. */
  ghost predicate IsWay(trees: seq<Tree>, keys: seq<string>) {
    && |trees| == |keys| + 1
    && forall i :: 0 <= i < |keys| ==>
         trees[i].Dict? && keys[i] in trees[i].entries && trees[i + 1] == trees[i].entries[keys[i]]
  }

  lemma {:induction false} WalkFindsTheWay(from: Tree, keys: seq<string>) returns (trees: seq<Tree>)
    requires Walk(from, keys).Some?
    ensures IsWay(trees, keys) && trees[0] == from && trees[|keys|] == Walk(from, keys).value
    decreases |keys|
  {
    if keys == [] {
      trees := [from];
    } else {
      var later := WalkFindsTheWay(from.entries[keys[0]], keys[1..]);
      trees := [from] + later;
      forall i | 0 < i < |keys|
        ensures trees[i].Dict? && keys[i] in trees[i].entries && trees[i + 1] == trees[i].entries[keys[i]]
      {
        assert keys[1..][i - 1] == keys[i];
      }
    }
  }

  lemma {:induction false} WayIsWalked(trees: seq<Tree>, keys: seq<string>)
    requires IsWay(trees, keys)
    ensures Walk(trees[0], keys) == Some(trees[|keys|])
    decreases |keys|
  {
    if keys != [] {
      forall i | 0 <= i < |keys[1..]|
        ensures trees[1..][i].Dict? && keys[1..][i] in trees[1..][i].entries
             && trees[1..][i + 1] == trees[1..][i].entries[keys[1..][i]]
      {
        assert keys[1..][i] == keys[i + 1];
      }
      WayIsWalked(trees[1..], keys[1..]);
    }
  }

  /** The path of some keys, joined with dots, points at the value that they lead to, one nested
      entry after another, and at nothing if they lead nowhere. */
  lemma PathLeadsToTarget(root: Tree, keys: seq<string>, value: Tree)
    requires AreKeys(keys)
    ensures Target(root, Dotted(keys)) == Some(value)
            <==> exists trees :: IsWay(trees, keys) && trees[0] == root && trees[|keys|] == value
  {
    DottedIsSplit(keys);
    if Target(root, Dotted(keys)) == Some(value) {
      var trees := WalkFindsTheWay(root, keys);
    }
    forall trees | IsWay(trees, keys) && trees[0] == root && trees[|keys|] == value
      ensures Target(root, Dotted(keys)) == Some(value)
    {
      WayIsWalked(trees, keys);
    }
  }

  // --- A configuration with one ref ---

  /** Every string of the tree that begins as a ref does is this one. */
  predicate OnlyRef(t: Tree, ref: string) {
    match t
    case Str(s) => |s| >= 4 && s[..4] == "ref:" ==> s == ref
    case List(items) => forall i :: 0 <= i < |items| ==> OnlyRef(items[i], ref)
    case Dict(entries) => forall k :: k in entries ==> OnlyRef(entries[k], ref)
    case _ => true
  }

  predicate NoRef(t: Tree) {
    match t
    case Str(s) => |s| < 4 || s[..4] != "ref:"
    case List(items) => forall i :: 0 <= i < |items| ==> NoRef(items[i])
    case Dict(entries) => forall k :: k in entries ==> NoRef(entries[k])
    case _ => true
  }

  /** The tree with a value in place of a string, wherever it stands. */
  function InPlaceOf(t: Tree, s: string, value: Tree): Tree {
    match t
    case Str(other) => if other == s then value else t
    case List(items) => List(seq(|items|, i requires 0 <= i < |items| => InPlaceOf(items[i], s, value)))
    case Dict(entries) => Dict(map k | k in entries :: InPlaceOf(entries[k], s, value))
    case _ => t
  }

  lemma {:induction false} NoRefHasNoPaths(t: Tree)
    requires NoRef(t)
    ensures RefPaths(t) == {}
  {
    match t {
      case List(items) =>
        forall i | 0 <= i < |items| ensures RefPaths(items[i]) == {} {
          NoRefHasNoPaths(items[i]);
        }
      case Dict(entries) =>
        forall k | k in entries ensures RefPaths(entries[k]) == {} {
          NoRefHasNoPaths(entries[k]);
        }
      case _ =>
    }
  }

  /** Without refs a configuration stays as it is. */
  lemma NoRefStays(config: Tree)
    requires NoRef(config)
    ensures ResolveRefs(config) == Some(config)
  {
    NoRefHasNoPaths(config);
    NoRefsIsFixed(config, config, {});
  }

  lemma {:induction false} OnlyRefHasOnePath(t: Tree, path: string)
    requires OnlyRef(t, "ref:" + path)
    ensures RefPaths(t) <= {path}
  {
    match t {
      case Str(s) =>
        assert s == "ref:" + path ==> s[4..] == path;
      case List(items) =>
        forall i | 0 <= i < |items| ensures RefPaths(items[i]) <= {path} {
          OnlyRefHasOnePath(items[i], path);
        }
      case Dict(entries) =>
        forall k | k in entries ensures RefPaths(entries[k]) <= {path} {
          OnlyRefHasOnePath(entries[k], path);
        }
      case _ =>
    }
  }

  lemma {:induction false} OnlyRefResolves(t: Tree, root: Tree, path: string, value: Tree)
    requires OnlyRef(t, "ref:" + path) && RefPaths(t) <= RefPaths(root)
    requires Target(root, path) == Some(value) && NoRef(value)
    ensures Resolve(t, root, {}) == Some(InPlaceOf(t, "ref:" + path, value))
  {
    var ref := "ref:" + path;
    ChildRefs(t, RefPaths(root));
    match t {
      case Str(s) =>
        if s == ref {
          RefForms(path);
          NoRefHasNoPaths(value);
          ResolveOfRef(path, root, {});
          NoRefsIsFixed(value, root, {} + {path});
        }
      case List(items) =>
        forall i | 0 <= i < |items| ensures Resolve(items[i], root, {}) == Some(InPlaceOf(items[i], ref, value)) {
          OnlyRefResolves(items[i], root, path, value);
        }
        assert Resolve(t, root, {}).value.items == InPlaceOf(t, ref, value).items;
      case Dict(entries) =>
        forall k | k in entries ensures Resolve(entries[k], root, {}) == Some(InPlaceOf(entries[k], ref, value)) {
          OnlyRefResolves(entries[k], root, path, value);
        }
        assert Resolve(t, root, {}).value.entries == InPlaceOf(t, ref, value).entries;
      case _ =>
    }
  }

  /** A configuration whose only ref is the path of some keys resolves to itself with the value
      that they lead to in place of the ref, wherever it stands. */
  lemma OneRefIsReplaced(config: Tree, keys: seq<string>, trees: seq<Tree>)
    requires AreKeys(keys) && OnlyRef(config, "ref:" + Dotted(keys))
    requires IsWay(trees, keys) && trees[0] == config && NoRef(trees[|keys|])
    ensures ResolveRefs(config) == Some(InPlaceOf(config, "ref:" + Dotted(keys), trees[|keys|]))
  {
    PathLeadsToTarget(config, keys, trees[|keys|]);
    OnlyRefResolves(config, config, Dotted(keys), trees[|keys|]);
  }
}
