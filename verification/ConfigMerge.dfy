/** Deep merge of configuration dicts: `merge_dicts` of src/ttllm/config.py, on values and
    in place. */
module ConfigMerge {
  import opened Model
  import opened ConfigTree

  const EMPTY := Dict(map[])

  /** What a key of the destination holds once `setdefault(key, {})` has run. */
  function DefaultAt(d: Tree, k: string): Tree
    requires d.Dict?
  {
    if k in d.entries then d.entries[k] else EMPTY
  }

  /** Whether merging raises nothing: wherever the source has a dict with something in it,
      the destination has a dict or no value. An empty dict merges into anything. */
  predicate CanMerge(s: Tree, d: Tree) {
    && s.Dict?
    && (s.entries == map[] ||
        (&& d.Dict?
         && forall k :: k in s.entries && s.entries[k].Dict? ==> CanMerge(s.entries[k], DefaultAt(d, k))))
  }

  /** The destination after the merge. */
  function Merged(s: Tree, d: Tree): Tree
    requires CanMerge(s, d)
  {
    if s.entries == map[] then d
    else Dict(map k | k in s.entries.Keys + d.entries.Keys ::
                if k !in s.entries then d.entries[k]
                else if s.entries[k].Dict? then Merged(s.entries[k], DefaultAt(d, k))
                else s.entries[k])
  }

  /** `merge_dicts(source, destination)`; None when it raises. */
  function Merge(s: Tree, d: Tree): Option<Tree> {
    if CanMerge(s, d) then Some(Merged(s, d)) else None
  }

  lemma {:induction false} IntoEmpty(s: Tree)
    requires s.Dict?
    ensures CanMerge(s, EMPTY) && Merged(s, EMPTY) == s
  {
    forall k | k in s.entries && s.entries[k].Dict?
      ensures CanMerge(s.entries[k], EMPTY) && Merged(s.entries[k], EMPTY) == s.entries[k]
    {
      IntoEmpty(s.entries[k]);
    }
    assert Merged(s, EMPTY).Dict? && Merged(s, EMPTY).entries == s.entries;
  }

  // --- What the result reads as ---

  /** The value other than a dict found by following a path through dicts. */
  function Read(t: Tree, path: seq<string>): Option<Tree>
    decreases |path|
  {
    if path == [] then (if t.Dict? then None else Some(t))
    else if t.Dict? && path[0] in t.entries then Read(t.entries[path[0]], path[1..])
    else None
  }

  /** A path cut short by a value that is not a dict. */
  predicate Blocked(t: Tree, path: seq<string>)
    decreases |path|
  {
    path != [] && (!t.Dict? || (path[0] in t.entries && Blocked(t.entries[path[0]], path[1..])))
  }

  lemma {:induction false} ReadOfEmpty(path: seq<string>)
    ensures Read(EMPTY, path).None? && !Blocked(EMPTY, path)
  {
  }

  /** Every path of the merged dict reads as the source's value where the source has one,
      and as the destination's where the source leaves it open. */
  lemma {:induction false} MergedReads(s: Tree, d: Tree, path: seq<string>)
    requires CanMerge(s, d)
    ensures Read(Merged(s, d), path)
         == if Read(s, path).Some? then Read(s, path)
            else if Blocked(s, path) then None
            else Read(d, path)
    decreases |path|
  {
    if s.entries != map[] && path != [] {
      var k, rest := path[0], path[1..];
      if k in s.entries {
        if s.entries[k].Dict? {
          MergedReads(s.entries[k], DefaultAt(d, k), rest);
          if k !in d.entries {
            ReadOfEmpty(rest);
          }
        }
      }
    }
  }

  lemma {:induction false} MergeAgain(s: Tree, d: Tree)
    requires CanMerge(s, d)
    ensures CanMerge(s, Merged(s, d)) && Merged(s, Merged(s, d)) == Merged(s, d)
    decreases s
  {
    if s.entries != map[] {
      var m := Merged(s, d);
      forall k | k in s.entries && s.entries[k].Dict?
        ensures CanMerge(s.entries[k], DefaultAt(m, k))
        ensures Merged(s.entries[k], DefaultAt(m, k)) == m.entries[k]
      {
        MergeAgain(s.entries[k], DefaultAt(d, k));
      }
      assert Merged(s, m).entries == m.entries;
    }
  }

  /** Merging twice is merging once, for every source and destination. */
  lemma Idempotent(s: Tree, d: Tree)
    ensures Merge(s, d).Some? ==> Merge(s, Merge(s, d).value) == Merge(s, d)
  {
    if CanMerge(s, d) {
      MergeAgain(s, d);
    }
  }

  // --- Merging three layers ---

  function MergeInto(s: Tree, d: Option<Tree>): Option<Tree> {
    match d
    case None => None
    case Some(t) => Merge(s, t)
  }

  /** a over (b over c), and (a over b) over c. */
  function RightFirst(a: Tree, b: Tree, c: Tree): Option<Tree> {
    MergeInto(a, Merge(b, c))
  }

  function LeftFirst(a: Tree, b: Tree, c: Tree): Option<Tree> {
    match Merge(a, b)
    case None => None
    case Some(ab) => Merge(ab, c)
  }

  lemma {:induction false} LayersAgree(a: Tree, b: Tree, c: Tree)
    requires a.Dict? && CanMerge(b, c)
    ensures CanMerge(a, Merged(b, c)) <==> CanMerge(a, b) && CanMerge(Merged(a, b), c)
    ensures CanMerge(a, Merged(b, c)) ==> Merged(a, Merged(b, c)) == Merged(Merged(a, b), c)
    decreases a
  {
    if a.entries == map[] {
    } else if b.entries == map[] {
      IntoEmpty(a);
      assert b == EMPTY;
    } else {
      var bc := Merged(b, c);
      forall k | k in a.entries && a.entries[k].Dict?
        ensures CanMerge(a.entries[k], DefaultAt(bc, k))
            <==> CanMerge(a.entries[k], DefaultAt(b, k))
                 && (DefaultAt(b, k).Dict? ==> CanMerge(Merged(a.entries[k], DefaultAt(b, k)), DefaultAt(c, k)))
        ensures DefaultAt(b, k).Dict? && CanMerge(a.entries[k], DefaultAt(bc, k)) ==>
                  Merged(a.entries[k], DefaultAt(bc, k))
                  == Merged(Merged(a.entries[k], DefaultAt(b, k)), DefaultAt(c, k))
      {
        if DefaultAt(b, k).Dict? {
          LayersAgree(a.entries[k], DefaultAt(b, k), DefaultAt(c, k));
        }
      }
      LayersOfKeys(a, b, c);
    }
  }

  /** What a merges to under each key. */
  lemma LayersOfKeys(a: Tree, b: Tree, c: Tree)
    requires a.Dict? && a.entries != map[] && CanMerge(b, c) && b.entries != map[]
    requires forall k :: k in a.entries && a.entries[k].Dict? ==>
               (CanMerge(a.entries[k], DefaultAt(Merged(b, c), k))
                <==> CanMerge(a.entries[k], DefaultAt(b, k))
                     && (DefaultAt(b, k).Dict? ==> CanMerge(Merged(a.entries[k], DefaultAt(b, k)), DefaultAt(c, k))))
    requires forall k :: k in a.entries && a.entries[k].Dict?
                         && DefaultAt(b, k).Dict? && CanMerge(a.entries[k], DefaultAt(Merged(b, c), k)) ==>
               Merged(a.entries[k], DefaultAt(Merged(b, c), k))
               == Merged(Merged(a.entries[k], DefaultAt(b, k)), DefaultAt(c, k))
    ensures CanMerge(a, Merged(b, c)) <==> CanMerge(a, b) && CanMerge(Merged(a, b), c)
    ensures CanMerge(a, Merged(b, c)) ==> Merged(a, Merged(b, c)) == Merged(Merged(a, b), c)
  {
    var bc := Merged(b, c);
    if CanMerge(a, b) {
      var ab := Merged(a, b);
      assert ab.entries != map[] by {
        assert a.entries.Keys <= ab.entries.Keys;
      }
      if CanMerge(a, bc) && CanMerge(ab, c) {
        assert Merged(a, bc).entries == Merged(ab, c).entries;
      }
    }
  }

  lemma {:induction false} MergesPairwise(a: Tree, b: Tree, c: Tree)
    requires a.Dict? && CanMerge(b, c)
    ensures CanMerge(a, Merged(b, c)) <==> CanMerge(a, b) && CanMerge(a, c)
    decreases a
  {
    if a.entries != map[] && b.entries != map[] {
      var bc := Merged(b, c);
      forall k | k in a.entries && a.entries[k].Dict?
        ensures CanMerge(a.entries[k], DefaultAt(bc, k))
            <==> CanMerge(a.entries[k], DefaultAt(b, k)) && CanMerge(a.entries[k], DefaultAt(c, k))
      {
        if DefaultAt(b, k).Dict? {
          MergesPairwise(a.entries[k], DefaultAt(b, k), DefaultAt(c, k));
        }
      }
    } else if a.entries != map[] {
      IntoEmpty(a);
      assert b == EMPTY;
    }
  }

  /** Three layers merge to one and the same dict in both orders exactly when any two of them
      can be merged, the upper one into the lower. */
  lemma Associative(a: Tree, b: Tree, c: Tree)
    ensures RightFirst(a, b, c).Some? && RightFirst(a, b, c) == LeftFirst(a, b, c)
        <==> CanMerge(a, b) && CanMerge(a, c) && CanMerge(b, c)
  {
    if a.Dict? && CanMerge(b, c) {
      LayersAgree(a, b, c);
      MergesPairwise(a, b, c);
    }
  }

  // --- When the lower two cannot be merged ---

  /** a can be put over b, and every clash of the two with c lies under a plain value of a. */
  predicate Hides(a: Tree, b: Tree, c: Tree)
    decreases a
  {
    && a.Dict?
    && if a.entries == map[] then CanMerge(b, c)
       else if b.Dict? && b.entries == map[] then CanMerge(a, c)
       else
         && b.Dict? && c.Dict?
         && (forall k :: k in a.entries && a.entries[k].Dict? ==>
               if DefaultAt(b, k).Dict? then Hides(a.entries[k], DefaultAt(b, k), DefaultAt(c, k))
               else a.entries[k].entries == map[])
         && (forall k :: k in b.entries && k !in a.entries && b.entries[k].Dict? ==>
               CanMerge(b.entries[k], DefaultAt(c, k)))
  }

  lemma {:induction false} LeftFirstHides(a: Tree, b: Tree, c: Tree)
    ensures LeftFirst(a, b, c).Some? <==> Hides(a, b, c)
    decreases a
  {
    if a.Dict? && a.entries != map[] && b.Dict? && b.entries != map[] && c.Dict? {
      forall k | k in a.entries && a.entries[k].Dict? && DefaultAt(b, k).Dict?
        ensures Hides(a.entries[k], DefaultAt(b, k), DefaultAt(c, k))
            <==> CanMerge(a.entries[k], DefaultAt(b, k))
                 && CanMerge(Merged(a.entries[k], DefaultAt(b, k)), DefaultAt(c, k))
      {
        LeftFirstHides(a.entries[k], DefaultAt(b, k), DefaultAt(c, k));
      }
      if Hides(a, b, c) {
        HiddenMerges(a, b, c);
      } else if CanMerge(a, b) && CanMerge(Merged(a, b), c) {
        MergedHides(a, b, c);
      }
    } else if a.Dict? && a.entries != map[] && b.Dict? && b.entries != map[] {
      if CanMerge(a, b) {
        assert a.entries.Keys <= Merged(a, b).entries.Keys;
      }
    } else if a.Dict? && a.entries != map[] && b.Dict? {
      IntoEmpty(a);
      assert b == EMPTY;
    }
  }

  lemma HiddenMerges(a: Tree, b: Tree, c: Tree)
    requires a.Dict? && a.entries != map[] && b.Dict? && b.entries != map[] && c.Dict?
    requires forall k :: k in a.entries && a.entries[k].Dict? && DefaultAt(b, k).Dict? ==>
               (Hides(a.entries[k], DefaultAt(b, k), DefaultAt(c, k))
                <==> CanMerge(a.entries[k], DefaultAt(b, k))
                     && CanMerge(Merged(a.entries[k], DefaultAt(b, k)), DefaultAt(c, k)))
    requires Hides(a, b, c)
    ensures CanMerge(a, b) && CanMerge(Merged(a, b), c)
  {
    forall k | k in a.entries && a.entries[k].Dict? ensures CanMerge(a.entries[k], DefaultAt(b, k)) {
      if !DefaultAt(b, k).Dict? {
        assert a.entries[k].entries == map[];
      }
    }
    var ab := Merged(a, b);
    forall k | k in ab.entries && ab.entries[k].Dict? ensures CanMerge(ab.entries[k], DefaultAt(c, k)) {
      HiddenKey(a, b, c, k);
    }
  }

  lemma HiddenKey(a: Tree, b: Tree, c: Tree, k: string)
    requires a.Dict? && a.entries != map[] && b.Dict? && b.entries != map[] && c.Dict?
    requires Hides(a, b, c) && CanMerge(a, b) && k in Merged(a, b).entries && Merged(a, b).entries[k].Dict?
    requires k in a.entries && a.entries[k].Dict? && DefaultAt(b, k).Dict?
             && Hides(a.entries[k], DefaultAt(b, k), DefaultAt(c, k)) ==>
               && CanMerge(a.entries[k], DefaultAt(b, k))
               && CanMerge(Merged(a.entries[k], DefaultAt(b, k)), DefaultAt(c, k))
    ensures CanMerge(Merged(a, b).entries[k], DefaultAt(c, k))
  {
    if k in a.entries {
      assert a.entries[k].Dict? && DefaultAt(b, k).Dict?;
    }
  }

  lemma MergedHides(a: Tree, b: Tree, c: Tree)
    requires a.Dict? && a.entries != map[] && b.Dict? && b.entries != map[] && c.Dict?
    requires forall k :: k in a.entries && a.entries[k].Dict? && DefaultAt(b, k).Dict? ==>
               (Hides(a.entries[k], DefaultAt(b, k), DefaultAt(c, k))
                <==> CanMerge(a.entries[k], DefaultAt(b, k))
                     && CanMerge(Merged(a.entries[k], DefaultAt(b, k)), DefaultAt(c, k)))
    requires CanMerge(a, b) && CanMerge(Merged(a, b), c)
    ensures Hides(a, b, c)
  {
    var ab := Merged(a, b);
    assert a.entries.Keys <= ab.entries.Keys;
    forall k | k in a.entries && a.entries[k].Dict? && DefaultAt(b, k).Dict?
      ensures Hides(a.entries[k], DefaultAt(b, k), DefaultAt(c, k))
    {
      assert ab.entries[k] == Merged(a.entries[k], DefaultAt(b, k));
      MergedIsDict(a.entries[k], DefaultAt(b, k));
    }
    forall k | k in b.entries && k !in a.entries && b.entries[k].Dict?
      ensures CanMerge(b.entries[k], DefaultAt(c, k))
    {
      assert ab.entries[k] == b.entries[k];
    }
  }

  lemma MergedIsDict(s: Tree, d: Tree)
    requires CanMerge(s, d) && d.Dict?
    ensures Merged(s, d).Dict?
  {
  }

  /** The two orders come to the same, a dict or a failure, exactly when the lower two layers
      can be merged or the upper one does not hide all that clashes. */
  lemma OrdersAgree(a: Tree, b: Tree, c: Tree)
    ensures RightFirst(a, b, c) == LeftFirst(a, b, c) <==> CanMerge(b, c) || !Hides(a, b, c)
  {
    LeftFirstHides(a, b, c);
    if a.Dict? && CanMerge(b, c) {
      LayersAgree(a, b, c);
    }
  }

  /** The order does matter: a's plain value can hide a clash between b and c. */
  lemma OrderCanMatter(k: string, x: string)
    ensures var a, b, c := Dict(map[k := Null]), Dict(map[k := Dict(map[x := Null])]), Dict(map[k := Null]);
            RightFirst(a, b, c).None? && LeftFirst(a, b, c) == Some(Dict(map[k := Null]))
  {
    var a, b, c := Dict(map[k := Null]), Dict(map[k := Dict(map[x := Null])]), Dict(map[k := Null]);
    assert x in b.entries[k].entries && k in b.entries && k in a.entries;
    assert !CanMerge(b.entries[k], DefaultAt(c, k));
    assert Merged(a, b).entries == map[k := Null];
    assert Merged(Merged(a, b), c).entries == map[k := Null];
  }
}
