/** Python dicts as mutable objects, and `merge_dicts` of src/ttllm/config.py on them. */
module ConfigDicts {
  import opened ConfigTree
  import M = ConfigMerge

  /** What a dict object holds under a key: another dict object, or any other value. */
  datatype Value = Leaf(t: Tree) | Node(n: DictNode)

  lemma HasKey(s: set<string>)
    requires s != {}
    ensures exists k :: k in s
  {
    assert (forall k :: k !in s) ==> s == {};
  }

  class DictNode {
    var entries: map<string, Value>
    ghost var repr: set<DictNode>

    /** The dict objects below this one form a tree: none is reached twice. */
    ghost predicate Valid()
      reads this, repr
      decreases repr
    {
      && this in repr
      && (forall k :: k in entries ==>
            match entries[k]
            case Leaf(t) => !t.Dict?
            case Node(n) => n in repr && n.repr <= repr - {this} && n.Valid())
      && (forall j, k :: j in entries && k in entries && j != k && entries[j].Node? && entries[k].Node? ==>
            entries[j].n.repr !! entries[k].n.repr)
    }

    ghost function ValueAt(k: string): Tree
      requires Valid() && k in entries
      reads this, repr
      decreases repr, 0
    {
      match entries[k]
      case Leaf(t) => t
      case Node(n) => n.Contents()
    }

    ghost function Contents(): Tree
      requires Valid()
      reads this, repr
      decreases repr, 1
    {
      Dict(map k | k in entries :: ValueAt(k))
    }

    constructor ()
      ensures Valid() && fresh(repr) && repr == {this} && Contents() == M.EMPTY
    {
      entries := map[];
      repr := {this};
    }

    /** `destination[key] = value` for a value that is not a dict. */
    method Set(key: string, t: Tree)
      requires Valid() && !t.Dict?
      modifies this
      ensures Valid() && repr == old(repr)
      ensures Contents() == Dict(old(Contents().entries)[key := t])
    {
      entries := entries[key := Leaf(t)];
      assert Contents().entries == old(Contents().entries)[key := t];
    }

    /** `destination.setdefault(key, {})` */
    method SetDefault(key: string) returns (v: Value)
      requires Valid()
      modifies this
      ensures Valid() && fresh(repr - old(repr)) && old(repr) <= repr
      ensures key in entries && entries[key] == v
      ensures Contents() == Dict(old(Contents().entries)[key := M.DefaultAt(old(Contents()), key)])
    {
      if key !in entries {
        var n := new DictNode();
        entries := entries[key := Node(n)];
        repr := repr + n.repr;
      }
      v := entries[key];
      assert Contents().entries == old(Contents().entries)[key := M.DefaultAt(old(Contents()), key)];
    }
  }

  /** What the destination d holds under k once the source's value v has been merged there. */
  function MergedValue(v: Tree, d: Tree, k: string): Tree
    requires d.Dict? && (v.Dict? ==> M.CanMerge(v, M.DefaultAt(d, k)))
  {
    if v.Dict? then M.Merged(v, M.DefaultAt(d, k)) else v
  }

  /** The destination reads m once the keys in done have been merged from s into d. */
  ghost predicate PartlyMerged(s: Tree, d: Tree, m: Tree, done: set<string>)
    requires s.Dict? && d.Dict? && done <= s.entries.Keys
  {
    && m.Dict? && m.entries.Keys == d.entries.Keys + done
    && (forall k :: k in d.entries && k !in done ==> m.entries[k] == d.entries[k])
    && (forall k :: k in done ==>
          && (s.entries[k].Dict? ==> M.CanMerge(s.entries[k], M.DefaultAt(d, k)))
          && m.entries[k] == MergedValue(s.entries[k], d, k))
  }

  lemma OneMore(s: Tree, d: Tree, m: Tree, done: set<string>, k: string)
    requires s.Dict? && d.Dict? && done <= s.entries.Keys && PartlyMerged(s, d, m, done)
    requires k in s.entries && k !in done
    ensures M.DefaultAt(m, k) == M.DefaultAt(d, k)
    ensures (s.entries[k].Dict? ==> M.CanMerge(s.entries[k], M.DefaultAt(d, k))) ==>
              PartlyMerged(s, d, Dict(m.entries[k := MergedValue(s.entries[k], m, k)]), done + {k})
  {
  }

  lemma AllMerged(s: Tree, d: Tree, m: Tree)
    requires s.Dict? && d.Dict? && PartlyMerged(s, d, m, s.entries.Keys)
    ensures M.CanMerge(s, d) && m == M.Merged(s, d)
  {
    assert m.entries == M.Merged(s, d).entries;
  }

  /** `merge_dicts(source, destination)`, updating the destination and the dicts below it; ok
      is false when it raises. The source is outside the frame, and the dicts that the
      destination gains are new ones, so the two trees still share no dict. */
  method MergeDicts(source: DictNode, destination: DictNode) returns (ok: bool)
    requires source.Valid() && destination.Valid() && source.repr !! destination.repr
    modifies destination.repr
    ensures destination.Valid() && old(destination.repr) <= destination.repr
    ensures fresh(destination.repr - old(destination.repr))
    ensures source.Valid() && source.Contents() == old(source.Contents()) && source.repr !! destination.repr
    ensures ok <==> M.CanMerge(old(source.Contents()), old(destination.Contents()))
    ensures ok ==> destination.Contents() == M.Merged(old(source.Contents()), old(destination.Contents()))
    decreases source.repr, 1
  {
    ghost var s, d := source.Contents(), destination.Contents();
    var todo := source.entries.Keys;
    ghost var done: set<string> := {};
    while todo != {}
      invariant todo + done == s.entries.Keys && todo !! done
      invariant source.Valid() && source.Contents() == s
      invariant destination.Valid() && fresh(destination.repr - old(destination.repr))
      invariant old(destination.repr) <= destination.repr
      invariant PartlyMerged(s, d, destination.Contents(), done)
      decreases todo
    {
      HasKey(todo);
      var key :| key in todo;
      OneMore(s, d, destination.Contents(), done, key);
      ok := MergeKey(source, key, destination);
      if !ok {
        return;
      }
      todo, done := todo - {key}, done + {key};
    }
    assert done == s.entries.Keys;
    AllMerged(s, d, destination.Contents());
    ok := true;
  }

  /** One turn of the loop. */
  method MergeKey(source: DictNode, key: string, destination: DictNode) returns (ok: bool)
    requires source.Valid() && destination.Valid() && source.repr !! destination.repr && key in source.entries
    modifies destination.repr
    ensures destination.Valid() && old(destination.repr) <= destination.repr
    ensures fresh(destination.repr - old(destination.repr))
    ensures var v, d := old(source.ValueAt(key)), old(destination.Contents());
            && (ok <==> (v.Dict? ==> M.CanMerge(v, M.DefaultAt(d, key))))
            && (ok ==> destination.Contents() == Dict(d.entries[key := MergedValue(v, d, key)]))
    decreases source.repr, 0
  {
    match source.entries[key] {
      case Leaf(value) =>
        destination.Set(key, value);
        ok := true;
      case Node(value) =>
        ghost var d := destination.Contents();
        var v := destination.SetDefault(key);
        ok := MergeAt(value, destination, key);
        Overwrite(d.entries, key, M.DefaultAt(d, key), destination.Contents());
    }
  }

  lemma Overwrite(d: map<string, Tree>, k: string, v: Tree, m: Tree)
    ensures m.Dict? && k in m.entries && m == Dict(d[k := v][k := m.entries[k]]) ==> m == Dict(d[k := m.entries[k]])
  {
    if m.Dict? && k in m.entries {
      assert d[k := v][k := m.entries[k]] == d[k := m.entries[k]];
    }
  }

  /** The recursive call, on whatever the destination now holds under the key. */
  method MergeAt(value: DictNode, destination: DictNode, key: string) returns (ok: bool)
    requires value.Valid() && destination.Valid() && value.repr !! destination.repr && key in destination.entries
    modifies destination.repr
    ensures destination.Valid() && old(destination.repr) <= destination.repr
    ensures fresh(destination.repr - old(destination.repr))
    ensures var s, d := old(value.Contents()), old(destination.Contents());
            && (ok <==> M.CanMerge(s, d.entries[key]))
            && (ok ==> destination.Contents() == Dict(d.entries[key := M.Merged(s, d.entries[key])]))
    decreases value.repr, 2
  {
    ghost var s, d := value.Contents(), destination.Contents();
    assert d.entries[key] == destination.ValueAt(key);
    match destination.entries[key] {
      case Leaf(t) =>
        ok := value.entries == map[];
        assert s.entries.Keys == value.entries.Keys;
        assert d.entries[key := t] == d.entries;
      case Node(node) =>
        ok := MergeBelow(value, destination, key, node);
        assert destination.Contents().entries == d.entries[key := destination.ValueAt(key)];
    }
  }

  method MergeBelow(value: DictNode, destination: DictNode, key: string, node: DictNode) returns (ok: bool)
    requires value.Valid() && destination.Valid() && value.repr !! destination.repr
    requires key in destination.entries && destination.entries[key] == Node(node)
    requires node.Valid() && node.repr <= destination.repr - {destination}
    modifies destination.repr
    ensures destination.Valid() && old(destination.repr) <= destination.repr
    ensures fresh(destination.repr - old(destination.repr))
    ensures destination.entries == old(destination.entries)
    ensures forall k :: k in destination.entries && k != key ==> destination.ValueAt(k) == old(destination.ValueAt(k))
    ensures ok <==> M.CanMerge(old(value.Contents()), old(node.Contents()))
    ensures ok ==> destination.ValueAt(key) == M.Merged(old(value.Contents()), old(node.Contents()))
    decreases value.repr, 2, 0
  {
    ok := MergeDicts(value, node);
    destination.repr := destination.repr + node.repr;
  }
}
