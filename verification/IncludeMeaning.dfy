/** What the include key of src/ttllm/config.py means, read off the entries of a dict. */
module IncludeMeaning {
  import opened Model
  import opened ConfigTree
  import opened ConfigIncludes
  import M = ConfigMerge

  /** No dict of the tree has an include key. */
  predicate NamesNoFile(t: Tree) {
    match t
    case List(items) => forall i :: 0 <= i < |items| ==> NamesNoFile(items[i])
    case Dict(entries) => "include" !in entries && forall k :: k in entries ==> NamesNoFile(entries[k])
    case _ => true
  }

  /** Such a tree stays as it is. */
  lemma {:induction false} NamingNoFileStays(t: Tree, base: string, stack: set<string>, fs: Files)
    requires NamesNoFile(t)
    ensures Process(t, base, stack, fs) == Some(t)
    decreases t
  {
    match t {
      case List(items) =>
        forall i | 0 <= i < |items| ensures Process(items[i], base, stack, fs) == Some(items[i]) {
          NamingNoFileStays(items[i], base, stack, fs);
        }
        assert Process(t, base, stack, fs).value.items == items;
      case Dict(entries) =>
        forall k | k in entries ensures Process(entries[k], base, stack, fs) == Some(entries[k]) {
          NamingNoFileStays(entries[k], base, stack, fs);
        }
        assert Process(t, base, stack, fs).value.entries == entries;
      case _ =>
    }
  }

  lemma ListOfItems(items: seq<Option<Tree>>)
    ensures ListOf(items).Some? <==> forall i :: 0 <= i < |items| ==> items[i].Some?
    ensures ListOf(items).Some? ==>
              && ListOf(items).value.List? && |ListOf(items).value.items| == |items|
              && forall i :: 0 <= i < |items| ==> items[i] == Some(ListOf(items).value.items[i])
  {
  }

  /** A list is processed item by item. */
  lemma ItemByItem(items: seq<Tree>, base: string, stack: set<string>, fs: Files)
    ensures var result := Process(List(items), base, stack, fs);
            && (result.Some? <==> forall i :: 0 <= i < |items| ==> Process(items[i], base, stack, fs).Some?)
            && (result.Some? ==>
                  && result.value.List? && |result.value.items| == |items|
                  && forall i :: 0 <= i < |items| ==>
                       Process(items[i], base, stack, fs) == Some(result.value.items[i]))
  {
    var results := seq(|items|, i requires 0 <= i < |items| => Process(items[i], base, stack, fs));
    ListOfItems(results);
    assert Process(List(items), base, stack, fs) == ListOf(results);
    assert forall i :: 0 <= i < |items| ==> results[i] == Process(items[i], base, stack, fs);
  }

  /** A dict without an include key is processed key by key. */
  lemma KeyByKey(entries: map<string, Tree>, base: string, stack: set<string>, fs: Files)
    requires "include" !in entries
    ensures var result := Process(Dict(entries), base, stack, fs);
            && (result.Some? <==> forall k :: k in entries ==> Process(entries[k], base, stack, fs).Some?)
            && (result.Some? ==>
                  && result.value.Dict? && result.value.entries.Keys == entries.Keys
                  && forall k :: k in entries ==>
                       Process(entries[k], base, stack, fs) == Some(result.value.entries[k]))
  {
    var own := map k | k in entries && k != INCLUDE :: Process(entries[k], base, stack, fs);
    assert own.Keys == entries.Keys;
  }

  /** The files that an include key names: one, or several in order. */
  predicate Names(value: Tree, files: seq<Tree>) {
    value == List(files) || (value.Str? && files == [value])
  }

  /** A dict with an include key is the files it names, the first at the bottom and each one over
      those before it, and its other keys on top. */
  lemma IncludedFilesAreLayers(entries: map<string, Tree>, files: seq<Tree>, base: string, stack: set<string>,
                               fs: Files)
    requires "include" in entries && Names(entries["include"], files)
    ensures var own := Process(Dict(entries - {"include"}), base, stack, fs);
            var loads := seq(|files|, i requires 0 <= i < |files| => Load(files[i], base, stack, fs));
            Process(Dict(entries), base, stack, fs) == Pile(loads + [own])
  {
    var rest := entries - {"include"};
    var own := map k | k in entries && k != INCLUDE :: Process(entries[k], base, stack, fs);
    assert own == map k | k in rest && k != INCLUDE :: Process(rest[k], base, stack, fs);
    assert Loads(files, base, stack, fs)
        == seq(|files|, i requires 0 <= i < |files| => Load(files[i], base, stack, fs));
  }

  /** Any other value of the key is an error. */
  lemma OtherValuesAreRejected(entries: map<string, Tree>, base: string, stack: set<string>, fs: Files)
    requires "include" in entries && !entries["include"].Str? && !entries["include"].List?
    ensures Process(Dict(entries), base, stack, fs).None?
  {
  }

  lemma PileOfTwo(file: Option<Tree>, own: Option<Tree>)
    requires Pile([file] + [own]).Some?
    ensures own.Some? && file.Some? && M.CanMerge(own.value, file.value)
    ensures Pile([file] + [own]).value == M.Merged(own.value, file.value)
  {
    assert ([file] + [own])[..1] == [file] && [file][..0] == [];
    var none: seq<Option<Tree>> := [];
    assert Pile(none) == Some(M.EMPTY);
    assert Pile([file]) == M.Merge(file.value, M.EMPTY);
    M.IntoEmpty(file.value);
    assert Pile([file] + [own]) == M.Merge(own.value, file.value);
  }

  /** One file included: every path reads as the dict's own value, else as the file's. */
  lemma IncludingOneFile(entries: map<string, Tree>, name: string, base: string, stack: set<string>, fs: Files,
                         path: seq<string>)
    requires "include" in entries && entries["include"] == Str(name)
    requires Process(Dict(entries), base, stack, fs).Some?
    ensures var own := Process(Dict(entries - {"include"}), base, stack, fs);
            var file := Load(Str(name), base, stack, fs);
            && own.Some? && file.Some?
            && M.Read(Process(Dict(entries), base, stack, fs).value, path)
               == if M.Read(own.value, path).Some? then M.Read(own.value, path)
                  else if M.Blocked(own.value, path) then None
                  else M.Read(file.value, path)
  {
    var files := [Str(name)];
    var own := Process(Dict(entries - {"include"}), base, stack, fs);
    var file := Load(Str(name), base, stack, fs);
    IncludedFilesAreLayers(entries, files, base, stack, fs);
    assert seq(|files|, i requires 0 <= i < |files| => Load(files[i], base, stack, fs)) == [file];
    PileOfTwo(file, own);
    M.MergedReads(own.value, file.value, path);
  }

  /** A file is found from the directory of the one that names it; it must exist and not be open
      already, and its own includes are processed from its own directory. */
  lemma FileIsLoaded(name: string, base: string, stack: set<string>, fs: Files)
    ensures var file := fs.locate(base, name);
            var load := Load(Str(name), base, stack, fs);
            if file !in fs.contents || file in stack then load.None?
            else match fs.contents[file]
                 case None => load.None?
                 case Some(Null) => load == Some(Dict(map[]))
                 case Some(tree) =>
                   load == if tree.Dict? then Process(tree, fs.parent(file), stack + {file}, fs) else Some(tree)
  {
  }
}
