/** Configuration files as src/ttllm/config.py holds them once YAML has been decoded. */
module ConfigTree {
  /** A decoded YAML value. Scalars other than strings are not told apart. */
  datatype Tree =
    | Null
    | Scalar(n: int)
    | Str(s: string)
    | List(items: seq<Tree>)
    | Dict(entries: map<string, Tree>)

  /** What a stack of paths leaves of all paths shrinks with each path pushed. */
  lemma OneFewer(all: set<string>, some: set<string>, p: string)
    requires p in all && p !in some
    ensures |all - (some + {p})| == |all - some| - 1
  {
    assert all - some == (all - (some + {p})) + {p};
  }
}
