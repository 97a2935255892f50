/** Document names of one Converse request: `_DocumentNames` of
    src/ttllm/core/providers/bedrock/converse.py. */
module DocumentNames {
  import opened Model

  const NAME_MAX := 200
  const BASE_MAX := NAME_MAX - 6

  // --- Decimal numbers ---

  function Digit(d: nat): char
    requires d < 10
  {
    '0' + d as char
  }

  /** `str(n)` */
  function Decimal(n: nat): string {
    if n < 10 then [Digit(n)] else Decimal(n / 10) + [Digit(n % 10)]
  }

  lemma {:induction false} DecimalIsInjective(m: nat, n: nat)
    requires Decimal(m) == Decimal(n)
    ensures m == n
    decreases m
  {
    DecimalIsNotEmpty(m / 10);
    DecimalIsNotEmpty(n / 10);
    var last := |Decimal(m)| - 1;
    assert Decimal(m)[last] == Digit(m % 10) && Decimal(n)[last] == Digit(n % 10);
    if m >= 10 && n >= 10 {
      assert Decimal(m)[..last] == Decimal(m / 10) && Decimal(n)[..last] == Decimal(n / 10);
      DecimalIsInjective(m / 10, n / 10);
    }
  }

  lemma DecimalIsNotEmpty(n: nat)
    ensures |Decimal(n)| > 0
  {
  }

  lemma {:induction false} DecimalDigits(n: nat)
    ensures forall i :: 0 <= i < |Decimal(n)| ==> '0' <= Decimal(n)[i] <= '9'
    ensures n < 1000 ==> |Decimal(n)| <= 3
  {
    if n >= 10 {
      DecimalDigits(n / 10);
      if n < 1000 {
        assert n / 10 < 100;
        assert n / 10 >= 10 ==> n / 10 / 10 < 10;
      }
    }
  }

  // --- Titles ---

  /** What the pattern keeps, apart from white space. */
  predicate IsKept(c: char) {
    'A' <= c <= 'Z' || 'a' <= c <= 'z' || '0' <= c <= '9' || c in "-()[]"
  }

  /** Python's white space, for str.split and the pattern's \\s alike: it has the blank, and no
      character that the pattern keeps otherwise. */
  ghost predicate IsWhiteSpace(isSpace: char -> bool) {
    isSpace(' ') && forall c :: IsKept(c) ==> !isSpace(c)
  }

  function DropInvalid(s: string, isSpace: char -> bool): (rest: string)
    ensures |rest| <= |s|
  {
    if s == "" || IsKept(s[0]) || isSpace(s[0]) then s else DropInvalid(s[1..], isSpace)
  }

  /** `_DOC_NAME_INVALID.sub(" ", title)`: each run of other characters becomes a blank. */
  function Substituted(s: string, isSpace: char -> bool): string
    decreases |s|
  {
    if s == "" then ""
    else if IsKept(s[0]) || isSpace(s[0]) then [s[0]] + Substituted(s[1..], isSpace)
    else " " + Substituted(DropInvalid(s[1..], isSpace), isSpace)
  }

  /** `s.split()` */
  function Words(s: string, isSpace: char -> bool): seq<string> {
    if s == "" then []
    else if isSpace(s[0]) then Words(s[1..], isSpace)
    else
      var rest := Words(s[1..], isSpace);
      if |s| == 1 || isSpace(s[1]) || rest == [] then [[s[0]]] + rest
      else [[s[0]] + rest[0]] + rest[1..]
  }

  /** `" ".join(words)` */
  function Joined(words: seq<string>): string {
    if words == [] then ""
    else if |words| == 1 then words[0]
    else words[0] + " " + Joined(words[1..])
  }

  function Truncated(s: string): string {
    if |s| <= BASE_MAX then s else s[..BASE_MAX]
  }

  function Base(title: Option<string>, isSpace: char -> bool): string {
    var base := Truncated(Joined(Words(Substituted(title.GetOr(""), isSpace), isSpace)));
    if base == "" then "document" else base
  }

  /** Letters, digits, hyphens, brackets and single blanks. */
  predicate IsClean(s: string) {
    && (forall i :: 0 <= i < |s| ==> IsKept(s[i]) || s[i] == ' ')
    && (forall i :: 0 < i < |s| ==> !(s[i - 1] == ' ' && s[i] == ' '))
  }

  predicate IsWord(s: string) {
    s != "" && forall i :: 0 <= i < |s| ==> IsKept(s[i])
  }

  lemma {:induction false} SubstitutedKeeps(s: string, isSpace: char -> bool)
    requires IsWhiteSpace(isSpace)
    ensures forall i :: 0 <= i < |Substituted(s, isSpace)| ==>
              IsKept(Substituted(s, isSpace)[i]) || isSpace(Substituted(s, isSpace)[i])
    decreases |s|
  {
    if s != "" {
      if IsKept(s[0]) || isSpace(s[0]) {
        SubstitutedKeeps(s[1..], isSpace);
      } else {
        SubstitutedKeeps(DropInvalid(s[1..], isSpace), isSpace);
      }
    }
  }

  lemma {:induction false} WordsAreWords(s: string, isSpace: char -> bool)
    requires forall i :: 0 <= i < |s| ==> IsKept(s[i]) || isSpace(s[i])
    ensures forall i :: 0 <= i < |Words(s, isSpace)| ==> IsWord(Words(s, isSpace)[i])
  {
    if s != "" {
      WordsAreWords(s[1..], isSpace);
    }
  }

  lemma {:induction false} JoinedIsClean(words: seq<string>)
    requires forall i :: 0 <= i < |words| ==> IsWord(words[i])
    ensures IsClean(Joined(words)) && (words != [] ==> Joined(words) != "" && IsKept(Joined(words)[0]))
  {
    if |words| > 1 {
      JoinedIsClean(words[1..]);
    }
  }

  /** A base is short, not empty and clean, and does not begin with a blank. */
  lemma BaseIsClean(title: Option<string>, isSpace: char -> bool)
    requires IsWhiteSpace(isSpace)
    ensures var base := Base(title, isSpace);
            0 < |base| <= BASE_MAX && IsClean(base) && IsKept(base[0])
  {
    var substituted := Substituted(title.GetOr(""), isSpace);
    SubstitutedKeeps(title.GetOr(""), isSpace);
    WordsAreWords(substituted, isSpace);
    JoinedIsClean(Words(substituted, isSpace));
  }

  // --- The allocator ---

  function Name(base: string, n: nat): string {
    if n == 1 then base else base + " (" + Decimal(n) + ")"
  }

  lemma SuffixIsLonger(base: string, n: nat)
    ensures n != 1 <==> |Name(base, n)| > |base|
  {
  }

  lemma NameIsInjective(base: string, m: nat, n: nat)
    requires Name(base, m) == Name(base, n)
    ensures m == n
  {
    SuffixIsLonger(base, m);
    SuffixIsLonger(base, n);
    if m != 1 && n != 1 {
      var prefix := base + " (";
      assert Name(base, m) == prefix + Decimal(m) + ")" && Name(base, n) == prefix + Decimal(n) + ")";
      assert |Decimal(m)| == |Decimal(n)|;
      assert (prefix + Decimal(m) + ")")[|prefix|..|prefix| + |Decimal(m)|] == Decimal(m);
      assert (prefix + Decimal(n) + ")")[|prefix|..|prefix| + |Decimal(n)|] == Decimal(n);
      DecimalIsInjective(m, n);
    }
  }

  /** The names with suffixes up to k are k different names. */
  function NamesUpTo(base: string, k: nat): set<string> {
    if k == 0 then {} else NamesUpTo(base, k - 1) + {Name(base, k)}
  }

  lemma {:induction false} NamesUpToAreDistinct(base: string, k: nat, used: set<string>)
    requires forall n :: 1 <= n <= k ==> Name(base, n) in used
    ensures |NamesUpTo(base, k)| == k && NamesUpTo(base, k) <= used
    ensures forall name :: name in NamesUpTo(base, k) ==> exists n :: 1 <= n <= k && name == Name(base, n)
  {
    if k > 0 {
      NamesUpToAreDistinct(base, k - 1, used);
      assert Name(base, k) !in NamesUpTo(base, k - 1) by {
        if Name(base, k) in NamesUpTo(base, k - 1) {
          var n :| 1 <= n <= k - 1 && Name(base, k) == Name(base, n);
          NameIsInjective(base, k, n);
        }
      }
    }
  }

  lemma {:induction false} SubsetIsSmaller(a: set<string>, b: set<string>)
    requires a <= b
    ensures |a| <= |b|
    decreases |a|
  {
    assert b == a + (b - a);
  }

  /** With that many names in use, some suffix up to one more is free. */
  lemma NotAllTaken(base: string, k: nat, used: set<string>)
    requires forall n :: 1 <= n <= k ==> Name(base, n) in used
    ensures k <= |used|
  {
    NamesUpToAreDistinct(base, k, used);
    SubsetIsSmaller(NamesUpTo(base, k), used);
  }

  /** The least free suffix is n. */
  predicate IsLeastFree(base: string, used: set<string>, n: nat) {
    && 1 <= n <= |used| + 1 && Name(base, n) !in used
    && forall m :: 1 <= m < n ==> Name(base, m) in used
  }

  function LeastFree(base: string, used: set<string>, from: nat): (n: nat)
    requires 1 <= from <= |used| + 1 && forall m :: 1 <= m < from ==> Name(base, m) in used
    ensures IsLeastFree(base, used, n)
    decreases |used| + 1 - from
  {
    if Name(base, from) !in used then from
    else
      NotAllTaken(base, from, used);
      LeastFree(base, used, from + 1)
  }

  /** The name that a document gets when these are in use. */
  function Allocated(title: Option<string>, used: set<string>, isSpace: char -> bool): string {
    var base := Base(title, isSpace);
    Name(base, LeastFree(base, used, 1))
  }

  class Allocator {
    var used: set<string>
    const isSpace: char -> bool

    constructor (isSpace: char -> bool)
      ensures used == {} && this.isSpace == isSpace
    {
      used := {};
      this.isSpace := isSpace;
    }

    /** `take`: the base name, or the base with the least suffix that makes a new name. */
    method Take(title: Option<string>) returns (name: string)
      modifies this
      ensures name == Allocated(title, old(used), isSpace)
      ensures used == old(used) + {name} && name !in old(used)
    {
      var base := Base(title, isSpace);
      var n := 1;
      name := base;
      while name in used
        invariant used == old(used) && 1 <= n <= |used| + 1 && name == Name(base, n)
        invariant forall m :: 1 <= m < n ==> Name(base, m) in used
        decreases |used| + 1 - n
      {
        NotAllTaken(base, n, used);
        n := n + 1;
        name := base + " (" + Decimal(n) + ")";
      }
      LeastIsUnique(base, used, n, LeastFree(base, used, 1));
      used := used + {name};
    }
  }

  lemma LeastIsUnique(base: string, used: set<string>, m: nat, n: nat)
    requires IsLeastFree(base, used, m) && IsLeastFree(base, used, n)
    ensures m == n
  {
  }

  // --- What the names are like ---

  /** Characters, length and blanks of a name: it has two blanks in a row exactly when a
      suffix was put on a base that was cut off right after a blank. */
  lemma NameIsValid(title: Option<string>, used: set<string>, isSpace: char -> bool)
    requires IsWhiteSpace(isSpace)
    ensures var name, base := Allocated(title, used, isSpace), Base(title, isSpace);
            && name !in used && name != ""
            && (forall i :: 0 <= i < |name| ==> IsKept(name[i]) || name[i] == ' ')
            && (|used| < 999 ==> |name| <= NAME_MAX)
            && (IsClean(name) <==> name == base || base[|base| - 1] != ' ')
  {
    var base := Base(title, isSpace);
    var n := LeastFree(base, used, 1);
    BaseIsClean(title, isSpace);
    DecimalDigits(n);
    if n > 1 {
      SuffixedName(base, n);
    }
  }

  lemma SuffixedName(base: string, n: nat)
    requires n > 1 && base != "" && IsClean(base)
    ensures Name(base, n) != base
    ensures forall i :: 0 <= i < |Name(base, n)| ==> IsKept(Name(base, n)[i]) || Name(base, n)[i] == ' '
    ensures IsClean(Name(base, n)) <==> base[|base| - 1] != ' '
  {
    var name := Name(base, n);
    DecimalDigits(n);
    DecimalIsNotEmpty(n);
    var suffix := " (" + Decimal(n) + ")";
    assert name == base + suffix;
    assert suffix[0] == ' ' && suffix[1] == '(';
    forall i | 0 < i < |suffix| ensures IsKept(suffix[i]) {
      assert suffix[i] == '(' || suffix[i] == ')' || '0' <= suffix[i] <= '9';
    }
    assert name[|base|] == ' ' && name[|base| - 1] == base[|base| - 1];
  }

  lemma {:induction false} CleanWords(s: string, isSpace: char -> bool)
    requires IsWhiteSpace(isSpace) && IsClean(s) && (s != "" ==> s[|s| - 1] != ' ')
    ensures Substituted(s, isSpace) == s
    ensures Joined(Words(s, isSpace)) == if s != "" && s[0] == ' ' then s[1..] else s
    decreases |s|
  {
    if s != "" {
      var rest := s[1..];
      assert s == [s[0]] + rest;
      assert IsClean(rest);
      CleanWords(rest, isSpace);
      if |s| > 1 && s[0] != ' ' {
        var words := Words(rest, isSpace);
        assert words != [];
        assert s[0] != ' ' && s[1] == ' ' ==> ([[s[0]]] + words)[1..] == words;
        assert s[1] != ' ' ==> Words(s, isSpace)[1..] == words[1..];
      }
    }
  }

  /** A title that is already a valid name, up to 194 characters, is kept as it is. */
  lemma CleanTitleIsKept(title: string, isSpace: char -> bool)
    requires IsWhiteSpace(isSpace) && IsClean(title) && 0 < |title| <= BASE_MAX
    requires title[0] != ' ' && title[|title| - 1] != ' '
    ensures Base(Some(title), isSpace) == title
  {
    CleanWords(title, isSpace);
  }

  /** A title of 193 letters and one more word: its base ends in the blank between them. */
  function CutTitle(): string {
    seq(BASE_MAX - 1, _ => 'a') + " b"
  }

  lemma CutBase(isSpace: char -> bool)
    requires IsWhiteSpace(isSpace)
    ensures var base := Base(Some(CutTitle()), isSpace);
            base == seq(BASE_MAX - 1, _ => 'a') + " " && base[|base| - 1] == ' '
  {
    var title, letters := CutTitle(), seq(BASE_MAX - 1, _ => 'a');
    forall i | 0 <= i < |title| ensures IsKept(title[i]) || (i == BASE_MAX - 1 && title[i] == ' ') {
      assert i < BASE_MAX - 1 ==> title[i] == letters[i] == 'a';
    }
    CleanWords(title, isSpace);
    assert title[..BASE_MAX] == letters + " ";
  }

  /** For example: the second document of that title gets a name with two blanks in a row. */
  lemma TwoBlanksHappen(isSpace: char -> bool)
    requires IsWhiteSpace(isSpace)
    ensures var first := Allocated(Some(CutTitle()), {}, isSpace);
            var second := Allocated(Some(CutTitle()), {first}, isSpace);
            IsClean(first) && !IsClean(second)
  {
    var base := Base(Some(CutTitle()), isSpace);
    CutBase(isSpace);
    assert Name(base, 1) == base;
    NameIsValid(Some(CutTitle()), {}, isSpace);
    NameIsValid(Some(CutTitle()), {base}, isSpace);
  }
}
