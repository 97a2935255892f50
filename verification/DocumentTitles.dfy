/** What a document's name keeps of its title: `_DocumentNames.take` of
    src/ttllm/core/providers/bedrock/converse.py, up to the suffix. */
module DocumentTitles {
  import opened Model
  import opened DocumentNames

  /** Capital and small letters, digits, round and square brackets and the hyphen, by their codes. */
  lemma KeptCharacters(c: char)
    ensures IsKept(c) <==>
              || 65 <= c as int <= 90 || 97 <= c as int <= 122 || 48 <= c as int <= 57
              || c as int in {40, 41, 45, 91, 93}
  {
  }

  /** The kept characters of a title, in order, with one blank where something else stood between
      two of them. `any` says that one has been kept, `gap` that something else came after it. */
  function Spaced(title: string, any: bool, gap: bool): string {
    if title == "" then ""
    else if IsKept(title[0]) then (if any && gap then " " else "") + [title[0]] + Spaced(title[1..], true, false)
    else Spaced(title[1..], any, true)
  }

  lemma {:induction false} GapIsBlank(s: string)
    ensures Spaced(s, false, true) == Spaced(s, false, false)
    ensures Spaced(s, true, true)
         == if Spaced(s, false, false) == "" then "" else " " + Spaced(s, false, false)
  {
    if s != "" && !IsKept(s[0]) {
      GapIsBlank(s[1..]);
    }
  }

  lemma {:induction false} DroppedIsGap(s: string, any: bool, isSpace: char -> bool)
    ensures Spaced(DropInvalid(s, isSpace), any, true) == Spaced(s, any, true)
  {
    if s != "" && !IsKept(s[0]) && !isSpace(s[0]) {
      DroppedIsGap(s[1..], any, isSpace);
    }
  }

  /** Replacing runs of other characters by blanks leaves the kept ones as they stand. */
  lemma {:induction false} SubstitutedIsSpaced(s: string, any: bool, gap: bool, isSpace: char -> bool)
    requires IsWhiteSpace(isSpace)
    ensures Spaced(Substituted(s, isSpace), any, gap) == Spaced(s, any, gap)
    decreases |s|
  {
    if s != "" {
      if IsKept(s[0]) || isSpace(s[0]) {
        assert Substituted(s, isSpace)[1..] == Substituted(s[1..], isSpace);
        SubstitutedIsSpaced(s[1..], if IsKept(s[0]) then true else any, !IsKept(s[0]), isSpace);
      } else {
        var rest := DropInvalid(s[1..], isSpace);
        assert !IsKept(' ');
        assert Substituted(s, isSpace)[1..] == Substituted(rest, isSpace);
        SubstitutedIsSpaced(rest, any, true, isSpace);
        DroppedIsGap(s[1..], any, isSpace);
      }
    }
  }

  lemma {:induction false} WordsAreSpaced(s: string, isSpace: char -> bool)
    requires IsWhiteSpace(isSpace) && forall i :: 0 <= i < |s| ==> IsKept(s[i]) || isSpace(s[i])
    ensures Joined(Words(s, isSpace)) == Spaced(s, false, false)
    ensures Words(s, isSpace) == [] <==> Spaced(s, false, false) == ""
  {
    if s != "" {
      var rest := s[1..];
      WordsAreSpaced(rest, isSpace);
      WordsAreWords(rest, isSpace);
      GapIsBlank(rest);
      if !isSpace(s[0]) {
        assert IsKept(s[0]);
        KeptThenRest(s, isSpace);
      }
    }
  }

  lemma KeptThenSpace(c: char, rest: string, isSpace: char -> bool)
    requires IsWhiteSpace(isSpace) && IsKept(c) && rest != "" && isSpace(rest[0])
    requires Joined(Words(rest, isSpace)) == Spaced(rest, false, false)
    requires Words(rest, isSpace) == [] <==> Spaced(rest, false, false) == ""
    ensures Joined([[c]] + Words(rest, isSpace)) == [c] + Spaced(rest, true, false)
  {
    var words := Words(rest, isSpace);
    assert !IsKept(rest[0]);
    GapIsBlank(rest[1..]);
    assert ([[c]] + words)[1..] == words;
    assert Spaced(rest, true, false) == Spaced(rest[1..], true, true);
    assert Spaced(rest, false, false) == Spaced(rest[1..], false, true);
  }

  lemma InOneOrder(a: string, b: string, c: string)
    ensures (a + b) + c == a + (b + c)
  {
  }

  lemma LongerWord(c: char, words: seq<string>)
    requires words != []
    ensures Joined([[c] + words[0]] + words[1..]) == [c] + Joined(words)
  {
    var longer := [[c] + words[0]] + words[1..];
    assert longer[0] == [c] + words[0] && longer[1..] == words[1..];
    InOneOrder([c], words[0], " ");
    InOneOrder([c], words[0] + " ", Joined(words[1..]));
  }

  lemma KeptThenRest(s: string, isSpace: char -> bool)
    requires IsWhiteSpace(isSpace) && s != "" && IsKept(s[0])
    requires forall i :: 0 <= i < |s| ==> IsKept(s[i]) || isSpace(s[i])
    requires Joined(Words(s[1..], isSpace)) == Spaced(s[1..], false, false)
    requires Words(s[1..], isSpace) == [] <==> Spaced(s[1..], false, false) == ""
    ensures Joined(Words(s, isSpace)) == [s[0]] + Spaced(s[1..], true, false)
    ensures Words(s, isSpace) != []
  {
    var rest := s[1..];
    var words := Words(rest, isSpace);
    if rest == "" {
      assert words == [] && Words(s, isSpace) == [[s[0]]];
    } else if isSpace(rest[0]) {
      assert s[1] == rest[0];
      KeptThenSpace(s[0], rest, isSpace);
    } else {
      assert s[1] == rest[0] && IsKept(rest[0]);
      assert Spaced(rest, true, false) == Spaced(rest, false, false);
      LongerWord(s[0], words);
    }
  }

  /** For every title: the base is its kept characters, spaced in this way and cut off after 194,
      and "document" if there is none. */
  lemma BaseIsSpaced(title: Option<string>, isSpace: char -> bool)
    requires IsWhiteSpace(isSpace)
    ensures var spaced := Spaced(if title.Some? then title.value else "", false, false);
            Base(title, isSpace)
            == if spaced == "" then "document" else if |spaced| <= 194 then spaced else spaced[..194]
  {
    var text := title.GetOr("");
    SubstitutedKeeps(text, isSpace);
    WordsAreSpaced(Substituted(text, isSpace), isSpace);
    SubstitutedIsSpaced(text, false, false, isSpace);
  }

  // --- What spacing keeps ---

  function KeptOf(s: string): string {
    if s == "" then "" else (if IsKept(s[0]) then [s[0]] else "") + KeptOf(s[1..])
  }

  /** No kept character is lost, added or moved. */
  lemma {:induction false} SpacedKeeps(s: string, any: bool, gap: bool)
    ensures KeptOf(Spaced(s, any, gap)) == KeptOf(s)
  {
    if s != "" {
      if IsKept(s[0]) {
        SpacedKeeps(s[1..], true, false);
        var spaced := Spaced(s, any, gap);
        var rest := Spaced(s[1..], true, false);
        assert !IsKept(' ');
        if any && gap {
          assert spaced[0] == ' ' && spaced[1..][0] == s[0] && spaced[1..][1..] == rest;
        } else {
          assert spaced[0] == s[0] && spaced[1..] == rest;
        }
      } else {
        SpacedKeeps(s[1..], any, true);
      }
    }
  }

  predicate AllKept(s: string) {
    forall i :: 0 <= i < |s| ==> IsKept(s[i])
  }

  predicate NoneKept(s: string) {
    forall i :: 0 <= i < |s| ==> !IsKept(s[i])
  }

  lemma {:induction false} SpacedOfBoth(a: string, b: string, any: bool, gap: bool)
    requires a != "" && IsKept(a[|a| - 1])
    ensures Spaced(a + b, any, gap) == Spaced(a, any, gap) + Spaced(b, true, false)
  {
    assert (a + b)[1..] == a[1..] + b;
    if |a| == 1 {
      assert a[1..] + b == b;
    } else {
      SpacedOfBoth(a[1..], b, if IsKept(a[0]) then true else any, !IsKept(a[0]));
    }
  }

  lemma {:induction false} SpacedAfterGap(between: string, b: string, gap: bool)
    requires NoneKept(between) && b != "" && IsKept(b[0])
    ensures Spaced(between + b, true, gap)
         == (if between != "" || gap then " " else "") + Spaced(b, false, false)
  {
    if between == "" {
      assert between + b == b;
    } else {
      assert (between + b)[1..] == between[1..] + b;
      SpacedAfterGap(between[1..], b, true);
    }
  }

  /** Two neighbouring kept characters have a blank between them if and only if something else stood
      between them, whatever comes before and after. */
  lemma BlankWhereSomethingStood(a: string, between: string, b: string)
    requires a != "" && IsKept(a[|a| - 1]) && NoneKept(between) && b != "" && IsKept(b[0])
    ensures Spaced(a + between + b, false, false)
         == Spaced(a, false, false) + (if between != "" then " " else "") + Spaced(b, false, false)
  {
    assert a + between + b == a + (between + b);
    SpacedOfBoth(a, between + b, false, false);
    SpacedAfterGap(between, b, false);
  }

  lemma {:induction false} SpacedOfKept(s: string, any: bool)
    requires AllKept(s)
    ensures Spaced(s, any, false) == s
  {
    if s != "" {
      SpacedOfKept(s[1..], true);
    }
  }

  lemma {:induction false} SpacedOfOthers(s: string, any: bool, gap: bool)
    requires NoneKept(s)
    ensures Spaced(s, any, gap) == ""
  {
    if s != "" {
      SpacedOfOthers(s[1..], any, true);
    }
  }

  // --- The number in a suffix ---

  function ValueOf(digits: string): int {
    if digits == "" then 0
    else 10 * ValueOf(digits[..|digits| - 1]) + (digits[|digits| - 1] as int - '0' as int)
  }

  /** The suffix's number is written in decimal, without leading zeros. */
  lemma {:induction false} DecimalReadsBack(n: nat)
    ensures ValueOf(Decimal(n)) == n
    ensures n > 0 ==> Decimal(n)[0] != '0'
  {
    var digits := Decimal(n);
    if n >= 10 {
      DecimalReadsBack(n / 10);
      DecimalIsNotEmpty(n / 10);
      assert digits[..|digits| - 1] == Decimal(n / 10);
    } else {
      assert digits[..0] == "";
    }
  }

  lemma ThreeWords(a: string, x: string, b: string, y: string, c: string, z: string)
    requires a != "" && b != "" && c != "" && AllKept(a) && AllKept(b) && AllKept(c)
    requires x != "" && y != "" && NoneKept(x) && NoneKept(y) && NoneKept(z)
    ensures Spaced(a + x + (b + y + (c + z)), false, false) == a + " " + (b + " " + c)
  {
    SpacedOfOthers(z, true, false);
    SpacedOfBoth(c, z, false, false);
    SpacedOfKept(c, false);
    SpacedOfKept(b, false);
    SpacedOfKept(a, false);
    assert c + "" == c;
    BlankWhereSomethingStood(b, y, c + z);
    BlankWhereSomethingStood(a, x, b + y + (c + z));
  }

  lemma TitleInParts()
    ensures "q3_report.final!!" == "q3" + "_" + ("report" + "." + ("final" + "!!"))
  {
  }

  lemma NameInParts()
    ensures "q3 report final" == "q3" + " " + ("report" + " " + "final")
  {
  }

  lemma TitleIsSpaced()
    ensures Spaced("q3" + "_" + ("report" + "." + ("final" + "!!")), false, false)
         == "q3" + " " + ("report" + " " + "final")
  {
    ThreeWords("q3", "_", "report", ".", "final", "!!");
  }

  /** For example. */
  lemma ReportTitle(isSpace: char -> bool)
    requires IsWhiteSpace(isSpace)
    ensures Base(Some("q3_report.final!!"), isSpace) == "q3 report final"
  {
    TitleInParts();
    NameInParts();
    TitleIsSpaced();
    BaseIsSpaced(Some("q3_report.final!!"), isSpace);
  }

  /** And a title with nothing to keep, or none at all. */
  lemma Untitled(title: string, isSpace: char -> bool)
    requires IsWhiteSpace(isSpace) && NoneKept(title)
    ensures Base(None, isSpace) == Base(Some(title), isSpace) == "document"
  {
    BaseIsSpaced(None, isSpace);
    BaseIsSpaced(Some(title), isSpace);
    SpacedOfOthers(title, false, false);
  }

  /** Blank, and nothing else, for example. */
  lemma BlankIsWhiteSpace()
    ensures IsWhiteSpace(c => c == ' ')
  {
  }
}
