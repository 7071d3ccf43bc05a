/** Keyword skill extraction from one requirement string
    (`extract_skills_from_text`, data_processor.py). Each keyword of a fixed,
    ordered list is searched for between `\b` word boundaries, ignoring
    case. Because `\b` needs a word character on one side, "C++" and "C#"
    are found only where a word character follows them; `Mentioned` is the
    whole-token reading that was evidently meant. */
module SkillExtractor {
  import opened Common

  /** The fixed keyword list, one constant per line of data_processor.py
      155-166, concatenated in order. */
  const SkillsLine1: seq<string> := ["Python", "Java", "JavaScript", "C++", "C#", "SQL", "React", "Angular"]
  const SkillsLine2: seq<string> := ["Vue", "Node.js", "AWS", "GCP", "Azure", "Docker", "Kubernetes"]
  const SkillsLine3: seq<string> := ["Machine Learning", "AI", "Data Science", "Cloud", "DevOps"]
  const SkillsLine4: seq<string> := ["CI/CD", "Agile", "Scrum", "Product Management", "UX", "UI"]
  const SkillsLine5: seq<string> := ["Design", "Marketing", "Sales", "Finance", "HR", "Operations"]
  const SkillsLine6: seq<string> := ["Communication", "Leadership", "Project Management", "Teamwork"]
  const SkillsLine7: seq<string> := ["Problem Solving", "Critical Thinking", "Analytics", "Statistics"]
  const SkillsLine8: seq<string> := ["Research", "Development", "Testing", "QA", "Security", "Networking"]
  const SkillsLine9: seq<string> := ["Database", "Frontend", "Backend", "Full Stack", "Mobile", "iOS"]
  const SkillsLine10: seq<string> := ["Android", "REST", "API", "Microservices", "Big Data", "Hadoop"]
  const SkillsLine11: seq<string> := ["Spark", "Tableau", "Power BI", "Excel", "Word", "PowerPoint"]
  const SkillsLine12: seq<string> := ["Office", "Git", "GitHub", "Jira", "Confluence", "Slack", "Teams"]

  const CommonSkills: seq<string> :=
    SkillsLine1 + SkillsLine2 + SkillsLine3 + SkillsLine4 + SkillsLine5 + SkillsLine6 + SkillsLine7 + SkillsLine8 + SkillsLine9 + SkillsLine10 + SkillsLine11 + SkillsLine12

  /** The position of a keyword of the list, told apart by its length and
      its first letters; it exists only to show the keywords are distinct. */
  function KeywordIndex(s: string): int
  {
    if |s| == 2 then (if s[0] == 'C' then 4 else if s[0] == 'A' then 16 else if s[0] == 'U' then (if s[1] == 'X' then 24 else 25) else if s[0] == 'H' then 30 else 43) else
    if |s| == 3 then (if s[0] == 'C' then 3 else if s[0] == 'S' then 5 else if s[0] == 'V' then 8 else if s[0] == 'A' then (if s[1] == 'W' then 10 else 54) else if s[0] == 'G' then (if s[1] == 'C' then 11 else 65) else 51) else
    if |s| == 4 then (if s[0] == 'J' then (if s[1] == 'a' then 1 else 67) else if s[0] == 'R' then 53 else 62) else
    if |s| == 5 then (if s[0] == 'R' then 6 else if s[0] == 'A' then (if s[1] == 'z' then 12 else 21) else if s[0] == 'C' then (if s[1] == 'l' then 18 else 20) else if s[0] == 'S' then (if s[1] == 'c' then 22 else if s[1] == 'a' then 28 else if s[1] == 'p' then 58 else 69) else if s[0] == 'E' then 61 else 70) else
    if |s| == 6 then (if s[0] == 'P' then 0 else if s[0] == 'D' then (if s[1] == 'o' then 13 else (if s[2] == 'v' then 19 else 26)) else if s[0] == 'M' then 50 else if s[0] == 'H' then 57 else if s[0] == 'O' then 64 else 66) else
    if |s| == 7 then (if s[0] == 'A' then (if s[2] == 'g' then 7 else 52) else if s[0] == 'N' then 9 else if s[0] == 'F' then 29 else if s[0] == 'T' then (if s[1] == 'e' then 42 else 59) else 48) else
    if |s| == 8 then (if s[0] == 'T' then 35 else if s[0] == 'R' then 40 else if s[0] == 'S' then 44 else if s[0] == 'D' then 46 else if s[0] == 'F' then 47 else if s[0] == 'B' then 56 else 60) else
    if |s| == 9 then (if s[0] == 'M' then 27 else 38) else
    if |s| == 10 then (if s[0] == 'J' then 2 else if s[0] == 'K' then 14 else if s[0] == 'O' then 31 else if s[0] == 'L' then 33 else if s[0] == 'S' then 39 else if s[0] == 'N' then 45 else if s[0] == 'F' then 49 else if s[0] == 'P' then 63 else 68) else
    if |s| == 11 then 41 else
    if |s| == 12 then 17 else
    if |s| == 13 then (if s[0] == 'C' then 32 else 55) else
    if |s| == 15 then 36 else
    if |s| == 16 then 15 else
    if |s| == 17 then 37 else
    if |s| == 18 then (if s[3] == 'd' then 23 else 34)
    else -1
  }

  lemma SkillsLine1Indexed()
    ensures forall i | 0 <= i < |SkillsLine1| :: KeywordIndex(SkillsLine1[i]) == 0 + i
  {
    assert KeywordIndex(SkillsLine1[0]) == 0;
    assert KeywordIndex(SkillsLine1[1]) == 1;
    assert KeywordIndex(SkillsLine1[2]) == 2;
    assert KeywordIndex(SkillsLine1[3]) == 3;
    assert KeywordIndex(SkillsLine1[4]) == 4;
    assert KeywordIndex(SkillsLine1[5]) == 5;
    assert KeywordIndex(SkillsLine1[6]) == 6;
    assert KeywordIndex(SkillsLine1[7]) == 7;
  }

  lemma SkillsLine2Indexed()
    ensures forall i | 0 <= i < |SkillsLine2| :: KeywordIndex(SkillsLine2[i]) == 8 + i
  {
    assert KeywordIndex(SkillsLine2[0]) == 8;
    assert KeywordIndex(SkillsLine2[1]) == 9;
    assert KeywordIndex(SkillsLine2[2]) == 10;
    assert KeywordIndex(SkillsLine2[3]) == 11;
    assert KeywordIndex(SkillsLine2[4]) == 12;
    assert KeywordIndex(SkillsLine2[5]) == 13;
    assert KeywordIndex(SkillsLine2[6]) == 14;
  }

  lemma SkillsLine3Indexed()
    ensures forall i | 0 <= i < |SkillsLine3| :: KeywordIndex(SkillsLine3[i]) == 15 + i
  {
    assert KeywordIndex(SkillsLine3[0]) == 15;
    assert KeywordIndex(SkillsLine3[1]) == 16;
    assert KeywordIndex(SkillsLine3[2]) == 17;
    assert KeywordIndex(SkillsLine3[3]) == 18;
    assert KeywordIndex(SkillsLine3[4]) == 19;
  }

  lemma SkillsLine4Indexed()
    ensures forall i | 0 <= i < |SkillsLine4| :: KeywordIndex(SkillsLine4[i]) == 20 + i
  {
    assert KeywordIndex(SkillsLine4[0]) == 20;
    assert KeywordIndex(SkillsLine4[1]) == 21;
    assert KeywordIndex(SkillsLine4[2]) == 22;
    assert KeywordIndex(SkillsLine4[3]) == 23;
    assert KeywordIndex(SkillsLine4[4]) == 24;
    assert KeywordIndex(SkillsLine4[5]) == 25;
  }

  lemma SkillsLine5Indexed()
    ensures forall i | 0 <= i < |SkillsLine5| :: KeywordIndex(SkillsLine5[i]) == 26 + i
  {
    assert KeywordIndex(SkillsLine5[0]) == 26;
    assert KeywordIndex(SkillsLine5[1]) == 27;
    assert KeywordIndex(SkillsLine5[2]) == 28;
    assert KeywordIndex(SkillsLine5[3]) == 29;
    assert KeywordIndex(SkillsLine5[4]) == 30;
    assert KeywordIndex(SkillsLine5[5]) == 31;
  }

  lemma SkillsLine6Indexed()
    ensures forall i | 0 <= i < |SkillsLine6| :: KeywordIndex(SkillsLine6[i]) == 32 + i
  {
    assert KeywordIndex(SkillsLine6[0]) == 32;
    assert KeywordIndex(SkillsLine6[1]) == 33;
    assert KeywordIndex(SkillsLine6[2]) == 34;
    assert KeywordIndex(SkillsLine6[3]) == 35;
  }

  lemma SkillsLine7Indexed()
    ensures forall i | 0 <= i < |SkillsLine7| :: KeywordIndex(SkillsLine7[i]) == 36 + i
  {
    assert KeywordIndex(SkillsLine7[0]) == 36;
    assert KeywordIndex(SkillsLine7[1]) == 37;
    assert KeywordIndex(SkillsLine7[2]) == 38;
    assert KeywordIndex(SkillsLine7[3]) == 39;
  }

  lemma SkillsLine8Indexed()
    ensures forall i | 0 <= i < |SkillsLine8| :: KeywordIndex(SkillsLine8[i]) == 40 + i
  {
    assert KeywordIndex(SkillsLine8[0]) == 40;
    assert KeywordIndex(SkillsLine8[1]) == 41;
    assert KeywordIndex(SkillsLine8[2]) == 42;
    assert KeywordIndex(SkillsLine8[3]) == 43;
    assert KeywordIndex(SkillsLine8[4]) == 44;
    assert KeywordIndex(SkillsLine8[5]) == 45;
  }

  lemma SkillsLine9Indexed()
    ensures forall i | 0 <= i < |SkillsLine9| :: KeywordIndex(SkillsLine9[i]) == 46 + i
  {
    assert KeywordIndex(SkillsLine9[0]) == 46;
    assert KeywordIndex(SkillsLine9[1]) == 47;
    assert KeywordIndex(SkillsLine9[2]) == 48;
    assert KeywordIndex(SkillsLine9[3]) == 49;
    assert KeywordIndex(SkillsLine9[4]) == 50;
    assert KeywordIndex(SkillsLine9[5]) == 51;
  }

  lemma SkillsLine10Indexed()
    ensures forall i | 0 <= i < |SkillsLine10| :: KeywordIndex(SkillsLine10[i]) == 52 + i
  {
    assert KeywordIndex(SkillsLine10[0]) == 52;
    assert KeywordIndex(SkillsLine10[1]) == 53;
    assert KeywordIndex(SkillsLine10[2]) == 54;
    assert KeywordIndex(SkillsLine10[3]) == 55;
    assert KeywordIndex(SkillsLine10[4]) == 56;
    assert KeywordIndex(SkillsLine10[5]) == 57;
  }

  lemma SkillsLine11Indexed()
    ensures forall i | 0 <= i < |SkillsLine11| :: KeywordIndex(SkillsLine11[i]) == 58 + i
  {
    assert KeywordIndex(SkillsLine11[0]) == 58;
    assert KeywordIndex(SkillsLine11[1]) == 59;
    assert KeywordIndex(SkillsLine11[2]) == 60;
    assert KeywordIndex(SkillsLine11[3]) == 61;
    assert KeywordIndex(SkillsLine11[4]) == 62;
    assert KeywordIndex(SkillsLine11[5]) == 63;
  }

  lemma SkillsLine12Indexed()
    ensures forall i | 0 <= i < |SkillsLine12| :: KeywordIndex(SkillsLine12[i]) == 64 + i
  {
    assert KeywordIndex(SkillsLine12[0]) == 64;
    assert KeywordIndex(SkillsLine12[1]) == 65;
    assert KeywordIndex(SkillsLine12[2]) == 66;
    assert KeywordIndex(SkillsLine12[3]) == 67;
    assert KeywordIndex(SkillsLine12[4]) == 68;
    assert KeywordIndex(SkillsLine12[5]) == 69;
    assert KeywordIndex(SkillsLine12[6]) == 70;
  }

  lemma {:induction false} CommonSkillsDistinct()
    ensures |CommonSkills| == 71
    ensures NoDuplicates(CommonSkills)
  {
    SkillsLine1Indexed();
    SkillsLine2Indexed();
    SkillsLine3Indexed();
    SkillsLine4Indexed();
    SkillsLine5Indexed();
    SkillsLine6Indexed();
    SkillsLine7Indexed();
    SkillsLine8Indexed();
    SkillsLine9Indexed();
    SkillsLine10Indexed();
    SkillsLine11Indexed();
    SkillsLine12Indexed();
    assert forall i | 0 <= i < |CommonSkills| :: KeywordIndex(CommonSkills[i]) == i;
  }

  /** The regular-expression class `\w` (ASCII letters, digits, underscore). */
  predicate IsWordChar(c: char)
  {
    'a' <= c <= 'z' || 'A' <= c <= 'Z' || '0' <= c <= '9' || c == '_'
  }

  /** `\b` at position `q`: exactly one of the two neighbouring characters is
      a word character (a position outside the text counts as non-word). */
  predicate WordBoundary(text: string, q: int)
    requires 0 <= q <= |text|
  {
    (q > 0 && IsWordChar(text[q - 1])) != (q < |text| && IsWordChar(text[q]))
  }

  /** `\b<kw>\b` matches, ignoring case, at position `p` (the pattern
      data_processor.py builds on line 172). */
  predicate MatchesAt(text: string, kw: string, p: int)
  {
    0 <= p && p + |kw| <= |text| &&
    Lower(text[p..p + |kw|]) == Lower(kw) &&
    WordBoundary(text, p) && WordBoundary(text, p + |kw|)
  }

  /** `re.search(r'\b' + re.escape(kw) + r'\b', text, re.IGNORECASE)` succeeds. */
  predicate Mentions(text: string, kw: string)
  {
    exists p | 0 <= p <= |text| - |kw| :: MatchesAt(text, kw, p)
  }

  /** The keyword occurs, ignoring case, at `p` as a whole token: no word
      character directly before or after it. */
  predicate MatchesTokenAt(text: string, kw: string, p: int)
  {
    0 <= p && p + |kw| <= |text| &&
    Lower(text[p..p + |kw|]) == Lower(kw) &&
    (p == 0 || !IsWordChar(text[p - 1])) &&
    (p + |kw| == |text| || !IsWordChar(text[p + |kw|]))
  }

  predicate MentionsToken(text: string, kw: string)
  {
    exists p | 0 <= p <= |text| - |kw| :: MatchesTokenAt(text, kw, p)
  }

  lemma LowerCharKeepsWordness(c: char)
    ensures IsWordChar(LowerChar(c)) == IsWordChar(c)
  {
  }

  /** Case-insensitive equality keeps whether each character is a word
      character. */
  lemma {:induction false} SameWordness(text: string, kw: string, p: int, k: int)
    requires 0 <= p && p + |kw| <= |text| && Lower(text[p..p + |kw|]) == Lower(kw)
    requires 0 <= k < |kw|
    ensures IsWordChar(text[p + k]) == IsWordChar(kw[k])
  {
    assert text[p..p + |kw|][k] == text[p + k];
    assert LowerChar(text[p + k]) == LowerChar(kw[k]);
    LowerCharKeepsWordness(text[p + k]);
    LowerCharKeepsWordness(kw[k]);
  }

  /** For a keyword that begins and ends with a word character, `\b…\b` and
      the whole-token match agree, so the two searches differ only on
      keywords such as "C++" and "C#". */
  lemma {:induction false} BoundaryAgreesOnWordKeywords(text: string, kw: string, p: int)
    requires kw != [] && IsWordChar(kw[0]) && IsWordChar(kw[|kw| - 1])
    ensures MatchesAt(text, kw, p) <==> MatchesTokenAt(text, kw, p)
  {
    if 0 <= p && p + |kw| <= |text| && Lower(text[p..p + |kw|]) == Lower(kw) {
      SameWordness(text, kw, p, 0);
      SameWordness(text, kw, p, |kw| - 1);
    }
  }

  /** Because `\b` needs a word character on one side, a keyword that ends in
      a symbol is only found by `\b…\b` where a word character follows it. */
  lemma {:induction false} TrailingSymbolNeedsWordAfter(text: string, kw: string, p: int)
    requires kw != [] && !IsWordChar(kw[|kw| - 1])
    requires MatchesAt(text, kw, p)
    ensures p + |kw| < |text| && IsWordChar(text[p + |kw|])
  {
    SameWordness(text, kw, p, |kw| - 1);
  }

  /** As written, "C++" ending a requirement in which no other '+' occurs
      (say "Experience with C++") is never extracted, although it stands there
      as a whole token. */
  lemma {:induction false} CPlusPlusAtEndMissed(prefix: string)
    requires forall i | 0 <= i < |prefix| :: prefix[i] != '+'
    requires prefix == [] || !IsWordChar(prefix[|prefix| - 1])
    ensures !Mentions(prefix + "C++", "C++")
    ensures MentionsToken(prefix + "C++", "C++")
  {
    var text := prefix + "C++";
    var n := |prefix|;
    assert text[n..n + 3] == "C++";
    assert LowerChar('+') == '+';
    assert Lower(text[n..n + 3]) == Lower("C++");
    assert MatchesTokenAt(text, "C++", n);
    if Mentions(text, "C++") {
      var p :| 0 <= p <= |text| - 3 && MatchesAt(text, "C++", p);
      TrailingSymbolNeedsWordAfter(text, "C++", p);
      assert false;
    }
  }

  /** The keywords of `kws` that `text` mentions as whole tokens, in order:
      the corrected reading, which finds "C++" before a space or at the end. */
  function Mentioned(kws: seq<string>, text: string): (r: seq<string>)
    ensures forall s :: s in r <==> s in kws && MentionsToken(text, s)
    ensures NoDuplicates(kws) ==> NoDuplicates(r)
  {
    if kws == [] then []
    else
      var rest := Mentioned(kws[1..], text);
      assert forall s :: s in kws <==> s == kws[0] || s in kws[1..];
      if MentionsToken(text, kws[0]) then
        assert NoDuplicates(kws) ==> kws[0] !in kws[1..];
        [kws[0]] + rest
      else rest
  }

  /** `a` is `b` with some elements left out, the rest kept in order. */
  predicate IsSubsequence<T(==)>(a: seq<T>, b: seq<T>)
    decreases |b|
  {
    a == [] ||
    (b != [] &&
     ((a[0] == b[0] && IsSubsequence(a[1..], b[1..])) || IsSubsequence(a, b[1..])))
  }

  /** The keywords found keep the order of the keyword list. */
  lemma {:induction false} MentionedIsSubsequence(kws: seq<string>, text: string)
    ensures IsSubsequence(Mentioned(kws, text), kws)
  {
    if kws != [] {
      MentionedIsSubsequence(kws[1..], text);
      if MentionsToken(text, kws[0]) {
        assert Mentioned(kws, text)[1..] == Mentioned(kws[1..], text);
      }
    }
  }

  /** The keywords of `kws` that `re.search(r'\b' + re.escape(kw) + r'\b',
      text, re.IGNORECASE)` finds in `text`, in order: what the source
      collects. */
  function Found(kws: seq<string>, text: string): (r: seq<string>)
    ensures forall s :: s in r <==> s in kws && Mentions(text, s)
    ensures NoDuplicates(kws) ==> NoDuplicates(r)
  {
    if kws == [] then []
    else
      var rest := Found(kws[1..], text);
      assert forall s :: s in kws <==> s == kws[0] || s in kws[1..];
      if Mentions(text, kws[0]) then
        assert NoDuplicates(kws) ==> kws[0] !in kws[1..];
        [kws[0]] + rest
      else rest
  }

  /** The keywords found keep the order of the keyword list. */
  lemma {:induction false} FoundIsSubsequence(kws: seq<string>, text: string)
    ensures IsSubsequence(Found(kws, text), kws)
  {
    if kws != [] {
      FoundIsSubsequence(kws[1..], text);
      if Mentions(text, kws[0]) {
        assert Found(kws, text)[1..] == Found(kws[1..], text);
      }
    }
  }

  /** A keyword starting and ending with a word character is mentioned
      under `\b…\b` exactly when it occurs as a whole token. */
  lemma MentionsAgreesOnWordKeyword(text: string, kw: string)
    requires kw != [] && IsWordChar(kw[0]) && IsWordChar(kw[|kw| - 1])
    ensures Mentions(text, kw) <==> MentionsToken(text, kw)
  {
    if Mentions(text, kw) {
      var p :| 0 <= p <= |text| - |kw| && MatchesAt(text, kw, p);
      BoundaryAgreesOnWordKeywords(text, kw, p);
    }
    if MentionsToken(text, kw) {
      var p :| 0 <= p <= |text| - |kw| && MatchesTokenAt(text, kw, p);
      BoundaryAgreesOnWordKeywords(text, kw, p);
    }
  }

  /** On keywords that start and end with word characters the source's
      extraction and the whole-token one give the same list; they part only
      on keywords such as "C++" and "C#". */
  lemma {:induction false} FoundAgreesOnWordKeywords(kws: seq<string>, text: string)
    requires forall i | 0 <= i < |kws| :: kws[i] != [] && IsWordChar(kws[i][0]) && IsWordChar(kws[i][|kws[i]| - 1])
    ensures Found(kws, text) == Mentioned(kws, text)
  {
    if kws != [] {
      assert forall i | 0 <= i < |kws[1..]| :: kws[1..][i] == kws[i + 1];
      FoundAgreesOnWordKeywords(kws[1..], text);
      MentionsAgreesOnWordKeyword(text, kws[0]);
    }
  }

  /** Searches `text` for `\b<kw>\b`, ignoring case, position by position. */
  method Search(text: string, kw: string) returns (found: bool)
    ensures found == Mentions(text, kw)
  {
    var p := 0;
    while p <= |text| - |kw|
      invariant 0 <= p
      invariant forall q :: 0 <= q < p ==> !MatchesAt(text, kw, q)
    {
      if Lower(text[p..p + |kw|]) == Lower(kw) && WordBoundary(text, p) && WordBoundary(text, p + |kw|) {
        assert MatchesAt(text, kw, p);
        return true;
      }
      p := p + 1;
    }
    return false;
  }

  /** The loop of `extract_skills_from_text` over any keyword list. */
  method MentionedSkills(skills: seq<string>, text: string) returns (found: seq<string>)
    ensures found == Found(skills, text)
  {
    found := [];
    var i := 0;
    while i < |skills|
      invariant 0 <= i <= |skills|
      invariant Found(skills, text) == found + Found(skills[i..], text)
    {
      var hit := Search(text, skills[i]);
      assert skills[i..][0] == skills[i];
      assert skills[i..][1..] == skills[i + 1..];
      if hit {
        found := found + [skills[i]];
      }
      i := i + 1;
    }
  }

  /** `extract_skills_from_text`: appends, in list order, each keyword that
      `\b<kw>\b` finds in the text, ignoring case. The result is a
      subsequence of the keyword list without duplicates, and holds exactly
      the keywords found. */
  method ExtractSkills(text: string) returns (found: seq<string>)
    ensures found == Found(CommonSkills, text)
    ensures forall s :: s in found <==> s in CommonSkills && Mentions(text, s)
    ensures NoDuplicates(found)
    ensures IsSubsequence(found, CommonSkills)
  {
    found := MentionedSkills(CommonSkills, text);
    CommonSkillsDistinct();
    FoundIsSubsequence(CommonSkills, text);
  }
}
