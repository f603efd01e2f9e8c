/** Article slugs: the base slug of a title and the bounded search for a free one. */
module Slugs {
  import opened Wrappers

  const MAX_LENGTH := 80
  const MAX_ATTEMPTS := 10

  // ----- the base slug of a lowercased, NFKD-normalized title

  predicate IsWord(c: char) { 'a' <= c <= 'z' || '0' <= c <= '9' }

  /** A combining diacritical mark. */
  predicate IsMark(c: char) { '\U{0300}' <= c <= '\U{036F}' }

  function DropMarks(s: string): string {
    if s == "" then ""
    else if IsMark(s[0]) then DropMarks(s[1..])
    else [s[0]] + DropMarks(s[1..])
  }

  /** Every run of other characters becomes one dash; `inRun` says one is open already. */
  function Collapse(s: string, inRun: bool): string {
    if s == "" then ""
    else if IsWord(s[0]) then [s[0]] + Collapse(s[1..], false)
    else if inRun then Collapse(s[1..], true)
    else "-" + Collapse(s[1..], true)
  }

  function TrimLeft(s: string): string {
    if s != "" && s[0] == '-' then TrimLeft(s[1..]) else s
  }

  function TrimRight(s: string): string {
    if s != "" && s[|s| - 1] == '-' then TrimRight(s[..|s| - 1]) else s
  }

  function Truncate(s: string): string { if |s| > MAX_LENGTH then s[..MAX_LENGTH] else s }

  function Trimmed(title: string): string { TrimRight(TrimLeft(Collapse(DropMarks(title), false))) }

  function BaseSlug(title: string): string {
    var slug := Truncate(Trimmed(title));
    if slug == "" then "article" else slug
  }

  /** Word characters and single dashes. */
  ghost predicate Dashed(s: string) {
    && (forall i | 0 <= i < |s| :: IsWord(s[i]) || s[i] == '-')
    && (forall i | 0 <= i < |s| - 1 :: !(s[i] == '-' && s[i + 1] == '-'))
  }

  predicate EndsInDash(s: string) { s != "" && s[|s| - 1] == '-' }

  lemma {:induction false} CollapseIsDashed(s: string, inRun: bool)
    ensures Dashed(Collapse(s, inRun))
    ensures inRun && Collapse(s, inRun) != "" ==> Collapse(s, inRun)[0] != '-'
  {
    if s != "" {
      CollapseIsDashed(s[1..], !IsWord(s[0]));
    }
  }

  lemma {:induction false} CollapseFixesDashed(s: string, inRun: bool)
    requires Dashed(s) && (inRun && s != "" ==> s[0] != '-')
    ensures Collapse(s, inRun) == s
  {
    if s != "" {
      assert Dashed(s[1..]) by {
        assert forall i | 0 <= i < |s| - 1 :: s[1..][i] == s[i + 1];
      }
      CollapseFixesDashed(s[1..], !IsWord(s[0]));
    }
  }

  lemma {:induction false} DropMarksFixesDashed(s: string)
    requires forall i | 0 <= i < |s| :: IsWord(s[i]) || s[i] == '-'
    ensures DropMarks(s) == s
  {
    if s != "" {
      DropMarksFixesDashed(s[1..]);
    }
  }

  lemma TrimLeftKeeps(s: string)
    requires Dashed(s)
    ensures Dashed(TrimLeft(s)) && (TrimLeft(s) != "" ==> TrimLeft(s)[0] != '-')
  {
  }

  lemma TrimRightKeeps(s: string)
    requires Dashed(s) && (s != "" ==> s[0] != '-')
    ensures var t := TrimRight(s); Dashed(t) && !EndsInDash(t) && (t != "" ==> t[0] != '-')
  {
  }

  lemma TrimmedIsClean(title: string)
    ensures var t := Trimmed(title); Dashed(t) && !EndsInDash(t) && (t != "" ==> t[0] != '-')
  {
    var c := Collapse(DropMarks(title), false);
    CollapseIsDashed(DropMarks(title), false);
    TrimLeftKeeps(c);
    TrimRightKeeps(TrimLeft(c));
  }

  // ----- what a slug says

  /** Words are made of the 26 lower-case letters and the 10 digits, and the marks that
      vanish are those of the block U+0300 to U+036F. */
  lemma AlphabetIsExact(c: char)
    ensures IsWord(c) <==> 0 <= c as int - 97 < 26 || 0 <= c as int - 48 < 10
    ensures IsMark(c) <==> 0x300 <= c as int < 0x370
  {
  }

  /** The words of a text, cut at every run of other characters; `word` is the one begun. */
  function WordsFrom(s: string, word: string): seq<string> {
    if s == "" then (if word == "" then [] else [word])
    else if IsWord(s[0]) then WordsFrom(s[1..], word + [s[0]])
    else if word == "" then WordsFrom(s[1..], "")
    else [word] + WordsFrom(s[1..], "")
  }

  function Words(s: string): seq<string> { WordsFrom(s, "") }

  function Joined(words: seq<string>): string {
    if words == [] then ""
    else if |words| == 1 then words[0]
    else words[0] + "-" + Joined(words[1..])
  }

  /** A dash and the words, if there are any. */
  function Tail(words: seq<string>): string { if words == [] then "" else "-" + Joined(words) }

  lemma JoinedCons(w: string, words: seq<string>)
    ensures Joined([w] + words) == w + Tail(words)
  {
    assert ([w] + words)[1..] == words;
  }

  lemma {:induction false} TrimRightAppend(a: string, b: string)
    requires a == "" || a[|a| - 1] != '-'
    ensures TrimRight(a + b) == if TrimRight(b) == "" then a else a + TrimRight(b)
    decreases |b|
  {
    if b == "" {
      assert a + b == a;
    } else if b[|b| - 1] == '-' {
      assert (a + b)[..|a + b| - 1] == a + b[..|b| - 1];
      TrimRightAppend(a, b[..|b| - 1]);
    }
  }

  lemma WordsAreWords(s: string, word: string)
    requires forall i | 0 <= i < |word| :: IsWord(word[i])
    ensures forall k | 0 <= k < |WordsFrom(s, word)| ::
              WordsFrom(s, word)[k] != "" && forall i | 0 <= i < |WordsFrom(s, word)[k]| :: IsWord(WordsFrom(s, word)[k][i])
  {
  }

  /** Collapsing behind a begun word, or in a run of other characters, and trimming the
      end, leaves the words joined by dashes. */
  lemma {:induction false} CollapseJoins(s: string, word: string)
    requires forall i | 0 <= i < |word| :: IsWord(word[i])
    ensures word != "" ==> TrimRight(word + Collapse(s, false)) == Joined(WordsFrom(s, word))
    ensures TrimRight("-" + Collapse(s, true)) == Tail(Words(s))
    decreases |s|
  {
    if s == "" {
      assert word + "" == word;
    } else if IsWord(s[0]) {
      var rest := s[1..];
      assert word + ([s[0]] + Collapse(rest, false)) == (word + [s[0]]) + Collapse(rest, false);
      CollapseJoins(rest, word + [s[0]]);
      CollapseJoins(rest, [s[0]]);
      assert "" + [s[0]] == [s[0]];
      LeadingDash(s);
    } else {
      var rest := s[1..];
      CollapseJoins(rest, "");
      if word != "" {
        TrimRightAppend(word, "-" + Collapse(rest, true));
        JoinedCons(word, Words(rest));
        assert word + "" == word;
      }
    }
  }

  lemma LeadingDash(s: string)
    requires s != "" && IsWord(s[0])
    requires TrimRight([s[0]] + Collapse(s[1..], false)) == Joined(Words(s))
    ensures TrimRight("-" + Collapse(s, true)) == Tail(Words(s))
  {
    WordsNonEmpty(s[1..], [s[0]]);
    assert "" + [s[0]] == [s[0]];
    var c := Collapse(s, true);
    assert c == [s[0]] + Collapse(s[1..], false);
    TrimRightKeepsHead("-", c);
  }

  lemma WordsNonEmpty(s: string, word: string)
    requires word != ""
    ensures WordsFrom(s, word) != []
  {
  }

  lemma {:induction false} TrimRightKeepsHead(a: string, b: string)
    requires b != "" && b[0] != '-'
    ensures TrimRight(a + b) == a + TrimRight(b)
    decreases |b|
  {
    if b[|b| - 1] == '-' {
      assert (a + b)[..|a + b| - 1] == a + b[..|b| - 1];
      TrimRightKeepsHead(a, b[..|b| - 1]);
    }
  }

  /** Trimmed of dashes at both ends, a title is its words joined by single dashes. */
  lemma TrimmedIsJoined(title: string)
    ensures Trimmed(title) == Joined(Words(DropMarks(title)))
  {
    var s := DropMarks(title);
    if s != "" {
      if IsWord(s[0]) {
        CollapseJoins(s[1..], [s[0]]);
        assert "" + [s[0]] == [s[0]];
      } else {
        StartJoins(s[1..]);
      }
    }
  }

  /** Behind a run of other characters at the start. */
  lemma {:induction false} StartJoins(s: string)
    ensures TrimRight(TrimLeft("-" + Collapse(s, true))) == Joined(Words(s))
    decreases |s|
  {
    assert ("-" + Collapse(s, true))[1..] == Collapse(s, true);
    if s != "" {
      if IsWord(s[0]) {
        CollapseJoins(s[1..], [s[0]]);
        assert "" + [s[0]] == [s[0]];
      } else {
        StartJoins(s[1..]);
        assert ("-" + Collapse(s[1..], true))[1..] == Collapse(s[1..], true);
      }
    }
  }

  /** A combining mark vanishes, and does not split the word it stands in. */
  lemma {:induction false} MarksVanish(a: string, mark: char, b: string)
    requires IsMark(mark)
    ensures DropMarks(a + [mark] + b) == DropMarks(a + b)
    decreases |a|
  {
    if a == "" {
      assert a + [mark] + b == [mark] + b && a + b == b;
      assert ([mark] + b)[1..] == b;
    } else {
      assert (a + [mark] + b)[1..] == a[1..] + [mark] + b && (a + b)[1..] == a[1..] + b;
      MarksVanish(a[1..], mark, b);
    }
  }

  lemma {:induction false} UnmarkedStays(s: string)
    requires forall i | 0 <= i < |s| :: !IsMark(s[i])
    ensures DropMarks(s) == s
  {
    if s != "" {
      UnmarkedStays(s[1..]);
    }
  }

  /** What the slug of a title is: the words of the title, without its combining marks,
      joined by dashes and cut to 80 characters; "article" for a title without words. */
  lemma SlugSaysTitle(title: string)
    ensures var joined := Joined(Words(DropMarks(title)));
      && (joined == "" ==> BaseSlug(title) == "article")
      && (joined != "" ==> BaseSlug(title) == if |joined| <= 80 then joined else joined[..80])
  {
    TrimmedIsJoined(title);
  }

  /** The shape of a slug. Truncation comes after trimming, so a slug can end in a dash:
      exactly when the cut falls right behind one. */
  lemma SlugShape(title: string)
    ensures var slug := BaseSlug(title);
      && 0 < |slug| <= MAX_LENGTH && Dashed(slug) && slug[0] != '-'
      && (EndsInDash(slug) <==> |Trimmed(title)| > MAX_LENGTH && Trimmed(title)[MAX_LENGTH - 1] == '-')
  {
    TrimmedIsClean(title);
  }

  /** Slugging a slug again changes it exactly when it ends in a dash. */
  lemma SlugIsStableExactly(title: string)
    ensures BaseSlug(BaseSlug(title)) == BaseSlug(title) <==> !EndsInDash(BaseSlug(title))
  {
    var slug := BaseSlug(title);
    SlugShape(title);
    DropMarksFixesDashed(slug);
    CollapseFixesDashed(slug, false);
    assert TrimLeft(slug) == slug;
    TrimRightKeeps(slug);
    if EndsInDash(slug) {
      assert TrimRight(slug[..|slug| - 1]) == slug[..|slug| - 1];
    }
  }

  // ----- the search for a free slug

  function Decimal(n: nat): string {
    var digit := ['0', '1', '2', '3', '4', '5', '6', '7', '8', '9'][n % 10];
    if n < 10 then [digit] else Decimal(n / 10) + [digit]
  }

  /** What a decimal number says. */
  function Value(s: string): int {
    if s == "" then 0 else 10 * Value(s[..|s| - 1]) + (s[|s| - 1] as int - '0' as int)
  }

  lemma {:induction false} DecimalSaysNumber(n: nat)
    ensures Value(Decimal(n)) == n
  {
    if n >= 10 {
      DecimalSaysNumber(n / 10);
      assert Decimal(n)[..|Decimal(n)| - 1] == Decimal(n / 10);
    }
  }

  function Candidate(base: string, attempt: nat): string {
    if attempt == 1 then base else base + "-" + Decimal(attempt)
  }

  /** The candidates are the base alone and then the base with the number of the attempt,
      so no two are the same. */
  lemma CandidateSaysAttempt(base: string, attempt: nat)
    ensures attempt == 1 ==> Candidate(base, attempt) == base
    ensures attempt != 1 ==>
              var c := Candidate(base, attempt);
              |c| > |base| && c[..|base| + 1] == base + "-" && Value(c[|base| + 1..]) == attempt
  {
    if attempt != 1 {
      DecimalSaysNumber(attempt);
      assert Candidate(base, attempt)[|base| + 1..] == Decimal(attempt);
    }
  }

  lemma CandidatesDiffer(base: string, i: nat, j: nat)
    requires i < j
    ensures Candidate(base, i) != Candidate(base, j)
  {
    CandidateSaysAttempt(base, i);
    CandidateSaysAttempt(base, j);
  }

  /** Tries the candidates in turn against the unique index as it is at each attempt:
      `taken[k - 1]` is what the index holds at attempt `k`. The slug inserted is the
      first candidate free at its attempt; there is none exactly when all are taken. */
  method InsertWithUniqueSlug(title: string, taken: seq<set<string>>) returns (slug: Option<string>, attempt: int)
    requires |taken| == 10
    ensures slug.Some? ==>
      && 1 <= attempt <= 10 && slug.value == Candidate(BaseSlug(title), attempt)
      && slug.value !in taken[attempt - 1]
      && forall k | 1 <= k < attempt :: Candidate(BaseSlug(title), k) in taken[k - 1]
    ensures slug.None? <==> forall k | 1 <= k <= 10 :: Candidate(BaseSlug(title), k) in taken[k - 1]
  {
    var base := BaseSlug(title);
    attempt := 1;
    while attempt <= MAX_ATTEMPTS
      invariant 1 <= attempt <= MAX_ATTEMPTS + 1
      invariant forall k | 1 <= k < attempt :: Candidate(base, k) in taken[k - 1]
    {
      var candidate := Candidate(base, attempt);
      if candidate !in taken[attempt - 1] {
        return Some(candidate), attempt;
      }
      attempt := attempt + 1;
    }
    return None, attempt;
  }
}
