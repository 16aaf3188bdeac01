/** SQuAD answer normalisation and token F1, over real arithmetic. */
module Squad {
  import opened Text

  // ---------- characters ----------

  /** `string.punctuation`. */
  predicate IsPunctuation(c: char) {
    33 <= c as int <= 47 || 58 <= c as int <= 64 || 91 <= c as int <= 96 || 123 <= c as int <= 126
  }

  predicate IsWordChar(c: char) {
    'a' <= c <= 'z' || 'A' <= c <= 'Z' || '0' <= c <= '9' || c == '_'
  }

  /** Printable ASCII and ASCII whitespace. */
  predicate Plain(s: string) {
    forall i :: 0 <= i < |s| ==> 32 <= s[i] as int <= 126 || IsSpace(s[i])
  }

  const ARTICLES: set<string> := {"a", "an", "the"}

  // ---------- the four steps ----------

  function RemovePunctuation(s: string): string {
    if s == [] then [] else (if IsPunctuation(s[0]) then [] else [s[0]]) + RemovePunctuation(s[1..])
  }

  predicate AtBoundary(rest: string) {
    rest == [] || !IsWordChar(rest[0])
  }

  /** Length of the article matched here by `\b(a|an|the)\b`, or 0; `after` tells whether a word character is before. */
  function ArticleLength(s: string, after: bool): (n: nat)
    ensures n <= |s| && (n > 0 ==> s[..n] in ARTICLES)
  {
    if after then 0
    else if "a" <= s && AtBoundary(s[1..]) then assert s[..1] == "a"; 1
    else if "an" <= s && AtBoundary(s[2..]) then assert s[..2] == "an"; 2
    else if "the" <= s && AtBoundary(s[3..]) then assert s[..3] == "the"; 3
    else 0
  }

  /** `re.sub(r"\b(a|an|the)\b", " ", text)`, scanning from the left. */
  function RemoveArticles(s: string, after: bool): string
    decreases |s|
  {
    if s == [] then []
    else
      var n := ArticleLength(s, after);
      if n > 0 then " " + RemoveArticles(s[n..], true)
      else [s[0]] + RemoveArticles(s[1..], IsWordChar(s[0]))
  }

  function WordLength(s: string): (n: nat)
    ensures n <= |s|
    ensures forall i :: 0 <= i < n ==> !IsSpace(s[i])
    ensures n < |s| ==> IsSpace(s[n])
  {
    if s == [] || IsSpace(s[0]) then 0 else 1 + WordLength(s[1..])
  }

  /** `s.split()`. */
  function Words(s: string): (words: seq<string>)
    ensures forall w :: w in words ==> w != [] && forall i :: 0 <= i < |w| ==> !IsSpace(w[i])
    decreases |s|
  {
    if s == [] then []
    else if IsSpace(s[0]) then Words(s[1..])
    else [s[..WordLength(s)]] + Words(s[WordLength(s)..])
  }

  /** `squad_normalize`. */
  function Normalize(s: string): string {
    Text.Join(Words(RemoveArticles(RemovePunctuation(Text.Lower(s)), false)), ' ')
  }

  function Tokens(s: string): seq<string> {
    Words(Normalize(s))
  }

  // ---------- what normalisation keeps ----------

  /** Only lower-case letters, digits and whitespace: every word boundary is at a space or at an end. */
  predicate Clean(s: string) {
    forall i :: 0 <= i < |s| ==> IsSpace(s[i]) || 'a' <= s[i] <= 'z' || '0' <= s[i] <= '9'
  }

  function WithoutArticles(words: seq<string>): (kept: seq<string>)
    ensures forall w :: w in kept <==> w in words && w !in ARTICLES
  {
    if words == [] then []
    else (if words[0] in ARTICLES then [] else [words[0]]) + WithoutArticles(words[1..])
  }

  lemma {:induction false} PunctuationLeavesClean(s: string)
    requires Plain(s)
    ensures Clean(RemovePunctuation(Text.Lower(s)))
  {
    if s != [] {
      PunctuationLeavesClean(s[1..]);
      assert Text.Lower(s)[1..] == Text.Lower(s[1..]);
    }
  }

  predicate WordChars(w: string) {
    forall i :: 0 <= i < |w| ==> IsWordChar(w[i])
  }

  predicate SpaceOrEnd(t: string) {
    t == [] || IsSpace(t[0])
  }

  /** On clean text the pattern removes exactly the words that are articles. */
  lemma {:induction false} ArticlesAreWords(s: string)
    requires Clean(s)
    ensures Words(RemoveArticles(s, false)) == WithoutArticles(Words(s))
    decreases |s|
  {
    hide ArticleLength, ARTICLES, RemoveArticles;
    if s == [] {
      EmptyIsKept();
    } else if IsSpace(s[0]) {
      ArticlesAreWords(s[1..]);
      SpaceIsCopied(s);
      assert RemoveArticles(s, false)[1..] == RemoveArticles(s[1..], false);
    } else {
      var n := WordLength(s);
      var w, t := s[..n], s[n..];
      assert s == w + t;
      FirstWord(w, t);
      AfterWord(t);
      ArticlesAreWords(t);
      var rest := RemoveArticles(t, true);
      if w in ARTICLES {
        assert (" " + rest)[1..] == rest;
      } else {
        WordThenRest(w, rest);
      }
    }
  }

  lemma EmptyIsKept()
    ensures RemoveArticles("", false) == ""
  {
  }

  lemma SpaceIsCopied(s: string)
    requires s != [] && IsSpace(s[0])
    ensures RemoveArticles(s, false) == [s[0]] + RemoveArticles(s[1..], false)
  {
  }

  /** After a word, a flag that says so makes no difference: a space or the end follows. */
  lemma AfterWord(t: string)
    requires SpaceOrEnd(t)
    ensures RemoveArticles(t, true) == RemoveArticles(t, false) && SpaceOrEnd(RemoveArticles(t, true))
  {
  }

  /** A word at the start is replaced by a space when it is an article, and copied otherwise. */
  lemma FirstWord(w: string, t: string)
    requires w != [] && WordChars(w) && SpaceOrEnd(t)
    ensures RemoveArticles(w + t, false) == (if w in ARTICLES then " " else w) + RemoveArticles(t, true)
  {
    hide RemoveArticles, ArticleLength;
    ArticleIsWord(w, t);
    if w in ARTICLES {
      MatchedArticle(w, t);
    } else {
      CopiedChar(w + t);
      assert (w + t)[1..] == w[1..] + t;
      CopyWord(w[1..], t);
      assert w == [w[0]] + w[1..];
      assert [w[0]] + (w[1..] + RemoveArticles(t, true)) == w + RemoveArticles(t, true);
    }
  }

  lemma MatchedArticle(w: string, t: string)
    requires w != [] && ArticleLength(w + t, false) == |w|
    ensures RemoveArticles(w + t, false) == " " + RemoveArticles(t, true)
  {
    assert (w + t)[|w|..] == t;
  }

  lemma CopiedChar(s: string)
    requires s != [] && ArticleLength(s, false) == 0
    ensures RemoveArticles(s, false) == [s[0]] + RemoveArticles(s[1..], IsWordChar(s[0]))
  {
  }

  /** Inside a word nothing matches. */
  lemma {:induction false} CopyWord(w: string, t: string)
    requires WordChars(w)
    ensures RemoveArticles(w + t, true) == w + RemoveArticles(t, true)
  {
    if w == [] {
      assert w + t == t;
    } else {
      CopyWord(w[1..], t);
      assert (w + t)[1..] == w[1..] + t;
    }
  }

  lemma ArticleIsWord(w: string, t: string)
    requires w != [] && WordChars(w) && SpaceOrEnd(t)
    ensures ArticleLength(w + t, false) == if w in ARTICLES then |w| else 0
  {
    MatchesOnlyItself("a", w, t);
    MatchesOnlyItself("an", w, t);
    MatchesOnlyItself("the", w, t);
  }

  lemma MatchesOnlyItself(article: string, w: string, t: string)
    requires article != [] && WordChars(article) && WordChars(w) && SpaceOrEnd(t)
    ensures article <= w + t && AtBoundary((w + t)[|article|..]) <==> w == article
  {
    var s := w + t;
    if |article| < |w| {
      assert s[|article|..][0] == w[|article|];
    } else if |article| > |w| {
      assert |s| > |w| ==> s[|w|] == t[0];
    } else {
      assert s[..|w|] == w && s[|w|..] == t;
    }
  }

  lemma WordThenRest(w: string, rest: string)
    requires w != [] && (forall i :: 0 <= i < |w| ==> !IsSpace(w[i])) && SpaceOrEnd(rest)
    ensures Words(w + rest) == [w] + Words(rest)
  {
    WordLengthIs(w, rest);
    assert (w + rest)[..|w|] == w && (w + rest)[|w|..] == rest;
  }

  lemma {:induction false} WordLengthIs(w: string, rest: string)
    requires (forall i :: 0 <= i < |w| ==> !IsSpace(w[i])) && SpaceOrEnd(rest)
    ensures WordLength(w + rest) == |w|
  {
    if w != [] {
      assert (w + rest)[1..] == w[1..] + rest;
      WordLengthIs(w[1..], rest);
    } else {
      assert w + rest == rest;
    }
  }

  // ---------- normalising twice ----------

  /** The tokens of a normalised answer: lower-case letters and digits, and no article. */
  predicate Normal(words: seq<string>) {
    LowerWords(words) && forall i :: 0 <= i < |words| ==> words[i] !in ARTICLES
  }

  predicate LowerWords(words: seq<string>) {
    forall i :: 0 <= i < |words| ==> words[i] != [] && LowerWord(words[i])
  }

  predicate LowerWord(w: string) {
    forall i :: 0 <= i < |w| ==> 'a' <= w[i] <= 'z' || '0' <= w[i] <= '9'
  }

  lemma {:induction false} WordsOfCleanAreLower(s: string)
    requires Clean(s)
    ensures LowerWords(Words(s))
    decreases |s|
  {
    if s != [] {
      WordsOfCleanAreLower(if IsSpace(s[0]) then s[1..] else s[WordLength(s)..]);
    }
  }

  /** Joining normal tokens by spaces and splitting them again gives the same tokens. */
  lemma {:induction false} WordsOfJoin(words: seq<string>)
    requires LowerWords(words)
    ensures Words(Text.Join(words, ' ')) == words && Clean(Text.Join(words, ' '))
  {
    hide Words, WordLength;
    if words == [] {
      NoWords();
    } else if |words| == 1 {
      WordThenRest(words[0], "");
      NoWords();
      assert words[0] + "" == words[0];
    } else {
      WordsOfJoin(words[1..]);
      var rest := [' '] + Text.Join(words[1..], ' ');
      WordThenRest(words[0], rest);
      AfterSpace(Text.Join(words[1..], ' '));
      assert words[0] + [' '] + Text.Join(words[1..], ' ') == words[0] + rest;
    }
  }

  lemma NoWords()
    ensures Words("") == []
  {
  }

  lemma AfterSpace(t: string)
    ensures Words([' '] + t) == Words(t) && (Clean(t) ==> Clean([' '] + t))
  {
    assert ([' '] + t)[1..] == t;
  }

  lemma {:induction false} CleanIsKept(s: string)
    requires Clean(s)
    ensures RemovePunctuation(Text.Lower(s)) == s
  {
    if s != [] {
      CleanIsKept(s[1..]);
      assert Text.Lower(s)[1..] == Text.Lower(s[1..]);
    }
  }

  lemma {:induction false} NothingToRemove(words: seq<string>)
    requires Normal(words)
    ensures WithoutArticles(words) == words
  {
    if words != [] {
      NothingToRemove(words[1..]);
    }
  }

  lemma NormalizedTokens(s: string)
    requires Plain(s)
    ensures Normal(Words(RemoveArticles(RemovePunctuation(Text.Lower(s)), false)))
  {
    var clean := RemovePunctuation(Text.Lower(s));
    PunctuationLeavesClean(s);
    ArticlesAreWords(clean);
    WordsOfCleanAreLower(clean);
  }

  /** Normalising is idempotent on printable ASCII, and its tokens are exactly its space-separated words. */
  lemma NormalizeIsIdempotent(s: string)
    requires Plain(s)
    ensures Normalize(Normalize(s)) == Normalize(s)
    ensures Normal(Tokens(s)) && Normalize(s) == Text.Join(Tokens(s), ' ')
  {
    hide RemoveArticles, RemovePunctuation, Text.Lower, Words, Text.Join, WithoutArticles, Clean, Plain;
    var words := Words(RemoveArticles(RemovePunctuation(Text.Lower(s)), false));
    NormalizedTokens(s);
    WordsOfJoin(words);
    var joined := Text.Join(words, ' ');
    CleanIsKept(joined);
    ArticlesAreWords(joined);
    NothingToRemove(words);
  }

  // ---------- word by word ----------

  /** One word in lower case and without punctuation. */
  function Reduce(w: string): string {
    RemovePunctuation(Text.Lower(w))
  }

  /** Every word reduced, and nothing where nothing is left. */
  function Reduced(words: seq<string>): seq<string> {
    if words == [] then []
    else (if Reduce(words[0]) == [] then [] else [Reduce(words[0])]) + Reduced(words[1..])
  }

  lemma {:induction false} ReduceSplits(w: string, t: string)
    ensures Reduce(w + t) == Reduce(w) + Reduce(t)
  {
    if w == [] {
      assert w + t == t;
    } else {
      assert (w + t)[1..] == w[1..] + t;
      ReduceSplits(w[1..], t);
      ReduceHead(w);
      ReduceHead(w + t);
    }
  }

  lemma ReduceHead(s: string)
    requires s != []
    ensures Reduce(s) == (if IsPunctuation(Text.LowerChar(s[0])) then [] else [Text.LowerChar(s[0])]) + Reduce(s[1..])
  {
    assert Text.Lower(s)[1..] == Text.Lower(s[1..]);
  }

  lemma {:induction false} ReducedHasNoSpace(w: string)
    requires forall i :: 0 <= i < |w| ==> !IsSpace(w[i])
    ensures forall i :: 0 <= i < |Reduce(w)| ==> !IsSpace(Reduce(w)[i])
  {
    if w != [] {
      ReducedHasNoSpace(w[1..]);
      ReduceHead(w);
    }
  }

  lemma {:induction false} WordsAreReduced(s: string)
    ensures Words(Reduce(s)) == Reduced(Words(s))
    decreases |s|
  {
    hide Reduce;
    if s == [] {
      ReduceNothing();
    } else if IsSpace(s[0]) {
      ReduceHead(s);
      WordsAreReduced(s[1..]);
      AfterSpaceChar(s[0], Reduce(s[1..]));
    } else {
      var n := WordLength(s);
      var w, t := s[..n], s[n..];
      assert s == w + t && Words(s) == [w] + Words(t);
      ReduceSplits(w, t);
      ReducedHasNoSpace(w);
      WordsAreReduced(t);
      if t != [] { ReduceHead(t); }
      if t == [] { ReduceNothing(); }
      if Reduce(w) == [] {
        assert Reduce(w) + Reduce(t) == Reduce(t);
      } else {
        WordThenRest(Reduce(w), Reduce(t));
      }
    }
  }

  lemma ReduceNothing()
    ensures Reduce([]) == []
  {
  }

  lemma AfterSpaceChar(c: char, t: string)
    requires IsSpace(c)
    ensures Words([c] + t) == Words(t) && !IsPunctuation(Text.LowerChar(c)) && Text.LowerChar(c) == c
  {
    assert ([c] + t)[1..] == t;
  }

  /** The tokens of a text are its words in their order, each in lower case and without punctuation, leaving out articles and
      words of which nothing is left. */
  lemma TokensAreWords(s: string)
    requires Plain(s)
    ensures Tokens(s) == WithoutArticles(Reduced(Words(s)))
  {
    hide RemoveArticles, RemovePunctuation, Text.Lower, Words, Text.Join, WithoutArticles, Clean, Plain, Reduced;
    var clean := RemovePunctuation(Text.Lower(s));
    PunctuationLeavesClean(s);
    NormalizedTokens(s);
    ArticlesAreWords(clean);
    WordsOfJoin(Words(RemoveArticles(clean, false)));
    WordsAreReduced(s);
  }

  // ---------- token F1 ----------

  function Overlap(p: seq<string>, g: seq<string>): nat {
    |multiset(p) * multiset(g)|
  }

  /** `squad_f1` on tokens: the harmonic mean of precision and recall. */
  function TokenF1(p: seq<string>, g: seq<string>): real {
    if p == [] || g == [] then (if p == g then 1.0 else 0.0)
    else
      var common := Overlap(p, g) as real;
      if common == 0.0 then 0.0
      else
        var precision, recall := common / |p| as real, common / |g| as real;
        2.0 * precision * recall / (precision + recall)
  }

  function F1(prediction: string, gold: string): real {
    TokenF1(Tokens(prediction), Tokens(gold))
  }

  predicate ExactMatch(prediction: string, gold: string) {
    Normalize(prediction) == Normalize(gold)
  }

  lemma HarmonicMean(c: real, m: real, n: real)
    requires 0.0 < c && 0.0 < m && 0.0 < n
    ensures 2.0 * (c / m) * (c / n) / (c / m + c / n) == 2.0 * c / (m + n)
  {
    var p, r := c / m, c / n;
    assert p * m == c && r * n == c;
    assert p > 0.0 && r > 0.0;
    assert 2.0 * p * r * (m + n) == 2.0 * c * (p + r) by {
      assert 2.0 * p * r * (m + n) == 2.0 * r * (p * m) + 2.0 * p * (r * n);
    }
    CrossMultiply(2.0 * p * r, p + r, 2.0 * c, m + n);
  }

  lemma CrossMultiply(a: real, b: real, c: real, d: real)
    requires b > 0.0 && d > 0.0 && a * d == c * b
    ensures a / b == c / d
  {
    assert (a / b) * b == a && (c / d) * d == c;
    assert (a / b) * (b * d) == (c / d) * (b * d);
  }

  /** F1 is twice the overlap over the total number of tokens. */
  lemma F1IsDice(p: seq<string>, g: seq<string>)
    requires p != [] || g != []
    ensures TokenF1(p, g) == 2.0 * Overlap(p, g) as real / (|p| + |g|) as real
  {
    hide Overlap;
    OverlapBounds(p, g);
    if Overlap(p, g) == 0 {
      NoOverlap(p, g);
    } else {
      HarmonicMean(Overlap(p, g) as real, |p| as real, |g| as real);
    }
  }

  lemma NoOverlap(p: seq<string>, g: seq<string>)
    requires (p != [] || g != []) && Overlap(p, g) == 0
    ensures TokenF1(p, g) == 0.0
  {
    hide Overlap;
  }

  lemma OverlapBounds(p: seq<string>, g: seq<string>)
    ensures Overlap(p, g) <= |p| && Overlap(p, g) <= |g| && Overlap(p, g) == Overlap(g, p)
    ensures 2 * Overlap(p, g) == |p| + |g| <==> multiset(p) == multiset(g)
  {
    var a, b := multiset(p), multiset(g);
    assert a * b == b * a && (a == b ==> a * b == a);
    assert |a - b| == |a| - |a * b| && |b - a| == |b| - |a * b|;
    if 2 * Overlap(p, g) == |p| + |g| {
      assert a - b == multiset{} && b - a == multiset{};
      forall x ensures a[x] == b[x] {
        assert (a - b)[x] == 0 && (b - a)[x] == 0;
      }
    }
  }

  /** Token F1 is symmetric, lies between 0 and 1, and is 1 exactly when the token multisets are equal. */
  lemma F1IsASimilarity(p: seq<string>, g: seq<string>)
    ensures TokenF1(p, g) == TokenF1(g, p)
    ensures 0.0 <= TokenF1(p, g) <= 1.0
    ensures TokenF1(p, g) == 1.0 <==> multiset(p) == multiset(g)
  {
    hide Overlap, TokenF1;
    OverlapBounds(p, g);
    if p == [] && g == [] {
      EmptyF1();
    } else {
      F1IsDice(p, g);
      F1IsDice(g, p);
      Fraction(2.0 * Overlap(p, g) as real, (|p| + |g|) as real);
    }
  }

  lemma EmptyF1()
    ensures TokenF1([], []) == 1.0
  {
  }

  lemma Fraction(x: real, y: real)
    requires 0.0 <= x <= y && y > 0.0
    ensures 0.0 <= x / y <= 1.0
    ensures x / y == 1.0 <==> x == y
  {
    assert (x / y) * y == x;
  }

  // ---------- scoring against several accepted answers ----------

  /** `max_over_golds` of F1. */
  function MaxF1(prediction: string, golds: seq<string>): real {
    if golds == [] then 0.0
    else if |golds| == 1 then F1(prediction, golds[0])
    else
      var first, rest := F1(prediction, golds[0]), MaxF1(prediction, golds[1..]);
      if first >= rest then first else rest
  }

  /** `_score_extraction` and `_score_rag`: an exact match scores 1 without computing F1. */
  function Score(prediction: string, golds: seq<string>): real {
    if exists g :: g in golds && ExactMatch(prediction, g) then 1.0 else MaxF1(prediction, golds)
  }

  lemma {:induction false} MaxF1IsMax(prediction: string, golds: seq<string>)
    ensures 0.0 <= MaxF1(prediction, golds) <= 1.0
    ensures forall g :: g in golds ==> F1(prediction, g) <= MaxF1(prediction, golds)
    ensures golds != [] ==> exists g :: g in golds && F1(prediction, g) == MaxF1(prediction, golds)
  {
    hide F1;
    if golds != [] {
      F1Bounds(prediction, golds[0]);
      MaxF1IsMax(prediction, golds[1..]);
      assert golds == [golds[0]] + golds[1..];
    }
  }

  lemma F1Bounds(prediction: string, gold: string)
    ensures 0.0 <= F1(prediction, gold) <= 1.0
    ensures ExactMatch(prediction, gold) ==> F1(prediction, gold) == 1.0
  {
    F1IsASimilarity(Tokens(prediction), Tokens(gold));
  }

  /** The exact-match shortcut never changes the score. */
  lemma ShortcutIsHarmless(prediction: string, golds: seq<string>)
    ensures Score(prediction, golds) == MaxF1(prediction, golds)
    ensures 0.0 <= Score(prediction, golds) <= 1.0
  {
    hide F1, ExactMatch;
    MaxF1IsMax(prediction, golds);
    if g :| g in golds && ExactMatch(prediction, g) {
      F1Bounds(prediction, g);
    }
  }

  // ---------- the score of two texts ----------

  /** F1 of two answers is 1 exactly when their normalised words are the same, in any order; otherwise it is twice the number of
      common words over the number of all words, each text counted once. */
  lemma AnswersCompared(prediction: string, gold: string)
    ensures var p, g := Tokens(prediction), Tokens(gold);
            && (F1(prediction, gold) == 1.0 <==> multiset(p) == multiset(g))
            && (p != [] || g != [] ==>
                  F1(prediction, gold) * (|p| + |g|) as real == 2.0 * |multiset(p) * multiset(g)| as real)
            && ((p != [] || g != []) && (forall w :: w in p ==> w !in g) ==> F1(prediction, gold) == 0.0)
  {
    hide Tokens, TokenF1;
    TokensCompared(Tokens(prediction), Tokens(gold));
  }

  lemma TokensCompared(p: seq<string>, g: seq<string>)
    ensures TokenF1(p, g) == 1.0 <==> multiset(p) == multiset(g)
    ensures p != [] || g != [] ==> TokenF1(p, g) * (|p| + |g|) as real == 2.0 * |multiset(p) * multiset(g)| as real
    ensures (p != [] || g != []) && (forall w :: w in p ==> w !in g) ==> TokenF1(p, g) == 0.0
  {
    hide TokenF1, Overlap;
    F1IsASimilarity(p, g);
    if p != [] || g != [] {
      F1IsDice(p, g);
      Divided(2.0 * Overlap(p, g) as real, (|p| + |g|) as real);
      OverlapIsCommon(p, g);
      if forall w :: w in p ==> w !in g {
        NoCommonWord(p, g);
        Divided(0.0, (|p| + |g|) as real);
      }
    }
  }

  lemma OverlapIsCommon(p: seq<string>, g: seq<string>)
    ensures Overlap(p, g) == |multiset(p) * multiset(g)|
  {
  }

  lemma Divided(x: real, y: real)
    requires y != 0.0
    ensures x / y * y == x && 0.0 / y == 0.0
  {
  }

  lemma NoCommonWord(p: seq<string>, g: seq<string>)
    requires forall w :: w in p ==> w !in g
    ensures Overlap(p, g) == 0
  {
    forall w ensures (multiset(p) * multiset(g))[w] == 0 {
      assert w in multiset(p) <==> w in p;
      assert w in multiset(g) <==> w in g;
    }
    assert multiset(p) * multiset(g) == multiset{};
  }
}
