/** The SQL display of the chat front end (`formatar_sql`): seven fixed
    keywords are wrapped, one after the other, in a bold blue span, and the
    result is wrapped in a grey `<pre>` block. Matching is Python's
    case-sensitive `str.replace`. */
module SqlHighlight {
  import opened Text

  /** The keywords, in the order the replacements run. */
  const Keywords: seq<string> := ["SELECT", "FROM", "WHERE", "GROUP BY", "ORDER BY", "JOIN", "UNION"]

  const SpanStyle := "span style='color: blue; font-weight: bold;'"
  const SpanEnd := "/span"
  const SpanOpen := "<" + SpanStyle + ">"
  const SpanClose := "<" + SpanEnd + ">"
  const PreOpen := "<pre style='background-color: #f0f0f0; padding: 10px; border-radius: 5px;'>"
  const PreClose := "</pre>"

  function Span(keyword: string): string {
    SpanOpen + keyword + SpanClose
  }

  /** Replaces every occurrence of each keyword, in list order, by its span. */
  function HighlightAll(query: string, keywords: seq<string>): string
    decreases |keywords|
  {
    if |keywords| == 0 then query
    else HighlightAll(Replace(query, keywords[0], Span(keywords[0])), keywords[1..])
  }

  /** `formatar_sql(query)`: the highlighted text inside the `<pre>` block. */
  function FormatSql(query: string): (r: string)
    ensures |r| >= |PreOpen| + |PreClose|
    ensures r[..|PreOpen|] == PreOpen && r[|r| - |PreClose|..] == PreClose
  {
    var r := PreOpen + HighlightAll(query, Keywords) + PreClose;
    assert r[..|PreOpen|] == PreOpen;
    r
  }

  /** A keyword is upper-case letters and spaces, beginning and ending
      with a letter. */
  predicate IsKeywordText(p: string) {
    && |p| > 0 && 'A' <= p[0] <= 'Z' && 'A' <= p[|p| - 1] <= 'Z'
    && forall j :: 0 <= j < |p| ==> ('A' <= p[j] <= 'Z' || p[j] == ' ')
  }

  predicate HasNoUpperCase(s: string) {
    forall j :: 0 <= j < |s| ==> !('A' <= s[j] <= 'Z')
  }

  lemma KeywordsAreUpperCase()
    ensures forall k | k in Keywords :: IsKeywordText(k)
  {
  }

  lemma KeywordsAreLong(i: nat)
    requires i < |Keywords|
    ensures |Keywords[i]| >= 4
  {
  }

  /** Text without any of the keywords passes through every replacement. */
  lemma {:induction false} HighlightAbsent(query: string, keywords: seq<string>)
    requires forall k | k in keywords :: |k| > 0 && !Contains(query, k)
    ensures HighlightAll(query, keywords) == query
    decreases |keywords|
  {
    if |keywords| > 0 {
      ReplaceAbsent(query, keywords[0], Span(keywords[0]));
      HighlightAbsent(query, keywords[1..]);
    }
  }

  /** A query containing none of the seven keywords is shown unchanged. */
  lemma QueryWithoutKeywordsUnchanged(query: string)
    requires forall k | k in Keywords :: !Contains(query, k)
    ensures FormatSql(query) == PreOpen + query + PreClose
  {
    KeywordsAreUpperCase();
    HighlightAbsent(query, Keywords);
  }

  /** Matching is case-sensitive: a query written without upper-case
      letters, such as `select * from t`, is shown unchanged. */
  lemma LowerCaseQueryUnchanged(query: string)
    requires HasNoUpperCase(query)
    ensures FormatSql(query) == PreOpen + query + PreClose
  {
    KeywordsAreUpperCase();
    forall k | k in Keywords
      ensures !Contains(query, k)
    {
      MissingFirstChar(query, k);
    }
    QueryWithoutKeywordsUnchanged(query);
  }

  /** A span already in place comes through the later replacements intact
      when neither its keyword nor the text after it holds a later keyword. */
  lemma {:induction false} SpanStays(keyword: string, rest: string, keywords: seq<string>)
    requires forall k | k in keywords :: IsKeywordText(k) && !Contains(keyword, k) && !Contains(rest, k)
    ensures HighlightAll(Span(keyword) + rest, keywords) == Span(keyword) + rest
    decreases |keywords|
  {
    if |keywords| > 0 {
      SpanUnchangedBy(keyword, rest, keywords[0]);
      SpanStays(keyword, rest, keywords[1..]);
    }
  }

  lemma SpanUnchangedBy(keyword: string, rest: string, k: string)
    requires IsKeywordText(k) && !Contains(keyword, k) && !Contains(rest, k)
    ensures Replace(Span(keyword) + rest, k, Span(k)) == Span(keyword) + rest
  {
    var empty: string := [];
    MarkupSurvives(empty, keyword, rest, k);
    assert empty + Span(keyword) == Span(keyword);
    ReplaceAbsent(keyword, k, Span(k));
    ReplaceAbsent(rest, k, Span(k));
    ShorterAbsent(empty, k);
    ReplaceAbsent(empty, k, Span(k));
    assert empty + SpanOpen == SpanOpen;
  }

  /** Matching is by substring: in `SELECTED` the first six letters are
      wrapped and `ED` is left outside the span. */
  lemma SelectedIsPartlyWrapped(query: string)
    requires query == "SELECTED"
    ensures FormatSql(query) == PreOpen + (Span("SELECT") + "ED") + PreClose
  {
    var select := Keywords[0];
    assert select == "SELECT";
    assert query == "" + select + "ED";
    assert "" + select[..5] == "SELEC";
    ShorterAbsent("SELEC", select);
    ReplaceFirst("", select, "ED", Span(select));
    ShorterAbsent("ED", select);
    ReplaceAbsent("ED", select, Span(select));
    assert Replace(query, select, Span(select)) == Span(select) + "ED";
    KeywordsAreUpperCase();
    forall k | k in Keywords[1..]
      ensures IsKeywordText(k) && !Contains(select, k) && !Contains("ED", k)
    {
      var i :| 0 <= i < |Keywords[1..]| && Keywords[1..][i] == k;
      assert Keywords[i + 1] == k && k in Keywords;
      OtherKeywordAbsent(0, i + 1);
      KeywordsAreLong(i + 1);
      ShorterAbsent("ED", k);
    }
    SpanStays(select, "ED", Keywords[1..]);
  }

  /** The inserted markup holds none of the keywords: a later replacement
      rewrites what lies around a span and the keyword inside it, never the
      span's own tags. */
  lemma MarkupSurvives(a: string, keyword: string, b: string, k: string)
    requires IsKeywordText(k)
    ensures Replace(a + Span(keyword) + b, k, Span(k)) ==
      Replace(a, k, Span(k)) + SpanOpen + Replace(keyword, k, Span(k)) + SpanClose + Replace(b, k, Span(k))
  {
    KeywordNotInMarkup(k);
    assert forall i :: 0 <= i < |k| ==> k[i] != '<' && k[i] != '>';
    TagsSurvive(a, SpanStyle, keyword, SpanEnd, b, k, Span(k));
  }

  /** The span's tags hold no upper-case letter, hence no keyword. */
  lemma KeywordNotInMarkup(k: string)
    requires IsKeywordText(k)
    ensures !Contains(SpanStyle, k) && !Contains(SpanEnd, k)
  {
    TagsHaveNoUpperCase();
    NoUpperCaseHasNoKeyword(SpanStyle, k);
    NoUpperCaseHasNoKeyword(SpanEnd, k);
  }

  lemma TagsHaveNoUpperCase()
    ensures HasNoUpperCase(SpanStyle) && HasNoUpperCase(SpanEnd)
  {
    StyleHasNoUpperCase();
    EndHasNoUpperCase();
  }

  lemma StyleHasNoUpperCase()
    ensures HasNoUpperCase(SpanStyle)
  {
  }

  lemma EndHasNoUpperCase()
    ensures HasNoUpperCase(SpanEnd)
  {
  }

  /** Text without upper-case letters contains no keyword. */
  lemma NoUpperCaseHasNoKeyword(s: string, k: string)
    requires HasNoUpperCase(s) && IsKeywordText(k)
    ensures !Contains(s, k)
  {
    MissingFirstChar(s, k);
  }

  /** Two tags `<x>` and `<y>` around `m` come through a replacement of a
      pattern found in neither tag and holding no angle bracket. */
  lemma TagsSurvive(a: string, x: string, m: string, y: string, b: string, k: string, w: string)
    requires |k| > 0 && forall i :: 0 <= i < |k| ==> k[i] != '<' && k[i] != '>'
    requires !Contains(x, k) && !Contains(y, k)
    ensures Replace(a + (("<" + x + ">") + m + ("<" + y + ">")) + b, k, w) ==
      Replace(a, k, w) + ("<" + x + ">") + Replace(m, k, w) + ("<" + y + ">") + Replace(b, k, w)
  {
    var rest := m + "<" + y + ">" + b;
    var open, close := "<" + x + ">", "<" + y + ">";
    assert a + (open + m + close) + b == a + "<" + x + ">" + rest by {
      ConcatAssoc(a, open, m, close);
    }
    TagSurvives(a, x, rest, k, w);
    TagSurvives(m, y, b, k, w);
    var ra, rm, rb := Replace(a, k, w), Replace(m, k, w), Replace(b, k, w);
    assert ra + "<" + x + ">" == ra + open by { ConcatAssoc(ra, "<", x, ">"); }
    assert rm + "<" + y + ">" + rb == rm + close + rb by { ConcatAssoc(rm, "<", y, ">"); }
    ConcatAssoc(ra + open, rm, close, rb);
  }

  lemma TagSurvives(a: string, x: string, rest: string, k: string, w: string)
    requires |k| > 0 && forall i :: 0 <= i < |k| ==> k[i] != '<' && k[i] != '>'
    requires !Contains(x, k)
    ensures Replace(a + "<" + x + ">" + rest, k, w) == Replace(a, k, w) + "<" + x + ">" + Replace(rest, k, w)
  {
    ReplaceAbsent(x, k, w);
    assert a + "<" + x + ">" + rest == a + "<" + (x + ">" + rest);
    ReplaceAround(a, '<', x + ">" + rest, k, w);
    ReplaceAround(x, '>', rest, k, w);
  }

  /** One keyword of the list with text around it that holds no upper-case
      letter, such as `SELECT name, ` or ` FROM t`. */
  datatype Phrase = Phrase(before: string, index: nat, after: string)

  /** A character that is in no keyword: neither an upper-case letter nor
      a space. */
  predicate IsSeparator(c: char) {
    !('A' <= c <= 'Z') && c != ' '
  }

  /** Phrases joined by separators, each phrase's keyword in the list. */
  predicate ValidPhrases(phrases: seq<Phrase>, seps: seq<char>) {
    && |phrases| == |seps| + 1
    && (forall i :: 0 <= i < |phrases| ==>
          phrases[i].index < |Keywords| && HasNoUpperCase(phrases[i].before) && HasNoUpperCase(phrases[i].after))
    && (forall i :: 0 <= i < |seps| ==> IsSeparator(seps[i]))
  }

  /** The phrase after the replacements of the first `j` keywords: its
      keyword is wrapped when it is one of them. */
  function PhraseAt(p: Phrase, j: nat): string
    requires p.index < |Keywords|
  {
    p.before + (if p.index < j then Span(Keywords[p.index]) else Keywords[p.index]) + p.after
  }

  /** The phrases joined by their separators, after `j` replacements. */
  function Sentence(phrases: seq<Phrase>, seps: seq<char>, j: nat): string
    requires ValidPhrases(phrases, seps)
    decreases |seps|
  {
    if |seps| == 0 then PhraseAt(phrases[0], j)
    else PhraseAt(phrases[0], j) + [seps[0]] + Sentence(phrases[1..], seps[1..], j)
  }

  /** Every occurrence of a keyword is highlighted: a query made of keyword
      phrases joined by separators is shown with each keyword wrapped in
      its span and every other character as it was. */
  lemma HighlightsEveryKeyword(phrases: seq<Phrase>, seps: seq<char>)
    requires ValidPhrases(phrases, seps)
    ensures FormatSql(Sentence(phrases, seps, 0)) == PreOpen + Sentence(phrases, seps, |Keywords|) + PreClose
  {
    HighlightStages(phrases, seps, 0);
    assert Keywords[0..] == Keywords;
  }

  lemma {:induction false} HighlightStages(phrases: seq<Phrase>, seps: seq<char>, j: nat)
    requires ValidPhrases(phrases, seps) && j <= |Keywords|
    ensures HighlightAll(Sentence(phrases, seps, j), Keywords[j..]) == Sentence(phrases, seps, |Keywords|)
    decreases |Keywords| - j
  {
    if j < |Keywords| {
      var rest := Keywords[j..];
      assert rest[0] == Keywords[j] && rest[1..] == Keywords[j + 1..];
      SentenceStep(phrases, seps, j);
      HighlightStages(phrases, seps, j + 1);
    } else {
      assert Keywords[j..] == [];
    }
  }

  /** The replacement of keyword `j` wraps exactly the phrases of keyword `j`. */
  lemma {:induction false} SentenceStep(phrases: seq<Phrase>, seps: seq<char>, j: nat)
    requires ValidPhrases(phrases, seps) && j < |Keywords|
    ensures Replace(Sentence(phrases, seps, j), Keywords[j], Span(Keywords[j])) == Sentence(phrases, seps, j + 1)
    decreases |seps|
  {
    var k := Keywords[j];
    KeywordsAreUpperCase();
    assert k in Keywords;
    PhraseStep(phrases[0], j);
    if |seps| > 0 {
      var c := seps[0];
      assert IsSeparator(c);
      assert forall i :: 0 <= i < |k| ==> k[i] != c;
      assert ValidPhrases(phrases[1..], seps[1..]);
      SentenceStep(phrases[1..], seps[1..], j);
      ReplaceAround(PhraseAt(phrases[0], j), c, Sentence(phrases[1..], seps[1..], j), k, Span(k));
    }
  }

  /** One phrase under the replacement of keyword `j`. */
  lemma PhraseStep(p: Phrase, j: nat)
    requires p.index < |Keywords| && j < |Keywords|
    requires HasNoUpperCase(p.before) && HasNoUpperCase(p.after)
    ensures Replace(PhraseAt(p, j), Keywords[j], Span(Keywords[j])) == PhraseAt(p, j + 1)
  {
    var k, mine := Keywords[j], Keywords[p.index];
    KeywordsAreUpperCase();
    assert k in Keywords && mine in Keywords;
    if p.index < j {
      OtherKeywordAbsent(p.index, j);
      WrappedPhraseStep(p.before, mine, p.after, k);
    } else if p.index == j {
      OwnPhraseStep(p.before, k, p.after);
    } else {
      OtherKeywordAbsent(p.index, j);
      LaterPhraseStep(p.before, mine, p.after, k);
    }
  }

  /** An earlier keyword's span and the text around it stay as they are. */
  lemma WrappedPhraseStep(v: string, m: string, u: string, k: string)
    requires HasNoUpperCase(v) && HasNoUpperCase(u) && IsKeywordText(k)
    requires !Contains(m, k)
    ensures Replace(v + Span(m) + u, k, Span(k)) == v + Span(m) + u
  {
    var w := Span(k);
    NoUpperCaseHasNoKeyword(v, k);
    NoUpperCaseHasNoKeyword(u, k);
    ReplaceAbsent(v, k, w);
    ReplaceAbsent(u, k, w);
    ReplaceAbsent(m, k, w);
    MarkupSurvives(v, m, u, k);
    SpanRegroup(v, m, u);
  }

  lemma SpanRegroup(v: string, m: string, u: string)
    ensures v + SpanOpen + m + SpanClose + u == v + Span(m) + u
  {
    var o, c := SpanOpen, SpanClose;
    assert Span(m) == o + m + c;
    ConcatAssoc(v, o, m, c);
  }

  /** The phrase's own keyword is wrapped, the text around it kept. */
  lemma OwnPhraseStep(v: string, k: string, u: string)
    requires HasNoUpperCase(v) && HasNoUpperCase(u) && IsKeywordText(k)
    ensures Replace(v + k + u, k, Span(k)) == v + Span(k) + u
  {
    var w := Span(k);
    var head := k[..|k| - 1];
    ShorterAbsent(head, k);
    NoUpperCaseHasNoKeyword(u, k);
    ReplaceAbsent(u, k, w);
    var empty: string := [];
    assert HasNoUpperCase(empty) && v + head + empty == v + head;
    if Contains(v + head, k) {
      OccurrenceInside(v, head, empty, k);
    }
    ReplaceFirst(v, k, u, w);
  }

  /** A later keyword, and the text around it, hold no earlier keyword. */
  lemma LaterPhraseStep(v: string, m: string, u: string, k: string)
    requires HasNoUpperCase(v) && HasNoUpperCase(u) && IsKeywordText(k)
    requires !Contains(m, k)
    ensures Replace(v + m + u, k, Span(k)) == v + m + u
  {
    if Contains(v + m + u, k) {
      OccurrenceInside(v, m, u, k);
    }
    ReplaceAbsent(v + m + u, k, Span(k));
  }

  /** A keyword found in `v + m + u`, where `v` and `u` hold no upper-case
      letter, lies inside `m`: it begins and ends with a letter. */
  lemma OccurrenceInside(v: string, m: string, u: string, k: string)
    requires HasNoUpperCase(v) && HasNoUpperCase(u) && IsKeywordText(k)
    requires Contains(v + m + u, k)
    ensures Contains(m, k)
  {
    var s := v + m + u;
    var i := ContainsPosition(s, k);
    assert s[i] == k[0];
    assert s[i + |k| - 1] == k[|k| - 1];
    assert |v| <= i;
    assert i + |k| <= |v| + |m|;
    assert m[i - |v|..i - |v| + |k|] == s[i..i + |k|];
    ContainsAt(m, k, i - |v|);
  }

  predicate MatchAt(s: string, part: string, i: nat) {
    i + |part| <= |s| && s[i..i + |part|] == part
  }

  lemma AbsentAtEveryPosition(s: string, part: string)
    requires forall i: nat :: !MatchAt(s, part, i)
    ensures !Contains(s, part)
  {
    if Contains(s, part) {
      var i := ContainsPosition(s, part);
      assert MatchAt(s, part, i);
    }
  }

  /** No keyword occurs inside another. */
  lemma OtherKeywordAbsent(a: nat, b: nat)
    requires a < |Keywords| && b < |Keywords| && a != b
    ensures !Contains(Keywords[a], Keywords[b])
  {
    var s, k := Keywords[a], Keywords[b];
    if b == 4 {
      if a == 3 {
        forall i: nat
          ensures !MatchAt(s, k, i)
        {
          if i + |k| <= |s| {
            assert s[i] != k[0];
          }
        }
        AbsentAtEveryPosition(s, k);
      } else {
        ShorterAbsent(s, k);
      }
    } else if b == 6 && a == 3 {
      forall i: nat
        ensures !MatchAt(s, k, i)
      {
        if i + |k| > |s| {
        } else if i == 3 {
          assert s[i + 1] != k[1];
        } else {
          assert s[i] != k[0];
        }
      }
      AbsentAtEveryPosition(s, k);
    } else {
      assert forall i :: 0 <= i < |s| ==> s[i] != k[0];
      MissingFirstChar(s, k);
    }
  }
}
