/** The SQLite adapter (src/engines/sqlite-engine.ts): the score mappings of
    its two ranked sources, the FTS5 query string it builds from the query
    text, and its hybrid search. The database is an input: it answers the
    k-NN query of sqlite-vec and the FTS5 MATCH query, each of which may throw. */
module SqliteEngine {
  import opened Common
  import Fusion

  /** A row of the sqlite-vec k-NN query, nearest first. */
  datatype VecRow = VecRow(id: string, distance: Distance)

  /** A row of the FTS5 query, best first (`rank` is BM25, lower is better). */
  datatype FtsRow = FtsRow(id: string, rank: real)

  /** What the database answers for a query embedding and a limit, and for
      an FTS5 query string and a limit. */
  datatype Database = Database(
    knn: (Embedding, nat) -> Result<seq<VecRow>>,
    ftsMatch: (string, nat) -> Result<seq<FtsRow>>)

  // ---------------------------------------------------------------- vector

  /** The row mapping of searchVector: score 1/(1 + distance), row order kept. */
  function VectorResults(rows: seq<VecRow>): (rs: seq<SearchResult>)
    ensures |rs| == |rows|
    ensures forall i :: 0 <= i < |rows| ==> rs[i].docId == rows[i].id && 0.0 < rs[i].score <= 1.0
    ensures forall i, j :: 0 <= i < |rows| && 0 <= j < |rows| ==>
      (rows[i].distance <= rows[j].distance <==> rs[j].score <= rs[i].score)
  {
    var rs := seq(|rows|, i requires 0 <= i < |rows| => SearchResult(rows[i].id, Similarity(rows[i].distance)));
    assert forall i, j :: 0 <= i < |rows| && 0 <= j < |rows| ==>
      (rows[i].distance <= rows[j].distance <==> rs[j].score <= rs[i].score) by {
      forall i, j | 0 <= i < |rows| && 0 <= j < |rows| {
        SimilarityOrder(rows[i].distance, rows[j].distance);
      }
    }
    rs
  }

  /** searchVector (src/engines/sqlite-engine.ts:95-113); a failing query propagates. */
  function SearchVector(db: Database, queryEmbedding: Embedding, topK: nat): (r: Result<seq<SearchResult>>)
    ensures r.Err? <==> db.knn(queryEmbedding, topK).Err?
    ensures r.Err? ==> r.error == db.knn(queryEmbedding, topK).error
    ensures r.Ok? ==> var rows := db.knn(queryEmbedding, topK).value;
      && |r.value| == |rows|
      && (forall i :: 0 <= i < |rows| ==> r.value[i].docId == rows[i].id && 0.0 < r.value[i].score <= 1.0)
      && (forall i, j :: 0 <= i < |rows| && 0 <= j < |rows| ==>
            (rows[i].distance <= rows[j].distance <==> r.value[j].score <= r.value[i].score))
  {
    match db.knn(queryEmbedding, topK)
    case Ok(rows) => Ok(VectorResults(rows))
    case Err(e) => Err(e)
  }

  // ---------------------------------------------------------------- FTS query string

  /** `\w` of a JavaScript regular expression. */
  predicate IsWordChar(c: char) {
    ('A' <= c <= 'Z') || ('a' <= c <= 'z') || ('0' <= c <= '9') || c == '_'
  }

  /** `\s` of a JavaScript regular expression. */
  predicate IsSpace(c: char) {
    || c == ' ' || c == '\t' || c == '\n' || c == '\r' || c == '\U{000B}' || c == '\U{000C}'
    || c == '\U{00A0}' || c == '\U{1680}' || ('\U{2000}' <= c <= '\U{200A}')
    || c == '\U{2028}' || c == '\U{2029}' || c == '\U{202F}' || c == '\U{205F}'
    || c == '\U{3000}' || c == '\U{FEFF}'
  }

  /** `replace(/[^\w\s]/g, "")`: drop every character that is neither a
      word character nor whitespace. */
  function Strip(s: string): (r: string)
    ensures forall c :: c in r <==> c in s && (IsWordChar(c) || IsSpace(c))
  {
    if s == [] then []
    else (if IsWordChar(s[0]) || IsSpace(s[0]) then [s[0]] else []) + Strip(s[1..])
  }

  /** Drop leading whitespace. */
  function SkipSpaces(s: string): (r: string)
    ensures |r| <= |s| && r == s[|s| - |r|..]
    ensures r == [] || !IsSpace(r[0])
  {
    if s != [] && IsSpace(s[0]) then SkipSpaces(s[1..]) else s
  }

  /** `split(/\s+/)` continued from a piece `cur` already read: every run of
      whitespace ends a piece, so leading or trailing whitespace yields an
      empty piece, as in JavaScript. */
  function SplitFrom(s: string, cur: string): (pieces: seq<string>)
    requires forall c :: c in cur ==> !IsSpace(c)
    ensures |pieces| > 0
    decreases |s|
  {
    if s == [] then [cur]
    else if IsSpace(s[0]) then [cur] + SplitFrom(SkipSpaces(s[1..]), [])
    else SplitFrom(s[1..], cur + [s[0]])
  }

  /** The pieces hold no whitespace and only characters of the input. */
  lemma {:induction false} SplitFromChars(s: string, cur: string)
    requires forall c :: c in cur ==> !IsSpace(c)
    ensures forall p :: p in SplitFrom(s, cur) ==> forall c :: c in p ==> (c in cur || c in s) && !IsSpace(c)
    decreases |s|
  {
    if s != [] {
      if IsSpace(s[0]) {
        var r := SkipSpaces(s[1..]);
        SplitFromChars(r, []);
        assert forall c :: c in r ==> c in s;
      } else {
        SplitFromChars(s[1..], cur + [s[0]]);
      }
    }
  }

  function SplitWs(s: string): seq<string> {
    SplitFrom(s, [])
  }

  /** `filter((w) => w.length > 1)`. */
  function Keep(ts: seq<string>): (r: seq<string>)
    ensures forall t :: t in r <==> t in ts && |t| > 1
  {
    if ts == [] then []
    else (if |ts[0]| > 1 then [ts[0]] else []) + Keep(ts[1..])
  }

  /** `join(sep)`. */
  function Join(ts: seq<string>, sep: string): (r: string)
    ensures ts != [] && |ts[0]| > 0 ==> r != []
  {
    if ts == [] then []
    else if |ts| == 1 then ts[0]
    else ts[0] + sep + Join(ts[1..], sep)
  }

  /** Every character of the joined string comes from the separator or a piece. */
  lemma {:induction false} JoinChars(ts: seq<string>, sep: string)
    ensures forall c :: c in Join(ts, sep) ==> c in sep || exists t :: t in ts && c in t
  {
    if |ts| > 1 {
      JoinChars(ts[1..], sep);
      forall c | c in Join(ts, sep)
        ensures c in sep || exists t :: t in ts && c in t
      {
        if c in ts[0] {
          assert ts[0] in ts;
        } else if c !in sep {
          var t :| t in ts[1..] && c in t;
          assert t in ts;
        }
      }
    } else if |ts| == 1 {
      assert ts[0] in ts;
    }
  }

  const OR_SEPARATOR: string := " OR "

  /** The tokens searchFTS keeps from the query text: words of at least two
      word characters, each character taken from the query. */
  function QueryTokens(queryText: string): (ts: seq<string>)
    ensures forall t :: t in ts ==> |t| > 1 && forall c :: c in t ==> IsWordChar(c) && c in queryText
  {
    SplitFromChars(Strip(queryText), []);
    Keep(SplitWs(Strip(queryText)))
  }

  /** The FTS5 query string of searchFTS (src/engines/sqlite-engine.ts:116-120).
      It holds only word characters and spaces, so no FTS5 operator character
      (quote, parenthesis, `*`, `^`, `:`, `-`, `+`) reaches the database; it is
      empty exactly when no token survives. Word tokens are kept as they are,
      so an upper-case AND, OR or NOT of the user's text survives as an FTS5
      keyword (`KeywordSurvives`), and the MATCH then fails. */
  function FtsQuery(queryText: string): (q: string)
    ensures forall c :: c in q ==> IsWordChar(c) || c == ' '
    ensures q == [] <==> QueryTokens(queryText) == []
  {
    var ts := QueryTokens(queryText);
    JoinWordChars(ts);
    Join(ts, OR_SEPARATOR)
  }

  /** Words joined with " OR " hold only word characters and spaces. */
  lemma JoinWordChars(ts: seq<string>)
    requires forall t :: t in ts ==> forall c :: c in t ==> IsWordChar(c)
    ensures forall c :: c in Join(ts, OR_SEPARATOR) ==> IsWordChar(c) || c == ' '
  {
    JoinChars(ts, OR_SEPARATOR);
    forall c | c in Join(ts, OR_SEPARATOR)
      ensures IsWordChar(c) || c == ' '
    {
      if c !in OR_SEPARATOR {
        var t :| t in ts && c in t;
      }
    }
  }


  /** Alternating tokens with a word: [t1, w, t2, w, ..., tn]. */
  function Interleave(ts: seq<string>, w: string): seq<string> {
    if |ts| <= 1 then ts else [ts[0], w] + Interleave(ts[1..], w)
  }

  lemma {:induction false} SplitFromWord(t: string, rest: string, cur: string)
    requires forall c :: c in cur ==> !IsSpace(c)
    requires forall c :: c in t ==> !IsSpace(c)
    ensures SplitFrom(t + rest, cur) == SplitFrom(rest, cur + t)
  {
    if t == [] {
      assert t + rest == rest;
      assert cur + t == cur;
    } else {
      assert (t + rest)[1..] == t[1..] + rest;
      assert cur + t == (cur + [t[0]]) + t[1..];
      SplitFromWord(t[1..], rest, cur + [t[0]]);
    }
  }

  /** Reading a word from the start is reading the rest with the word in hand. */
  lemma SplitFromWordStart(t: string, rest: string)
    requires forall c :: c in t ==> !IsSpace(c)
    ensures SplitFrom(t + rest, []) == SplitFrom(rest, t)
  {
    SplitFromWord(t, rest, []);
    assert [] + t == t;
  }

  /** One separator: a token, " OR ", then text starting with a non-space. */
  lemma SplitOrStep(t: string, j: string)
    requires forall c :: c in t ==> !IsSpace(c)
    requires j != [] && !IsSpace(j[0])
    ensures SplitFrom(t + OR_SEPARATOR + j, []) == [t, "OR"] + SplitFrom(j, [])
  {
    var tail := OR_SEPARATOR + j;
    assert t + OR_SEPARATOR + j == t + tail;
    SplitFromWordStart(t, tail);
    SpaceStep(t, j);
    OrStep(j);
    var after := SplitFrom(j, []);
    assert [t] + (["OR"] + after) == [t, "OR"] + after;
  }

  /** The space before OR ends the token being read. */
  lemma SpaceStep(t: string, j: string)
    requires forall c :: c in t ==> !IsSpace(c)
    ensures SplitFrom(OR_SEPARATOR + j, t) == [t] + SplitFrom("OR " + j, [])
  {
    var tail := OR_SEPARATOR + j;
    assert tail[0] == ' ' && tail[1..] == "OR " + j;
    assert SkipSpaces(tail[1..]) == "OR " + j;
  }

  lemma OrStep(j: string)
    requires j != [] && !IsSpace(j[0])
    ensures SplitFrom("OR " + j, []) == ["OR"] + SplitFrom(j, [])
  {
    var tail := " " + j;
    assert "OR " + j == "OR" + tail;
    SplitFromWordStart("OR", tail);
    assert tail[1..] == j;
    assert SkipSpaces(j) == j;
  }

  /** Splitting the joined query on whitespace gives back the tokens with
      OR between them. */
  lemma {:induction false} SplitJoin(ts: seq<string>)
    requires |ts| > 0
    requires forall t :: t in ts ==> |t| > 0 && forall c :: c in t ==> !IsSpace(c)
    ensures SplitWs(Join(ts, OR_SEPARATOR)) == Interleave(ts, "OR")
  {
    if |ts| == 1 {
      assert ts[0] in ts;
      assert Join(ts, OR_SEPARATOR) == ts[0] + [];
      SplitFromWord(ts[0], [], []);
      assert [] + ts[0] == ts[0];
    } else {
      var j := Join(ts[1..], OR_SEPARATOR);
      assert ts[1] in ts;
      assert j != [] && j[0] == ts[1][0] by {
        if |ts[1..]| > 1 {
          assert j == ts[1] + OR_SEPARATOR + Join(ts[2..], OR_SEPARATOR);
        }
      }
      assert ts[1][0] in ts[1];
      assert ts[0] in ts;
      SplitOrStep(ts[0], j);
      SplitJoin(ts[1..]);
    }
  }

  /** A word of the user's text is kept as a token as it is, so an upper-case
      keyword survives: "cats NOT dogs" becomes `cats OR NOT OR dogs`, which
      FTS5 cannot parse, and searchFTS's catch then returns no results. */
  lemma KeywordSurvives(w1: string, k: string, w2: string)
    requires IsToken(w1) && IsToken(k) && IsToken(w2)
    ensures FtsQuery(w1 + " " + k + " " + w2) == w1 + OR_SEPARATOR + (k + OR_SEPARATOR + w2)
  {
    var text := w1 + " " + k + " " + w2;
    var ts := [w1, k, w2];
    TokensOfWords(w1, k, w2);
    assert ts[1..] == [k, w2] && ts[1..][1..] == [w2];
    assert Join([w2], OR_SEPARATOR) == w2;
    assert Join([k, w2], OR_SEPARATOR) == k + OR_SEPARATOR + w2;
    assert FtsQuery(text) == Join(ts, OR_SEPARATOR);
  }

  /** Three words separated by single spaces are three tokens. */
  lemma TokensOfWords(w1: string, k: string, w2: string)
    requires IsToken(w1) && IsToken(k) && IsToken(w2)
    ensures QueryTokens(w1 + " " + k + " " + w2) == [w1, k, w2]
  {
    var text := w1 + " " + k + " " + w2;
    assert forall c :: c in text ==> IsWordChar(c) || IsSpace(c) by {
      assert forall c :: c in text ==> c in w1 || c == ' ' || c in k || c in w2;
    }
    StripKeeps(text);
    SplitWords3(w1, k, w2);
    KeepTokens([w1, k, w2]);
  }

  /** Three words separated by single spaces split into those three words. */
  lemma SplitWords3(w1: string, k: string, w2: string)
    requires IsToken(w1) && IsToken(k) && IsToken(w2)
    ensures SplitWs(w1 + " " + k + " " + w2) == [w1, k, w2]
  {
    var tail := k + " " + w2;
    assert w1 + " " + k + " " + w2 == w1 + " " + tail;
    SplitWords(w1, tail);
    SplitWords(k, w2);
    SplitOne(w2);
  }

  /** A word of at least two word characters: what the filter keeps. */
  predicate IsToken(w: string) {
    |w| > 1 && forall c :: c in w ==> IsWordChar(c)
  }

  /** A word followed by one space: the word is a piece of its own. */
  lemma SplitWords(w: string, rest: string)
    requires IsToken(w) && rest != [] && IsWordChar(rest[0])
    ensures SplitFrom(w + " " + rest, []) == [w] + SplitFrom(rest, [])
  {
    assert w + " " + rest == w + (" " + rest);
    SplitWord(w, " " + rest, []);
    assert [] + w == w;
    SplitSpace(rest, w);
  }

  /** A word alone is one piece. */
  lemma SplitOne(w: string)
    requires IsToken(w)
    ensures SplitFrom(w, []) == [w]
  {
    assert w + [] == w && [] + w == w;
    SplitWord(w, [], []);
  }

  /** The filter keeps a list made of tokens as it is. */
  lemma {:induction false} KeepTokens(ts: seq<string>)
    requires forall t :: t in ts ==> |t| > 1
    ensures Keep(ts) == ts
  {
    if ts != [] {
      assert forall t :: t in ts[1..] ==> t in ts;
      KeepTokens(ts[1..]);
    }
  }

  /** One space ends the current piece; the next piece starts at a word. */
  lemma SplitSpace(rest: string, cur: string)
    requires forall c :: c in cur ==> !IsSpace(c)
    requires rest != [] && IsWordChar(rest[0])
    ensures SplitFrom(" " + rest, cur) == [cur] + SplitFrom(rest, [])
  {
    assert (" " + rest)[1..] == rest;
  }

  /** `Strip` keeps a text made of word characters and whitespace. */
  lemma {:induction false} StripKeeps(s: string)
    requires forall c :: c in s ==> IsWordChar(c) || IsSpace(c)
    ensures Strip(s) == s
  {
    if s != [] {
      assert forall c :: c in s[1..] ==> c in s;
      StripKeeps(s[1..]);
    }
  }

  /** A word read into the current piece: the piece grows by the word. */
  lemma {:induction false} SplitWord(w: string, rest: string, cur: string)
    requires forall c :: c in cur ==> !IsSpace(c)
    requires forall c :: c in w ==> !IsSpace(c)
    ensures SplitFrom(w + rest, cur) == SplitFrom(rest, cur + w)
    decreases |w|
  {
    if w != [] {
      assert (w + rest)[1..] == w[1..] + rest;
      assert cur + [w[0]] + w[1..] == cur + w;
      SplitWord(w[1..], rest, cur + [w[0]]);
    } else {
      assert w + rest == rest && cur + w == cur;
    }
  }

  /** The query string lists exactly the kept tokens, in their order,
      separated by OR. */
  lemma FtsQueryTokens(queryText: string)
    requires QueryTokens(queryText) != []
    ensures SplitWs(FtsQuery(queryText)) == Interleave(QueryTokens(queryText), "OR")
  {
    SplitJoin(QueryTokens(queryText));
  }

  // ---------------------------------------------------------------- FTS search

  /** The row mapping of searchFTS: score is the negated rank, row order kept. */
  function FtsResults(rows: seq<FtsRow>): (rs: seq<SearchResult>)
    ensures |rs| == |rows|
    ensures forall i :: 0 <= i < |rows| ==> rs[i].docId == rows[i].id
    ensures forall i, j :: 0 <= i < |rows| && 0 <= j < |rows| ==>
      (rows[i].rank <= rows[j].rank <==> rs[j].score <= rs[i].score)
  {
    seq(|rows|, i requires 0 <= i < |rows| => SearchResult(rows[i].id, -rows[i].rank))
  }

  /** searchFTS (src/engines/sqlite-engine.ts:115-140): any exception gives []. */
  function SearchFTS(db: Database, queryText: string, topK: nat): (rs: seq<SearchResult>)
    ensures db.ftsMatch(FtsQuery(queryText), topK).Err? ==> rs == []
    ensures db.ftsMatch(FtsQuery(queryText), topK).Ok? ==>
      Ids(rs) == Ids(FtsResults(db.ftsMatch(FtsQuery(queryText), topK).value))
  {
    match db.ftsMatch(FtsQuery(queryText), topK)
    case Ok(rows) => FtsResults(rows)
    case Err(_) => []
  }

  // ---------------------------------------------------------------- hybrid

  /** searchHybrid (src/engines/sqlite-engine.ts:142-165): topK*2 from each
      source, vector list inserted first, fused by RRF. */
  method SearchHybrid(db: Database, queryText: string, queryEmbedding: Embedding, topK: nat)
    returns (r: Result<seq<SearchResult>>)
    ensures r.Err? <==> db.knn(queryEmbedding, topK * 2).Err?
    ensures r.Ok? ==> Fusion.IsFusion(
      Ids(SearchVector(db, queryEmbedding, topK * 2).value),
      Ids(SearchFTS(db, queryText, topK * 2)), topK, r.value)
  {
    var vecResults := SearchVector(db, queryEmbedding, topK * 2);
    if vecResults.Err? {
      return Err(vecResults.error);
    }
    var ftsResults := SearchFTS(db, queryText, topK * 2);
    var fused := Fusion.Fuse(Ids(vecResults.value), Ids(ftsResults), topK);
    r := Ok(fused);
  }
}
