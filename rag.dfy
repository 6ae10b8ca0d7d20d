/**
 * The retrieval-augmented response pipeline of the chat server: the corpus with its
 * built-in fallback, the per-document embedding cache filled on demand, the ranking of
 * scored documents (stable sort, first `topK`, relevance threshold), and the answer
 * assembled from a completion with its confidence level.
 *
 * The embedding provider, the completion provider and the similarity measure are
 * opaque functions passed in as parameters; `None` from a provider is a thrown error.
 */
module Rag {
  import opened Wrappers
  import opened Text

  type Vector = seq<real>

  /** A knowledge-base document. */
  datatype Document = Document(id: string, title: string, content: string, category: string, url: string)

  /** A document together with its similarity to the query (`{...item, similarity}`). */
  datatype Scored = Scored(doc: Document, similarity: real)

  datatype Role = SystemRole | UserRole | AssistantRole
  datatype Message = Message(role: Role, content: string)

  datatype Confidence = High | Low

  /** What `generateResponse` returns. */
  datatype Answer = Answer(response: string, relevantContent: seq<Scored>, confidence: Confidence)

  /**
   * One record of the pre-computed embeddings file; `None` is a record whose `embedding`
   * is null or missing.
   */
  datatype EmbeddingRecord = EmbeddingRecord(id: string, embedding: Option<Vector>)

  /**
   * What reading and parsing the two data files produced; `None` stands for a file that
   * could not be read or parsed.
   */
  datatype DataFiles = DataFiles(knowledgeBase: Option<seq<Document>>, embeddings: Option<seq<EmbeddingRecord>>)

  const RelevanceThreshold: real := 0.7
  const DefaultTopK: nat := 3

  /** The fixed text of every degraded answer. */
  const Apology: string := ("I apologize, but I'm experiencing " +
    "technical difficulties. Please try " +
    "again or contact our support team " +
    "directly.")

  // ---------------------------------------------------------------------------
  // Corpus loading
  // ---------------------------------------------------------------------------

  /** The three built-in documents used when the knowledge-base file is unavailable. */
  function DefaultKnowledgeBase(): (r: seq<Document>)
    ensures |r| == 3
    ensures r[0].id == "about-metalogics" && r[1].id == "services-overview" && r[2].id == "contact-info"
    ensures forall k :: 0 <= k < |r| ==> r[k].content != []
  {
    [ Document("about-metalogics", "About Metalogics",
        ("Metalogics is a leading technology " +
          "company specializing in innovative " +
          "software solutions, AI development, and " +
          "digital transformation services. We " +
          "help businesses leverage cutting-edge " +
          "technology to achieve their goals."),
        "company", "https://metalogics.io/about"),
      Document("services-overview", "Our Services",
        ("Metalogics offers comprehensive " +
          "technology services including custom " +
          "software development, AI and machine " +
          "learning solutions, cloud " +
          "infrastructure, mobile app development, " +
          "and digital consulting services."),
        "services", "https://metalogics.io/services"),
      Document("contact-info", "Contact Information",
        ("Contact Metalogics for inquiries about " +
          "our services. We offer free " +
          "consultations to discuss your " +
          "technology needs and how we can help " +
          "your business grow."),
        "contact", "https://metalogics.io/contact") ]
  }

  /** The corpus after loading: the parsed file, or the built-in documents if it failed. */
  function LoadedCorpus(files: DataFiles): seq<Document> {
    match files.knowledgeBase
    case Some(kb) => kb
    case None => DefaultKnowledgeBase()
  }

  /**
   * One `Map.set` of a record. A null or missing embedding is stored by the source but
   * later read as a miss by the truthiness test of the scoring loop, so here it leaves the
   * id uncached.
   */
  function SetRecord(cache: map<string, Vector>, record: EmbeddingRecord): map<string, Vector> {
    match record.embedding
    case Some(v) => cache[record.id := v]
    case None => cache - {record.id}
  }

  /** The cache after applying the pre-computed records in file order (`Map.set`, last write wins). */
  function WithPrecomputed(cache: map<string, Vector>, records: seq<EmbeddingRecord>): map<string, Vector>
    decreases |records|
  {
    if records == [] then cache
    else SetRecord(WithPrecomputed(cache, records[..|records| - 1]), records[|records| - 1])
  }

  /** The cache after loading: pre-computed records are read only once the corpus file was read. */
  function LoadedCache(cache: map<string, Vector>, files: DataFiles): map<string, Vector> {
    if files.knowledgeBase.Some? && files.embeddings.Some? then WithPrecomputed(cache, files.embeddings.value)
    else cache
  }

  /**
   * Loading the corpus: a failed knowledge-base file yields exactly the three built-in
   * documents; a readable one is used as is, whether or not the embeddings file is readable.
   */
  lemma LoadedCorpusFallback(files: DataFiles)
    ensures files.knowledgeBase.None? ==> LoadedCorpus(files) == DefaultKnowledgeBase() && |LoadedCorpus(files)| == 3
    ensures files.knowledgeBase.Some? ==> LoadedCorpus(files) == files.knowledgeBase.value
  {
  }

  /**
   * Pre-computed records: an id gets the vector of its LAST record in the file, and is
   * left uncached when that record has no vector; ids without a record keep what the
   * cache held.
   */
  lemma {:induction false} PrecomputedLastWins(cache: map<string, Vector>, records: seq<EmbeddingRecord>, id: string)
    ensures var m := WithPrecomputed(cache, records);
      && ((forall k :: 0 <= k < |records| ==> records[k].id != id) ==>
            (id in m <==> id in cache) && (id in cache ==> m[id] == cache[id]))
      && (forall k :: (0 <= k < |records| && records[k].id == id
                         && forall j :: k < j < |records| ==> records[j].id != id) ==>
            (id in m <==> records[k].embedding.Some?)
            && (id in m ==> m[id] == records[k].embedding.value))
    decreases |records|
  {
    if records != [] {
      var n := |records| - 1;
      var front := records[..n];
      PrecomputedLastWins(cache, front, id);
      forall k | 0 <= k < n ensures front[k] == records[k] { }
      if exists k :: 0 <= k < |records| && records[k].id == id {
        var k :| 0 <= k < |records| && records[k].id == id;
        if k < n {
          assert front[k].id == id;
        }
      }
    }
  }

  // ---------------------------------------------------------------------------
  // One scoring pass over the corpus (the loop of findRelevantContent)
  // ---------------------------------------------------------------------------

  /**
   * The state of the scoring loop: the cache, the scored documents so far, the documents
   * whose content was sent to the embedding provider, and whether no provider call failed.
   */
  datatype PassState = PassState(cache: map<string, Vector>, scored: seq<Scored>, requested: seq<Document>, ok: bool)

  /** One loop iteration: reuse the cached vector, or fetch and cache it on a miss. */
  function Step(p: PassState, d: Document, embed: string -> Option<Vector>, qv: Vector,
                similarity: (Vector, Vector) -> real): PassState
  {
    if !p.ok then p
    else if d.id in p.cache then p.(scored := p.scored + [Scored(d, similarity(qv, p.cache[d.id]))])
    else match embed(d.content)
      case None => p.(requested := p.requested + [d], ok := false)
      case Some(v) => PassState(p.cache[d.id := v], p.scored + [Scored(d, similarity(qv, v))], p.requested + [d], true)
  }

  /** The scoring loop run over `corpus` in order, starting from `cache`. */
  function ScorePass(cache: map<string, Vector>, corpus: seq<Document>, embed: string -> Option<Vector>,
                     qv: Vector, similarity: (Vector, Vector) -> real): PassState
    decreases |corpus|
  {
    if corpus == [] then PassState(cache, [], [], true)
    else Step(ScorePass(cache, corpus[..|corpus| - 1], embed, qv, similarity), corpus[|corpus| - 1], embed, qv, similarity)
  }

  function Ids(docs: seq<Document>): set<string> {
    set d | d in docs :: d.id
  }

  /** The texts sent to the embedding provider for these documents, in order. */
  function Contents(docs: seq<Document>): (r: seq<string>)
    ensures |r| == |docs| && forall k :: 0 <= k < |docs| ==> r[k] == docs[k].content
  {
    seq(|docs|, k requires 0 <= k < |docs| => docs[k].content)
  }

  /** After a failed provider call the loop has stopped: later documents change nothing. */
  lemma {:induction false} ScorePassStopsAfterFailure(cache: map<string, Vector>, xs: seq<Document>, ys: seq<Document>,
      embed: string -> Option<Vector>, qv: Vector, similarity: (Vector, Vector) -> real)
    requires !ScorePass(cache, xs, embed, qv, similarity).ok
    ensures ScorePass(cache, xs + ys, embed, qv, similarity) == ScorePass(cache, xs, embed, qv, similarity)
    decreases |ys|
  {
    if ys == [] {
      assert xs + ys == xs;
    } else {
      var n := |ys| - 1;
      assert (xs + ys)[..|xs + ys| - 1] == xs + ys[..n];
      ScorePassStopsAfterFailure(cache, xs, ys[..n], embed, qv, similarity);
    }
  }

  /**
   * The cache during a pass: a vector that was cached is never replaced; only ids of
   * corpus documents are added; after a complete pass every corpus id is cached.
   */
  lemma {:induction false} ScorePassCache(cache: map<string, Vector>, corpus: seq<Document>,
      embed: string -> Option<Vector>, qv: Vector, similarity: (Vector, Vector) -> real)
    ensures var p := ScorePass(cache, corpus, embed, qv, similarity);
      && (forall id :: id in cache ==> id in p.cache && p.cache[id] == cache[id])
      && p.cache.Keys <= cache.Keys + Ids(corpus)
      && (p.ok ==> Ids(corpus) <= p.cache.Keys)
    decreases |corpus|
  {
    if corpus != [] {
      var n := |corpus| - 1;
      ScorePassCache(cache, corpus[..n], embed, qv, similarity);
      assert corpus == corpus[..n] + [corpus[n]];
      assert Ids(corpus) == Ids(corpus[..n]) + {corpus[n].id};
    }
  }

  /** The provider is asked only about corpus documents whose id was not cached before the pass. */
  lemma {:induction false} ScorePassRequestsMisses(cache: map<string, Vector>, corpus: seq<Document>,
      embed: string -> Option<Vector>, qv: Vector, similarity: (Vector, Vector) -> real)
    ensures var p := ScorePass(cache, corpus, embed, qv, similarity);
      forall k :: 0 <= k < |p.requested| ==> p.requested[k] in corpus && p.requested[k].id !in cache
    decreases |corpus|
  {
    if corpus != [] {
      var n := |corpus| - 1;
      var front := corpus[..n];
      var q := ScorePass(cache, front, embed, qv, similarity);
      ScorePassRequestsMisses(cache, front, embed, qv, similarity);
      ScorePassCache(cache, front, embed, qv, similarity);
      forall k | 0 <= k < |q.requested| ensures q.requested[k] in corpus {
        assert q.requested[k] in front;
      }
    }
  }

  /**
   * Each id is requested at most once, and while the pass runs the cache holds exactly
   * the ids it started with plus the ids it requested.
   */
  lemma {:induction false} ScorePassRequestsOnce(cache: map<string, Vector>, corpus: seq<Document>,
      embed: string -> Option<Vector>, qv: Vector, similarity: (Vector, Vector) -> real)
    ensures var p := ScorePass(cache, corpus, embed, qv, similarity);
      && (forall a, b :: 0 <= a < b < |p.requested| ==> p.requested[a].id != p.requested[b].id)
      && (p.ok ==> p.cache.Keys == cache.Keys + Ids(p.requested))
    decreases |corpus|
  {
    if corpus != [] {
      var n := |corpus| - 1;
      var d := corpus[n];
      var q := ScorePass(cache, corpus[..n], embed, qv, similarity);
      var p := ScorePass(cache, corpus, embed, qv, similarity);
      ScorePassRequestsOnce(cache, corpus[..n], embed, qv, similarity);
      if q.ok && d.id !in q.cache {
        assert p.requested == q.requested + [d];
        assert Ids(p.requested) == Ids(q.requested) + {d.id};
        forall a | 0 <= a < |q.requested| ensures q.requested[a].id != d.id {
          assert q.requested[a] in q.requested;
        }
      }
    }
  }

  /** A complete pass requests exactly the corpus ids that were not cached. */
  lemma {:induction false} ScorePassRequestsAllMisses(cache: map<string, Vector>, corpus: seq<Document>,
      embed: string -> Option<Vector>, qv: Vector, similarity: (Vector, Vector) -> real)
    ensures var p := ScorePass(cache, corpus, embed, qv, similarity);
      p.ok ==> Ids(p.requested) == Ids(corpus) - cache.Keys
    decreases |corpus|
  {
    if corpus != [] {
      var n := |corpus| - 1;
      var front := corpus[..n];
      var d := corpus[n];
      var q := ScorePass(cache, front, embed, qv, similarity);
      var p := ScorePass(cache, corpus, embed, qv, similarity);
      ScorePassRequestsAllMisses(cache, front, embed, qv, similarity);
      ScorePassRequestsOnce(cache, front, embed, qv, similarity);
      assert corpus == front + [d];
      assert Ids(corpus) == Ids(front) + {d.id};
      if p.ok {
        if d.id !in q.cache {
          assert p.requested == q.requested + [d];
          assert Ids(p.requested) == Ids(q.requested) + {d.id};
        } else {
          assert p.requested == q.requested;
        }
      }
    }
  }

  /** A complete pass scores every document once, in corpus order, against its cached vector. */
  lemma {:induction false} ScorePassScores(cache: map<string, Vector>, corpus: seq<Document>,
      embed: string -> Option<Vector>, qv: Vector, similarity: (Vector, Vector) -> real)
    ensures var p := ScorePass(cache, corpus, embed, qv, similarity);
      p.ok ==>
        && |p.scored| == |corpus|
        && forall k :: 0 <= k < |corpus| ==>
             corpus[k].id in p.cache && p.scored[k] == Scored(corpus[k], similarity(qv, p.cache[corpus[k].id]))
    decreases |corpus|
  {
    if corpus != [] {
      var n := |corpus| - 1;
      var front := corpus[..n];
      var q := ScorePass(cache, front, embed, qv, similarity);
      var p := ScorePass(cache, corpus, embed, qv, similarity);
      ScorePassScores(cache, front, embed, qv, similarity);
      if p.ok {
        assert q.ok;
        forall k | 0 <= k < n
          ensures corpus[k].id in p.cache && p.scored[k] == Scored(corpus[k], similarity(qv, p.cache[corpus[k].id]))
        {
          assert front[k] == corpus[k];
        }
      }
    }
  }

  /** With every corpus id already cached, a pass calls the provider for no document. */
  lemma {:induction false} WarmPassRequestsNothing(cache: map<string, Vector>, corpus: seq<Document>,
      embed: string -> Option<Vector>, qv: Vector, similarity: (Vector, Vector) -> real)
    requires Ids(corpus) <= cache.Keys
    ensures var p := ScorePass(cache, corpus, embed, qv, similarity);
      p.ok && p.requested == [] && p.cache == cache
    decreases |corpus|
  {
    if corpus != [] {
      var n := |corpus| - 1;
      assert corpus == corpus[..n] + [corpus[n]];
      assert Ids(corpus) == Ids(corpus[..n]) + {corpus[n].id};
      WarmPassRequestsNothing(cache, corpus[..n], embed, qv, similarity);
    }
  }

  // ---------------------------------------------------------------------------
  // Ranking: stable sort by descending similarity, first topK, threshold
  // ---------------------------------------------------------------------------

  predicate SortedDesc(s: seq<Scored>) {
    forall i, j :: 0 <= i < j < |s| ==> s[i].similarity >= s[j].similarity
  }

  /** The entries of `s` whose similarity is `v`, in their order in `s`. */
  function WithScore(s: seq<Scored>, v: real): seq<Scored>
    decreases |s|
  {
    if s == [] then [] else (if s[0].similarity == v then [s[0]] else []) + WithScore(s[1..], v)
  }

  /** Places `x` before the first entry that does not score strictly higher. */
  function Insert(x: Scored, s: seq<Scored>): seq<Scored>
    decreases |s|
  {
    if s == [] || s[0].similarity <= x.similarity then [x] + s else [s[0]] + Insert(x, s[1..])
  }

  /** `sort((a, b) => b.similarity - a.similarity)`: a stable sort by descending similarity. */
  function SortDesc(s: seq<Scored>): seq<Scored>
    decreases |s|
  {
    if s == [] then [] else Insert(s[0], SortDesc(s[1..]))
  }

  lemma {:induction false} InsertPermutes(x: Scored, s: seq<Scored>)
    ensures multiset(Insert(x, s)) == multiset(s) + multiset{x}
    decreases |s|
  {
    if s != [] && s[0].similarity > x.similarity {
      InsertPermutes(x, s[1..]);
      assert s == [s[0]] + s[1..];
    }
  }

  lemma {:induction false} InsertSorted(x: Scored, s: seq<Scored>)
    requires SortedDesc(s)
    ensures SortedDesc(Insert(x, s))
    decreases |s|
  {
    if s == [] || s[0].similarity <= x.similarity {
      var r := [x] + s;
      forall i, j | 0 <= i < j < |r| ensures r[i].similarity >= r[j].similarity {
        if i == 0 { assert r[j] == s[j - 1]; } else { assert r[i] == s[i - 1] && r[j] == s[j - 1]; }
      }
    } else {
      var rest := Insert(x, s[1..]);
      InsertSorted(x, s[1..]);
      InsertPermutes(x, s[1..]);
      var r := [s[0]] + rest;
      forall i, j | 0 <= i < j < |r| ensures r[i].similarity >= r[j].similarity {
        if i == 0 {
          var e := rest[j - 1];
          assert e in multiset(rest);
          assert e == x || e in multiset(s[1..]);
          if e != x {
            var m :| 0 <= m < |s[1..]| && s[1..][m] == e;
            assert s[m + 1] == e;
          }
        } else {
          assert r[i] == rest[i - 1] && r[j] == rest[j - 1];
        }
      }
    }
  }

  lemma {:induction false} InsertStable(x: Scored, s: seq<Scored>, v: real)
    ensures WithScore(Insert(x, s), v) == (if x.similarity == v then [x] else []) + WithScore(s, v)
    decreases |s|
  {
    var mine := if x.similarity == v then [x] else [];
    if s == [] || s[0].similarity <= x.similarity {
      var r := [x] + s;
      assert r[0] == x && r[1..] == s;
      assert WithScore(r, v) == mine + WithScore(s, v);
    } else {
      var rest := Insert(x, s[1..]);
      InsertStable(x, s[1..], v);
      var r := [s[0]] + rest;
      assert r[0] == s[0] && r[1..] == rest;
      var head := if s[0].similarity == v then [s[0]] else [];
      assert WithScore(r, v) == head + WithScore(rest, v);
      assert WithScore(s, v) == head + WithScore(s[1..], v);
      assert head == [] || mine == [];
      assert WithScore(r, v) == head + (mine + WithScore(s[1..], v));
    }
  }

  /**
   * The sort's result is ordered by non-increasing similarity, is a permutation of its
   * input, and is stable: the entries sharing any one score keep their input order.
   */
  lemma {:induction false} SortDescFacts(s: seq<Scored>)
    ensures SortedDesc(SortDesc(s))
    ensures multiset(SortDesc(s)) == multiset(s)
    ensures forall v :: WithScore(SortDesc(s), v) == WithScore(s, v)
    decreases |s|
  {
    if s != [] {
      SortDescFacts(s[1..]);
      InsertPermutes(s[0], SortDesc(s[1..]));
      InsertSorted(s[0], SortDesc(s[1..]));
      forall v ensures WithScore(SortDesc(s), v) == WithScore(s, v) {
        InsertStable(s[0], SortDesc(s[1..]), v);
      }
      assert s == [s[0]] + s[1..];
    }
  }

  /** `slice(0, n)`. */
  function Take(s: seq<Scored>, n: nat): (r: seq<Scored>)
    ensures |r| <= n && |r| <= |s| && r == s[..|r|]
    ensures |r| == n || |r| == |s|
  {
    if n <= |s| then s[..n] else s
  }

  /** `filter(item => item.similarity > 0.7)`. */
  function AboveThreshold(s: seq<Scored>): seq<Scored>
    decreases |s|
  {
    if s == [] then []
    else (if s[0].similarity > RelevanceThreshold then [s[0]] else []) + AboveThreshold(s[1..])
  }

  lemma {:induction false} NoneAboveThreshold(s: seq<Scored>)
    requires forall k :: 0 <= k < |s| ==> s[k].similarity <= RelevanceThreshold
    ensures AboveThreshold(s) == []
    decreases |s|
  {
    if s != [] {
      NoneAboveThreshold(s[1..]);
    }
  }

  /**
   * On a list sorted by descending similarity the threshold filter keeps a prefix: exactly
   * the entries scoring above 0.7, and the first entry it drops scores at most 0.7.
   */
  lemma {:induction false} ThresholdKeepsSortedPrefix(s: seq<Scored>)
    requires SortedDesc(s)
    ensures var r := AboveThreshold(s);
      && |r| <= |s| && r == s[..|r|]
      && (forall k :: 0 <= k < |r| ==> r[k].similarity > RelevanceThreshold)
      && (|r| < |s| ==> s[|r|].similarity <= RelevanceThreshold)
    decreases |s|
  {
    if s != [] {
      if s[0].similarity > RelevanceThreshold {
        ThresholdKeepsSortedPrefix(s[1..]);
      } else {
        NoneAboveThreshold(s[1..]);
      }
    }
  }

  /** `similarities.sort(...).slice(0, topK).filter(...)`. */
  function Select(scored: seq<Scored>, topK: nat): seq<Scored> {
    AboveThreshold(Take(SortDesc(scored), topK))
  }

  /**
   * The selection is the best-scoring prefix of the stably sorted list: at most `topK`
   * entries, each scoring above 0.7, in non-increasing order, taken from the input with
   * no entry used more often than it occurs; when it is shorter than both `topK` and
   * the input, the next entry in sorted order scores at most 0.7.
   */
  lemma SelectIsTopPrefix(scored: seq<Scored>, topK: nat)
    ensures var r := Select(scored, topK); var sorted := SortDesc(scored);
      && |sorted| == |scored|
      && |r| <= topK && |r| <= |sorted| && r == sorted[..|r|]
      && SortedDesc(r)
      && (forall k :: 0 <= k < |r| ==> r[k].similarity > RelevanceThreshold)
      && (|r| < topK && |r| < |scored| ==> sorted[|r|].similarity <= RelevanceThreshold)
      && multiset(r) <= multiset(scored)
  {
    var sorted := SortDesc(scored);
    SortDescFacts(scored);
    assert |sorted| == |multiset(sorted)| == |multiset(scored)| == |scored|;
    var t := Take(sorted, topK);
    PrefixFacts(sorted, |t|);
    ThresholdKeepsSortedPrefix(t);
    var r := Select(scored, topK);
    assert r == t[..|r|];
    assert r == sorted[..|r|];
    PrefixFacts(sorted, |r|);
  }

  lemma PrefixFacts(s: seq<Scored>, n: nat)
    requires n <= |s|
    ensures SortedDesc(s) ==> SortedDesc(s[..n])
    ensures multiset(s[..n]) <= multiset(s)
  {
    assert s == s[..n] + s[n..];
  }

  // ---------------------------------------------------------------------------
  // Retrieval as a whole (the try block of findRelevantContent)
  // ---------------------------------------------------------------------------

  datatype RetrievalOutcome = RetrievalOutcome(cache: map<string, Vector>, result: seq<Scored>, requests: seq<string>)

  /**
   * Embed the query, score every document, select; any provider failure gives `[]`.
   * `requests` lists, in order, the texts sent to the embedding provider.
   */
  function Retrieval(cache: map<string, Vector>, corpus: seq<Document>, query: string, topK: nat,
                     embed: string -> Option<Vector>, similarity: (Vector, Vector) -> real): RetrievalOutcome
  {
    match embed(query)
    case None => RetrievalOutcome(cache, [], [query])
    case Some(qv) =>
      var p := ScorePass(cache, corpus, embed, qv, similarity);
      RetrievalOutcome(p.cache, if p.ok then Select(p.scored, topK) else [], [query] + Contents(p.requested))
  }

  /**
   * What retrieval returns: at most `topK` corpus documents, each with its own score above
   * 0.7, ordered by non-increasing score; `[]` whenever a provider call fails.
   */
  lemma RetrievalResult(cache: map<string, Vector>, corpus: seq<Document>, query: string, topK: nat,
                        embed: string -> Option<Vector>, similarity: (Vector, Vector) -> real)
    ensures var out := Retrieval(cache, corpus, query, topK, embed, similarity);
      && |out.result| <= topK
      && SortedDesc(out.result)
      && (forall k :: 0 <= k < |out.result| ==> out.result[k].similarity > RelevanceThreshold)
      && (forall k :: 0 <= k < |out.result| ==>
            out.result[k].doc in corpus && out.result[k].doc.id in out.cache
            && out.result[k].similarity == similarity(embed(query).value, out.cache[out.result[k].doc.id]))
      && (embed(query).None? ==> out.result == [])
      && (embed(query).Some? && !ScorePass(cache, corpus, embed, embed(query).value, similarity).ok ==>
            out.result == [])
  {
    if embed(query).Some? {
      var qv := embed(query).value;
      var p := ScorePass(cache, corpus, embed, qv, similarity);
      if p.ok {
        SelectIsTopPrefix(p.scored, topK);
        ScorePassScores(cache, corpus, embed, qv, similarity);
        var r := Select(p.scored, topK);
        forall k | 0 <= k < |r|
          ensures r[k].doc in corpus && r[k].doc.id in p.cache && r[k].similarity == similarity(qv, p.cache[r[k].doc.id])
        {
          assert r[k] in multiset(p.scored);
          var m :| 0 <= m < |p.scored| && p.scored[m] == r[k];
        }
      }
    }
  }

  /**
   * What retrieval does to the cache: cached vectors are kept as they were, only corpus
   * ids are added, and once the query and every missing document embed, every corpus id
   * is cached.
   */
  lemma RetrievalCache(cache: map<string, Vector>, corpus: seq<Document>, query: string, topK: nat,
                       embed: string -> Option<Vector>, similarity: (Vector, Vector) -> real)
    ensures var out := Retrieval(cache, corpus, query, topK, embed, similarity);
      && (forall id :: id in cache ==> id in out.cache && out.cache[id] == cache[id])
      && out.cache.Keys <= cache.Keys + Ids(corpus)
      && (embed(query).Some? && ScorePass(cache, corpus, embed, embed(query).value, similarity).ok ==>
            Ids(corpus) <= out.cache.Keys)
  {
    if embed(query).Some? {
      ScorePassCache(cache, corpus, embed, embed(query).value, similarity);
    }
  }

  /**
   * What retrieval asks of the embedding provider: the query first, then only contents of
   * corpus documents whose id was not cached, at most one request per such id.
   */
  lemma RetrievalRequests(cache: map<string, Vector>, corpus: seq<Document>, query: string, topK: nat,
                          embed: string -> Option<Vector>, similarity: (Vector, Vector) -> real)
    ensures var out := Retrieval(cache, corpus, query, topK, embed, similarity);
      && |out.requests| >= 1 && out.requests[0] == query
      && (forall k :: 1 <= k < |out.requests| ==>
            exists d :: d in corpus && d.id !in cache && out.requests[k] == d.content)
      && |out.requests| <= 1 + |Ids(corpus) - cache.Keys|
  {
    if embed(query).Some? {
      var qv := embed(query).value;
      var p := ScorePass(cache, corpus, embed, qv, similarity);
      ScorePassRequestsMisses(cache, corpus, embed, qv, similarity);
      ScorePassRequestsOnce(cache, corpus, embed, qv, similarity);
      var reqs := [query] + Contents(p.requested);
      forall k | 1 <= k < |reqs|
        ensures exists d :: d in corpus && d.id !in cache && reqs[k] == d.content
      {
        var d := p.requested[k - 1];
        assert reqs[k] == d.content;
      }
      RequestedBound(cache, corpus, embed, qv, similarity);
    }
  }

  /** At most one request per corpus id missing from the cache. */
  lemma RequestedBound(cache: map<string, Vector>, corpus: seq<Document>, embed: string -> Option<Vector>,
                       qv: Vector, similarity: (Vector, Vector) -> real)
    ensures |ScorePass(cache, corpus, embed, qv, similarity).requested| <= |Ids(corpus) - cache.Keys|
  {
    var p := ScorePass(cache, corpus, embed, qv, similarity);
    ScorePassRequestsMisses(cache, corpus, embed, qv, similarity);
    ScorePassRequestsOnce(cache, corpus, embed, qv, similarity);
    DistinctIdsBound(p.requested);
    assert Ids(p.requested) <= Ids(corpus) - cache.Keys by {
      forall id | id in Ids(p.requested) ensures id in Ids(corpus) - cache.Keys {
        var d :| d in p.requested && d.id == id;
      }
    }
    SubsetCard(Ids(p.requested), Ids(corpus) - cache.Keys);
  }

  /** Documents with pairwise distinct ids have as many ids as entries. */
  lemma {:induction false} DistinctIdsBound(docs: seq<Document>)
    requires forall a, b :: 0 <= a < b < |docs| ==> docs[a].id != docs[b].id
    ensures |Ids(docs)| == |docs|
    decreases |docs|
  {
    if docs != [] {
      var n := |docs| - 1;
      DistinctIdsBound(docs[..n]);
      assert docs == docs[..n] + [docs[n]];
      assert Ids(docs) == Ids(docs[..n]) + {docs[n].id};
      assert docs[n].id !in Ids(docs[..n]);
    }
  }

  lemma SubsetCard(a: set<string>, b: set<string>)
    requires a <= b
    ensures |a| <= |b|
  {
    assert b == a + (b - a);
  }

  /**
   * A retrieval that completed leaves every corpus id cached, so retrieving again over the
   * same corpus sends only the new query to the provider and leaves the cache as it is.
   */
  lemma RepeatedRetrievalHitsCache(cache: map<string, Vector>, corpus: seq<Document>, q1: string, q2: string,
      topK: nat, embed: string -> Option<Vector>, similarity: (Vector, Vector) -> real)
    requires embed(q1).Some? && ScorePass(cache, corpus, embed, embed(q1).value, similarity).ok
    ensures var first := Retrieval(cache, corpus, q1, topK, embed, similarity);
      var second := Retrieval(first.cache, corpus, q2, topK, embed, similarity);
      second.requests == [q2] && second.cache == first.cache
  {
    var first := Retrieval(cache, corpus, q1, topK, embed, similarity);
    ScorePassCache(cache, corpus, embed, embed(q1).value, similarity);
    if embed(q2).Some? {
      WarmPassRequestsNothing(first.cache, corpus, embed, embed(q2).value, similarity);
    }
  }

  // ---------------------------------------------------------------------------
  // Response generation
  // ---------------------------------------------------------------------------

  const PromptHead: string := ("You are a helpful AI assistant for " +
    "Metalogics, a technology company. \n     " +
    " \n      Your role:\n      - Provide " +
    "accurate information about Metalogics " +
    "services and company\n      - Help users " +
    "understand how Metalogics can solve " +
    "their technology needs\n      - Guide " +
    "conversations toward scheduling " +
    "consultations or capturing leads\n      " +
    "- Be professional, warm, and " +
    "trustworthy\n      - If you don't know " +
    "something, politely redirect to human " +
    "support\n      \n      Company " +
    "Information:\n      ")
  const PromptTail: string := ("\n      \n      Guidelines:\n      - Keep " +
    "responses concise and helpful\n      - " +
    "Always offer to schedule a consultation " +
    "for detailed discussions\n      - Ask " +
    "for contact information when " +
    "appropriate\n      - Suggest relevant " +
    "services based on user needs")
  const EntrySeparator: string := "\n\n"

  /** `${item.title}: ${item.content}` */
  function EntryText(s: Scored): string {
    s.doc.title + ": " + s.doc.content
  }

  function EntryTexts(relevant: seq<Scored>): (r: seq<string>)
    ensures |r| == |relevant| && forall k :: 0 <= k < |relevant| ==> r[k] == EntryText(relevant[k])
  {
    seq(|relevant|, k requires 0 <= k < |relevant| => EntryText(relevant[k]))
  }

  /** The system instruction with the retrieved documents spliced in. */
  function SystemPrompt(relevant: seq<Scored>): string {
    PromptHead + Join(EntryTexts(relevant), EntrySeparator) + PromptTail
  }

  /**
   * The prompt quotes every retrieved document as `title: content`, in retrieval order:
   * the `i`-th entry occurs at its offset, and the next one starts after it ends.
   */
  lemma PromptQuotesRetrievedInOrder(relevant: seq<Scored>, i: nat)
    requires i < |relevant|
    ensures var at := |PromptHead| + JoinOffset(EntryTexts(relevant), EntrySeparator, i);
      && OccursAt(SystemPrompt(relevant), EntryText(relevant[i]), at)
      && (i + 1 < |relevant| ==>
            at + |EntryText(relevant[i])| < |PromptHead| + JoinOffset(EntryTexts(relevant), EntrySeparator, i + 1))
  {
    var xs := EntryTexts(relevant);
    JoinKeepsItemsInOrder(xs, EntrySeparator, i);
    OccursInsideFrame(PromptHead, Join(xs, EntrySeparator), PromptTail, xs[i], JoinOffset(xs, EntrySeparator, i));
  }

  lemma OccursInsideFrame(head: string, body: string, tail: string, x: string, o: int)
    requires OccursAt(body, x, o)
    ensures OccursAt(head + body + tail, x, |head| + o)
  {
    var w := head + body + tail;
    assert w == head + (body + tail);
    assert w[|head| + o..|head| + o + |x|] == body[o..o + |x|];
  }

  /** `[{role: 'system', ...}, ...context, {role: 'user', content: query}]` */
  function CompletionMessages(relevant: seq<Scored>, context: seq<Message>, query: string): (r: seq<Message>)
    ensures |r| == |context| + 2
    ensures r[0] == Message(SystemRole, SystemPrompt(relevant))
    ensures r[1..|r| - 1] == context
    ensures r[|r| - 1] == Message(UserRole, query)
  {
    [Message(SystemRole, SystemPrompt(relevant))] + context + [Message(UserRole, query)]
  }

  /**
   * The answer built from the retrieved list and the completion outcome. Confidence is
   * high exactly when the completion succeeded and some document was retrieved; a failed
   * completion gives the fixed apology with no documents and low confidence.
   */
  function Respond(relevant: seq<Scored>, completion: Option<string>): (a: Answer)
    ensures completion.None? ==> a == Answer(Apology, [], Low)
    ensures completion.Some? ==> a.response == completion.value && a.relevantContent == relevant
    ensures a.confidence == High <==> completion.Some? && |relevant| > 0
  {
    match completion
    case None => Answer(Apology, [], Low)
    case Some(text) => Answer(text, relevant, if |relevant| > 0 then High else Low)
  }

  // ---------------------------------------------------------------------------
  // The service object
  // ---------------------------------------------------------------------------

  /** The cache the first retrieval starts from. */
  function CacheBeforeRetrieval(wasInitialized: bool, cache: map<string, Vector>, files: DataFiles): map<string, Vector> {
    if wasInitialized then cache else LoadedCache(cache, files)
  }

  class RagService {
    var knowledgeBase: seq<Document>
    var embeddings: map<string, Vector>
    var initialized: bool
    /** Every text sent to the embedding provider, in order. */
    ghost var embedRequests: seq<string>

    constructor ()
      ensures knowledgeBase == [] && embeddings == map[] && !initialized && embedRequests == []
    {
      knowledgeBase := [];
      embeddings := map[];
      initialized := false;
      embedRequests := [];
    }

    method LoadKnowledgeBase(files: DataFiles)
      modifies this
      ensures knowledgeBase == LoadedCorpus(files)
      ensures embeddings == LoadedCache(old(embeddings), files)
      ensures initialized == old(initialized) && embedRequests == old(embedRequests)
    {
      match files.knowledgeBase {
        case None =>
          knowledgeBase := DefaultKnowledgeBase();
        case Some(kb) =>
          knowledgeBase := kb;
          if files.embeddings.Some? {
            var records := files.embeddings.value;
            var i := 0;
            while i < |records|
              invariant 0 <= i <= |records|
              invariant knowledgeBase == kb && initialized == old(initialized) && embedRequests == old(embedRequests)
              invariant embeddings == WithPrecomputed(old(embeddings), records[..i])
            {
              assert records[..i + 1][..i] == records[..i];
              embeddings := SetRecord(embeddings, records[i]);
              i := i + 1;
            }
            assert records[..i] == records;
          }
      }
    }

    method Initialize(files: DataFiles)
      modifies this
      ensures initialized
      ensures knowledgeBase == LoadedCorpus(files)
      ensures embeddings == LoadedCache(old(embeddings), files)
      ensures embedRequests == old(embedRequests)
    {
      LoadKnowledgeBase(files);
      initialized := true;
    }

    /**
     * The loop of `findRelevantContent`: score every document against `qv`, reusing
     * cached vectors and caching fetched ones; stops at the first failed provider call.
     */
    method ScoreCorpus(qv: Vector, embed: string -> Option<Vector>, similarity: (Vector, Vector) -> real)
      returns (similarities: seq<Scored>, ok: bool)
      modifies this
      ensures knowledgeBase == old(knowledgeBase) && initialized == old(initialized)
      ensures var p := ScorePass(old(embeddings), knowledgeBase, embed, qv, similarity);
        && embeddings == p.cache && similarities == p.scored && ok == p.ok
        && embedRequests == old(embedRequests) + Contents(p.requested)
    {
      ghost var cache0 := embeddings;
      ghost var requested: seq<Document> := [];
      similarities := [];
      var i := 0;
      while i < |knowledgeBase|
        invariant 0 <= i <= |knowledgeBase|
        invariant knowledgeBase == old(knowledgeBase) && initialized == old(initialized)
        invariant ScorePass(cache0, knowledgeBase[..i], embed, qv, similarity) == PassState(embeddings, similarities, requested, true)
        invariant embedRequests == old(embedRequests) + Contents(requested)
      {
        var item := knowledgeBase[i];
        assert knowledgeBase[..i + 1][..i] == knowledgeBase[..i];
        ghost var before := PassState(embeddings, similarities, requested, true);
        assert ScorePass(cache0, knowledgeBase[..i + 1], embed, qv, similarity) == Step(before, item, embed, qv, similarity);
        var itemEmbedding: Vector;
        if item.id in embeddings {
          itemEmbedding := embeddings[item.id];
        } else {
          var e := embed(item.content);
          embedRequests := embedRequests + [item.content];
          requested := requested + [item];
          if e.None? {
            assert knowledgeBase == knowledgeBase[..i + 1] + knowledgeBase[i + 1..];
            ScorePassStopsAfterFailure(cache0, knowledgeBase[..i + 1], knowledgeBase[i + 1..], embed, qv, similarity);
            return similarities, false;
          }
          itemEmbedding := e.value;
          embeddings := embeddings[item.id := itemEmbedding];
        }
        similarities := similarities + [Scored(item, similarity(qv, itemEmbedding))];
        i := i + 1;
      }
      assert knowledgeBase[..i] == knowledgeBase;
      ok := true;
    }

    /** The try block of `findRelevantContent`: embed the query, score the corpus, select. */
    method Retrieve(query: string, topK: nat, embed: string -> Option<Vector>, similarity: (Vector, Vector) -> real)
      returns (r: seq<Scored>)
      modifies this
      ensures knowledgeBase == old(knowledgeBase) && initialized == old(initialized)
      ensures var out := Retrieval(old(embeddings), knowledgeBase, query, topK, embed, similarity);
        && embeddings == out.cache
        && r == out.result
        && embedRequests == old(embedRequests) + out.requests
    {
      var q := embed(query);
      embedRequests := embedRequests + [query];
      if q.None? {
        return [];
      }
      ghost var p := ScorePass(old(embeddings), knowledgeBase, embed, q.value, similarity);
      ghost var logged := embedRequests;
      var similarities, ok := ScoreCorpus(q.value, embed, similarity);
      assert embedRequests == old(embedRequests) + ([query] + Contents(p.requested)) by {
        assert embedRequests == logged + Contents(p.requested);
      }
      if !ok {
        return [];
      }
      r := Select(similarities, topK);
    }

    /** `findRelevantContent(query, topK)`: initialise on first use, then retrieve. */
    method FindRelevantContent(query: string, topK: nat, files: DataFiles,
                               embed: string -> Option<Vector>, similarity: (Vector, Vector) -> real)
      returns (r: seq<Scored>)
      modifies this
      ensures initialized
      ensures knowledgeBase == if old(initialized) then old(knowledgeBase) else LoadedCorpus(files)
      ensures var out := Retrieval(CacheBeforeRetrieval(old(initialized), old(embeddings), files), knowledgeBase,
                                   query, topK, embed, similarity);
        && embeddings == out.cache
        && r == out.result
        && embedRequests == old(embedRequests) + out.requests
    {
      if !initialized {
        Initialize(files);
      }
      r := Retrieve(query, topK, embed, similarity);
    }

    /** `generateResponse(query, context)`: retrieve the default top 3, then complete. */
    method GenerateResponse(query: string, context: seq<Message>, files: DataFiles,
                            embed: string -> Option<Vector>, similarity: (Vector, Vector) -> real,
                            complete: seq<Message> -> Option<string>)
      returns (a: Answer)
      modifies this
      ensures initialized
      ensures knowledgeBase == if old(initialized) then old(knowledgeBase) else LoadedCorpus(files)
      ensures var out := Retrieval(CacheBeforeRetrieval(old(initialized), old(embeddings), files), knowledgeBase,
                                   query, DefaultTopK, embed, similarity);
        && embeddings == out.cache
        && embedRequests == old(embedRequests) + out.requests
        && a == Respond(out.result, complete(CompletionMessages(out.result, context, query)))
    {
      var relevant := FindRelevantContent(query, DefaultTopK, files, embed, similarity);
      var completion := complete(CompletionMessages(relevant, context, query));
      a := Respond(relevant, completion);
    }
  }
}
