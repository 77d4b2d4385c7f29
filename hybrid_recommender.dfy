/** The post-processing of the hybrid recommender
    (02_SYSTEME_RECOMMANDATION/scripts/app.py): from the candidate listings
    rated by similar users, drop the reference listing, skip listings without
    an embedding index, score each as alpha·similarity + beta·rating/5, and
    return the best `top_n`; and the title check of the `/recommend` route.
    The embedding model, the similarity matrix and the k-NN search are
    foreign; their results are inputs. */
module HybridRecommender {
  import opened Wrappers
  import opened Sequences

  /** A candidate listing with the mean rating its similar users gave it. */
  datatype Candidate = Candidate(id: int, estimate: real)

  /** The first metadata row of a listing. */
  datatype Meta = Meta(rating: real, accuracy: real)

  /** The first review row of a listing: the keys the result reads. */
  datatype Info = Info(title: Option<string>, city: Option<string>, description: Option<string>,
                       sentimentMean: Option<real>)

  /** One entry of "recommendations". */
  datatype Recommendation = Recommendation(
    id: int,
    score: real,
    similarity: real,
    estimate: real,
    rating: Option<real>,
    accuracy: Option<real>,
    title: Option<string>,
    city: Option<string>,
    description: Option<string>,
    sentimentMean: Option<real>,
    positiveReviews: seq<string>)

  /** What the function receives from the models and tables. */
  datatype Inputs = Inputs(
    reference: int,                       // id_listing_ref, the best title match
    anyRater: bool,                       // some user rated the reference
    candidates: seq<Candidate>,           // logements_candidats before the drop
    idToIndex: map<int, nat>,             // id_to_index
    similarity: (nat, nat) -> real,       // similarity_matrix_bert
    metadata: map<int, Meta>,
    infos: map<int, Info>,
    positiveReviews: map<int, seq<string>>)

  /** The dictionary the function returns: {"error": message} or
      {"recommendations": items}. */
  datatype Outcome =
    | NoRaterError(message: string)
    | Recommendations(items: seq<Recommendation>)

  const NoRaterMessage: string := "Aucun utilisateur trouvé ayant noté ce logement."
  const DescriptionLength: nat := 300
  const MaxPositiveReviews: nat := 3

  /** The description field: absent or empty gives None; otherwise its first
      300 characters, always followed by "...". */
  function DescriptionPreview(d: Option<string>): (r: Option<string>)
    ensures r.None? <==> (d.None? || d.value == "")
    ensures r.Some? ==> |r.value| == Min(|d.value|, DescriptionLength) + 3 &&
                        r.value[..Min(|d.value|, DescriptionLength)] == d.value[..Min(|d.value|, DescriptionLength)] &&
                        r.value[|r.value| - 3..] == "..."
  {
    if d.None? || d.value == "" then None
    else Some(d.value[..Min(|d.value|, DescriptionLength)] + "...")
  }

  /** `logements_candidats.drop(id_listing_ref, errors='ignore')`. */
  function Dropped(inp: Inputs): (r: seq<Candidate>)
    ensures IsSubsequence(r, inp.candidates)
    ensures forall x :: multiset(r)[x] == if x.id != inp.reference then multiset(inp.candidates)[x] else 0
  {
    var p := (c: Candidate) => c.id != inp.reference;
    SelectIsSubsequence(inp.candidates, p);
    Select(inp.candidates, p)
  }

  /** `alpha * sim_bert + beta * (note_estimee / 5.0)`. */
  function HybridScore(alpha: real, similarity: real, beta: real, estimate: real): real {
    alpha * similarity + beta * (estimate / 5.0)
  }

  /** With non-negative weights, a more similar listing or a better
      estimated one never scores lower. */
  lemma HybridScoreMonotone(alpha: real, beta: real, s1: real, s2: real, e1: real, e2: real)
    requires alpha >= 0.0 && beta >= 0.0 && s1 <= s2 && e1 <= e2
    ensures HybridScore(alpha, s1, beta, e1) <= HybridScore(alpha, s2, beta, e2)
  {
    assert alpha * s1 <= alpha * s2;
    assert beta * (e1 / 5.0) <= beta * (e2 / 5.0);
  }

  /** With the route's defaults (0.5 and 0.5), a similarity in [0, 1] and a
      rating on the 0–5 scale give a score in [0, 1]. */
  lemma DefaultScoreInUnitRange(similarity: real, estimate: real)
    requires 0.0 <= similarity <= 1.0 && 0.0 <= estimate <= 5.0
    ensures 0.0 <= HybridScore(0.5, similarity, 0.5, estimate) <= 1.0
  {
  }

  /** The result dictionary of one candidate, given both indices. */
  function Build(inp: Inputs, c: Candidate, refIdx: nat, idx: nat, alpha: real, beta: real): Recommendation {
    var sim := inp.similarity(refIdx, idx);
    var info := if c.id in inp.infos then inp.infos[c.id] else Info(None, None, None, None);
    Recommendation(
      c.id,
      HybridScore(alpha, sim, beta, c.estimate),
      sim,
      c.estimate,
      if c.id in inp.metadata then Some(inp.metadata[c.id].rating) else None,
      if c.id in inp.metadata then Some(inp.metadata[c.id].accuracy) else None,
      info.title,
      info.city,
      DescriptionPreview(info.description),
      info.sentimentMean,
      Take(if c.id in inp.positiveReviews then inp.positiveReviews[c.id] else [], MaxPositiveReviews as int))
  }

  /** The fields of one result: its candidate's id and estimate, the
      similarity at the two indices, the weighted score, at most three
      positive reviews. */
  lemma BuildSound(inp: Inputs, c: Candidate, refIdx: nat, idx: nat, alpha: real, beta: real)
    ensures var r := Build(inp, c, refIdx, idx, alpha, beta);
      && r.id == c.id && r.estimate == c.estimate
      && r.similarity == inp.similarity(refIdx, idx)
      && r.score == HybridScore(alpha, r.similarity, beta, r.estimate)
      && |r.positiveReviews| <= MaxPositiveReviews
  {
  }

  /** The candidates the loop does not skip for want of an index. */
  function Indexed(inp: Inputs): Candidate -> bool {
    (c: Candidate) => c.id in inp.idToIndex
  }

  /** `r` is the result entry of candidate `c`, which has an index. */
  predicate IsEntryOf(inp: Inputs, c: Candidate, refIdx: nat, alpha: real, beta: real, r: Recommendation) {
    c.id in inp.idToIndex && r == Build(inp, c, refIdx, inp.idToIndex[c.id], alpha, beta)
  }

  /** The `results` list the loop builds from `cs`: nothing when the reference
      has no index; otherwise one entry per candidate with an index, in order. */
  function Collect(inp: Inputs, cs: seq<Candidate>, refIdx: Option<nat>, alpha: real, beta: real): (rs: seq<Recommendation>)
    ensures refIdx.None? ==> rs == []
    ensures refIdx.Some? ==> |rs| == |Select(cs, Indexed(inp))|
    ensures refIdx.Some? ==> forall k :: 0 <= k < |rs| ==>
      IsEntryOf(inp, Select(cs, Indexed(inp))[k], refIdx.value, alpha, beta, rs[k])
  {
    if |cs| == 0 then []
    else
      var front := Collect(inp, cs[..|cs| - 1], refIdx, alpha, beta);
      var c := cs[|cs| - 1];
      assert Select(cs, Indexed(inp)) ==
        Select(cs[..|cs| - 1], Indexed(inp)) + (if c.id in inp.idToIndex then [c] else []);
      if c.id in inp.idToIndex && refIdx.Some?
      then front + [Build(inp, c, refIdx.value, inp.idToIndex[c.id], alpha, beta)]
      else front
  }

  ghost predicate SortedByScore(rs: seq<Recommendation>) {
    forall i, j :: 0 <= i < j < |rs| ==> rs[i].score >= rs[j].score
  }

  function Score(r: Recommendation): real { r.score }

  /** `idx_ref = id_to_index.get(id_listing_ref)`. */
  function ReferenceIndex(inp: Inputs): Option<nat> {
    if inp.reference in inp.idToIndex then Some(inp.idToIndex[inp.reference]) else None
  }

  /** The scored candidates of the inputs: none when the reference has no
      index; otherwise the entry of each candidate other than the reference
      that has an index, in candidate order. */
  function Results(inp: Inputs, alpha: real, beta: real): (rs: seq<Recommendation>)
    ensures ReferenceIndex(inp).None? ==> rs == []
    ensures ReferenceIndex(inp).Some? ==> |rs| == |Select(Dropped(inp), Indexed(inp))|
    ensures ReferenceIndex(inp).Some? ==> forall k :: 0 <= k < |rs| ==>
      IsEntryOf(inp, Select(Dropped(inp), Indexed(inp))[k], ReferenceIndex(inp).value, alpha, beta, rs[k])
  {
    Collect(inp, Dropped(inp), ReferenceIndex(inp), alpha, beta)
  }

  /** What `recommander_hybride_par_titre` may return: the error record when
      no user rated the reference, otherwise the first `topN` of the scored
      candidates in non-increasing score order. */
  ghost predicate IsHybridOutcome(inp: Inputs, topN: int, alpha: real, beta: real, out: Outcome) {
    if !inp.anyRater then out == NoRaterError(NoRaterMessage)
    else (out.Recommendations? &&
      exists ranked :: multiset(ranked) == multiset(Results(inp, alpha, beta)) && SortedByScore(ranked) &&
                       Stable(ranked, Results(inp, alpha, beta), Score) &&
                       out.items == Take(ranked, topN))
  }

  /** Every scored candidate is some listing other than the reference, whose
      score is alpha times its similarity to the reference plus beta times
      its estimated rating over 5, with at most three positive reviews; with
      no index for the reference there are none. */
  lemma {:induction false} ResultsSound(inp: Inputs, alpha: real, beta: real)
    ensures ReferenceIndex(inp).None? ==> Results(inp, alpha, beta) == []
    ensures forall r :: r in Results(inp, alpha, beta) ==>
      && r.id != inp.reference
      && r.id in inp.idToIndex
      && inp.reference in inp.idToIndex
      && (exists c :: c in inp.candidates && c.id == r.id && c.estimate == r.estimate)
      && r.similarity == inp.similarity(inp.idToIndex[inp.reference], inp.idToIndex[r.id])
      && r.score == HybridScore(alpha, r.similarity, beta, r.estimate)
      && |r.positiveReviews| <= MaxPositiveReviews
    ensures inp.reference in inp.idToIndex ==>
      forall c :: c in inp.candidates && c.id != inp.reference && c.id in inp.idToIndex ==>
        Build(inp, c, inp.idToIndex[inp.reference], inp.idToIndex[c.id], alpha, beta) in Results(inp, alpha, beta)
  {
    if inp.reference in inp.idToIndex {
      forall c | c in inp.candidates && c.id != inp.reference && c.id in inp.idToIndex
        ensures Build(inp, c, inp.idToIndex[inp.reference], inp.idToIndex[c.id], alpha, beta) in Results(inp, alpha, beta)
      {
        ResultsComplete(inp, alpha, beta, c);
      }
    }
    forall r | r in Results(inp, alpha, beta)
      ensures r.id != inp.reference && r.id in inp.idToIndex && inp.reference in inp.idToIndex
      ensures exists c :: c in inp.candidates && c.id == r.id && c.estimate == r.estimate
      ensures r.similarity == inp.similarity(inp.idToIndex[inp.reference], inp.idToIndex[r.id])
      ensures r.score == HybridScore(alpha, r.similarity, beta, r.estimate)
      ensures |r.positiveReviews| <= MaxPositiveReviews
    {
      ResultSound(inp, alpha, beta, r);
    }
  }

  lemma {:induction false} ResultSound(inp: Inputs, alpha: real, beta: real, r: Recommendation)
    requires r in Results(inp, alpha, beta)
    ensures r.id != inp.reference && r.id in inp.idToIndex && inp.reference in inp.idToIndex
    ensures exists c :: c in inp.candidates && c.id == r.id && c.estimate == r.estimate
    ensures r.similarity == inp.similarity(inp.idToIndex[inp.reference], inp.idToIndex[r.id])
    ensures r.score == HybridScore(alpha, r.similarity, beta, r.estimate)
    ensures |r.positiveReviews| <= MaxPositiveReviews
  {
    var cs := Dropped(inp);
    var refIdx := ReferenceIndex(inp);
    assert refIdx.Some?;
    var rs := Results(inp, alpha, beta);
    var kept := Select(cs, Indexed(inp));
    var k :| 0 <= k < |rs| && rs[k] == r;
    var c := kept[k];
    assert IsEntryOf(inp, c, refIdx.value, alpha, beta, r);
    assert c in cs;
    BuildSound(inp, c, refIdx.value, inp.idToIndex[c.id], alpha, beta);
    assert multiset(cs)[c] > 0;
    assert c in inp.candidates && c.id != inp.reference;
    assert r.id == c.id && r.estimate == c.estimate;
    assert refIdx.value == inp.idToIndex[inp.reference];
  }

  /** Every candidate other than the reference that has an index is scored,
      when the reference has one. */
  lemma ResultsComplete(inp: Inputs, alpha: real, beta: real, c: Candidate)
    requires inp.reference in inp.idToIndex
    requires c in inp.candidates && c.id != inp.reference && c.id in inp.idToIndex
    ensures Build(inp, c, inp.idToIndex[inp.reference], inp.idToIndex[c.id], alpha, beta) in Results(inp, alpha, beta)
  {
    var kept := Select(Dropped(inp), Indexed(inp));
    assert c in multiset(Dropped(inp));
    assert c in multiset(kept);
    var k :| 0 <= k < |kept| && kept[k] == c;
    assert IsEntryOf(inp, kept[k], ReferenceIndex(inp).value, alpha, beta, Results(inp, alpha, beta)[k]);
  }

  /** One more candidate adds its entry when it and the reference have an
      index, and nothing otherwise. */
  lemma CollectSnoc(inp: Inputs, cs: seq<Candidate>, c: Candidate, refIdx: Option<nat>, alpha: real, beta: real)
    ensures Collect(inp, cs + [c], refIdx, alpha, beta) ==
      Collect(inp, cs, refIdx, alpha, beta) +
      if c.id in inp.idToIndex && refIdx.Some?
      then [Build(inp, c, refIdx.value, inp.idToIndex[c.id], alpha, beta)] else []
  {
    assert (cs + [c])[..|cs|] == cs;
  }

  /** The scoring loop with its two `continue`s. */
  method ScoreCandidates(inp: Inputs, candidates: seq<Candidate>, refIdx: Option<nat>, alpha: real, beta: real)
    returns (results: seq<Recommendation>)
    ensures results == Collect(inp, candidates, refIdx, alpha, beta)
  {
    results := [];
    for i := 0 to |candidates|
      invariant results == Collect(inp, candidates[..i], refIdx, alpha, beta)
    {
      var c := candidates[i];
      assert candidates[..i + 1] == candidates[..i] + [c];
      CollectSnoc(inp, candidates[..i], c, refIdx, alpha, beta);
      if c.id !in inp.idToIndex || refIdx.None? {
        continue;
      }
      results := results + [Build(inp, c, refIdx.value, inp.idToIndex[c.id], alpha, beta)];
    }
    assert candidates[..|candidates|] == candidates;
  }

  /** `recommander_hybride_par_titre` from the candidates on: the loop with
      its two `continue`s, the sort by score (descending) and the slice. */
  method RecommendHybrid(inp: Inputs, topN: int, alpha: real, beta: real) returns (out: Outcome)
    ensures IsHybridOutcome(inp, topN, alpha, beta, out)
    ensures out.Recommendations? ==> SortedByScore(out.items) && (topN >= 0 ==> |out.items| <= topN)
    ensures out.Recommendations? ==> forall r :: r in out.items ==> r in Results(inp, alpha, beta)
  {
    if !inp.anyRater {
      return NoRaterError(NoRaterMessage);
    }
    var refIdx := if inp.reference in inp.idToIndex then Some(inp.idToIndex[inp.reference]) else None;
    var results := ScoreCandidates(inp, Dropped(inp), refIdx, alpha, beta);
    assert results == Results(inp, alpha, beta);
    var sorted := SortDesc(results, Score);
    TopIsSortedSubset(sorted, results, topN);
    SortDescStable(results, Score);
    out := Recommendations(Take(sorted, topN));
    assert multiset(sorted) == multiset(Results(inp, alpha, beta)) && SortedByScore(sorted) &&
           Stable(sorted, Results(inp, alpha, beta), Score) && out.items == Take(sorted, topN);
  }

  /** A prefix of the score-sorted results is sorted and draws from them. */
  lemma {:induction false} TopIsSortedSubset(sorted: seq<Recommendation>, results: seq<Recommendation>, n: int)
    requires multiset(sorted) == multiset(results) && SortedDesc(sorted, Score)
    ensures SortedByScore(sorted) && SortedByScore(Take(sorted, n))
    ensures forall r :: r in Take(sorted, n) ==> r in results
  {
    forall i, j | 0 <= i < j < |sorted| ensures sorted[i].score >= sorted[j].score {
      assert Score(sorted[i]) >= Score(sorted[j]);
    }
    forall r | r in Take(sorted, n) ensures r in results {
      assert r in multiset(sorted);
    }
  }

  /** Every omitted scored candidate scores no more than every returned one. */
  lemma TopNIsBest(inp: Inputs, topN: int, alpha: real, beta: real, out: Outcome, ranked: seq<Recommendation>)
    requires inp.anyRater && out.Recommendations?
    requires multiset(ranked) == multiset(Results(inp, alpha, beta)) && SortedByScore(ranked)
    requires out.items == Take(ranked, topN)
    ensures forall i, j :: 0 <= i < |out.items| <= j < |ranked| ==> out.items[i].score >= ranked[j].score
  {
    PrefixScoresHigher(ranked, topN);
  }

  /** In a sequence sorted by score, the first `n` outscore the rest. */
  lemma PrefixScoresHigher(ranked: seq<Recommendation>, n: int)
    requires SortedByScore(ranked)
    ensures forall i, j :: 0 <= i < |Take(ranked, n)| <= j < |ranked| ==> Take(ranked, n)[i].score >= ranked[j].score
  {
    assert forall i :: 0 <= i < |Take(ranked, n)| ==> Take(ranked, n)[i] == ranked[i];
  }

  datatype Response = BadRequest(message: string) | Json(outcome: Outcome)

  const TitleRequired: string := "Title is required"

  /** The `/recommend` route: a missing or empty "title" is rejected with the
      400 message before any scoring; otherwise the recommender runs with
      its defaults (`top_n` 5, alpha and beta 0.5) on the inputs selected by
      that title. */
  method Recommend(title: Option<string>, inp: Inputs) returns (resp: Response)
    ensures resp.BadRequest? <==> (title.None? || title.value == "")
    ensures resp.BadRequest? ==> resp.message == TitleRequired
    ensures resp.Json? ==> IsHybridOutcome(inp, 5, 0.5, 0.5, resp.outcome)
    ensures resp.Json? && resp.outcome.Recommendations? ==> |resp.outcome.items| <= 5
  {
    var titre := title.GetOr("");
    if titre == "" {
      return BadRequest(TitleRequired);
    }
    var recommendations := RecommendHybrid(inp, 5, 0.5, 0.5);
    return Json(recommendations);
  }
}
