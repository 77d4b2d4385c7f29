/** The rule-based accommodation chatbot (03_CHATBOT/scripts/chatbot_hebergement.py):
    query analysis by keyword containment, filtering of the aggregated
    listings, weighted ranking, the top-N answer with its history entry, and
    the pieces of the listing card (quality badge, review preview). */
module Hebergement {
  import opened Wrappers
  import opened Text
  import opened Sequences
  import ConfigChatbot

  // ----- data -----

  /** One row of the table aggregated per listing at load time. A value that
      pandas holds as NaN is `None`. */
  datatype Listing = Listing(
    id: int,
    title: string,
    city: Option<string>,         // city_listing
    rating: Option<real>,         // rating_listing
    cleanliness: Option<real>,    // rating/cleanliness
    communication: Option<real>,  // rating/communication
    location: Option<real>,       // rating/location
    value: Option<real>,          // rating/value
    sentiment: Option<real>,      // mean of sentiment_score
    avgReview: Option<real>,      // mean of rating_review
    sampleReviews: string)        // first three review texts, joined

  /** pandas' `fillna(0)`. */
  function FillNa(x: Option<real>): real { x.GetOr(0.0) }

  /** The `quality_score` column computed at load time. */
  function QualityScore(l: Listing): real {
    FillNa(l.rating) * 0.3 + FillNa(l.sentiment) * 0.3 +
    FillNa(l.avgReview) * 0.2 + FillNa(l.cleanliness) * 0.2
  }

  /** The four inputs of the quality score, in the order of the configured
      weights. */
  function ScoreInputs(l: Listing): seq<real> {
    [FillNa(l.rating), FillNa(l.sentiment), FillNa(l.avgReview), FillNa(l.cleanliness)]
  }

  /** Σ wᵢ·vᵢ over a weight table and a value list of the same length. */
  function Weighted(ws: seq<(string, real)>, vs: seq<real>): real
    requires |ws| == |vs|
  {
    if |ws| == 0 then 0.0
    else Weighted(ws[..|ws| - 1], vs[..|vs| - 1]) + ws[|ws| - 1].1 * vs[|vs| - 1]
  }

  /** The hard-coded formula weighs its inputs exactly as the configuration's
      `QUALITY_SCORING['weights']` says. */
  lemma QualityScoreUsesConfiguredWeights(l: Listing)
    ensures QualityScore(l) == Weighted(ConfigChatbot.QualityWeights, ScoreInputs(l))
  {
    var w, v := ConfigChatbot.QualityWeights, ScoreInputs(l);
    assert w[..1][..0] == [] && v[..1][..0] == [];
    assert Weighted(w[..1], v[..1]) == 0.3 * v[0];
    assert w[..2][..1] == w[..1] && v[..2][..1] == v[..1];
    assert Weighted(w[..2], v[..2]) == 0.3 * v[0] + 0.3 * v[1];
    assert w[..3][..2] == w[..2] && v[..3][..2] == v[..2];
    assert Weighted(w[..3], v[..3]) == 0.3 * v[0] + 0.3 * v[1] + 0.2 * v[2];
    assert w[..4][..3] == w[..3] && v[..4][..3] == v[..3];
    assert w[..4] == w && v[..4] == v;
  }

  ghost predicate InRange(x: Option<real>, lo: real, hi: real) {
    x.None? || lo <= x.value <= hi
  }

  /** With ratings on Airbnb's 0–5 scale and sentiment in [0, 1], the quality
      score lies in [0, 3.8]: it never reaches the 4.0 and 4.5 badge
      thresholds. */
  lemma QualityScoreRange(l: Listing)
    requires InRange(l.rating, 0.0, 5.0) && InRange(l.avgReview, 0.0, 5.0)
    requires InRange(l.cleanliness, 0.0, 5.0) && InRange(l.sentiment, 0.0, 1.0)
    ensures 0.0 <= QualityScore(l) <= 3.8
    ensures BadgeFor(QualityScore(l)) == Bon || BadgeFor(QualityScore(l)) == Correct
  {
  }

  // ----- keyword dictionaries -----

  /** A keyword dictionary: key and its keywords, in dictionary order. */
  type KeywordTable = seq<(string, seq<string>)>

  const LocationKeywords: KeywordTable := [
    ("hammamet", ["hammamet", "hammamat", "hammet", "hamam"]),
    ("jerba", ["jerba", "djerba", "gerba", "jerb"])
  ]

  const QualityKeywords: KeywordTable := [
    ("propre", ["propre", "propreté", "clean", "cleanliness", "hygiène"]),
    ("communication", ["communication", "réactif", "responsive", "contact", "hôte"]),
    ("localisation", ["localisation", "location", "plage", "beach", "centre", "proche"]),
    ("prix", ["prix", "price", "budget", "cher", "économique", "abordable"]),
    ("moderne", ["moderne", "modern", "neuf", "nouveau", "récent"]),
    ("confort", ["confort", "comfortable", "lit", "bed", "équipé"])
  ]

  const SentimentKeywords: KeywordTable := [
    ("positif", ["bon", "excellent", "parfait", "recommande", "super", "génial"]),
    ("négatif", ["mauvais", "décevant", "problème", "sale", "bruyant"])
  ]

  const ExcellentWords: seq<string> := ["meilleur", "top", "excellent"]
  const GoodWords: seq<string> := ["bon", "bien", "qualité"]

  const MinRatingExcellent: real := 3.5
  const MinRatingGood: real := 3.0
  const PositiveSentiment: real := 0.7
  const NegativeSentiment: real := 0.3
  const ReviewPreviewLength: nat := 150

  /** `any(keyword in q for keyword in keywords)`. */
  predicate AnyKeyword(keywords: seq<string>, q: string) {
    exists k :: k in keywords && Contains(q, k)
  }

  /** Whether an entry of a table has a keyword in `q`. */
  function Hits(q: string): ((string, seq<string>)) -> bool {
    (e: (string, seq<string>)) => AnyKeyword(e.1, q)
  }

  /** The first key (in dictionary order) one of whose keywords occurs in `q`. */
  function FirstKey(t: KeywordTable, q: string): Option<string> {
    match FirstIndex(t, Hits(q))
    case Some(i) => Some(t[i].0)
    case None => None
  }

  /** The keys of a table, in order. */
  function Keys(t: KeywordTable): (r: seq<string>)
    ensures |r| == |t| && forall i :: 0 <= i < |t| ==> r[i] == t[i].0
  {
    if |t| == 0 then [] else Keys(t[..|t| - 1]) + [t[|t| - 1].0]
  }

  /** Every key one of whose keywords occurs in `q`, in dictionary order. */
  function MatchingKeys(t: KeywordTable, q: string): (r: seq<string>)
    ensures forall k :: k in r ==> exists j :: 0 <= j < |t| && t[j].0 == k && AnyKeyword(t[j].1, q)
    ensures forall j :: 0 <= j < |t| && AnyKeyword(t[j].1, q) ==> t[j].0 in r
    ensures IsSubsequence(r, Keys(t))
  {
    if |t| == 0 then []
    else
      var front := MatchingKeys(t[..|t| - 1], q);
      var hit := AnyKeyword(t[|t| - 1].1, q);
      SubsequenceSnoc(front, Keys(t[..|t| - 1]), t[|t| - 1].0, hit);
      assert Keys(t) == Keys(t[..|t| - 1]) + [t[|t| - 1].0];
      assert forall j :: 0 <= j < |t| - 1 ==> t[..|t| - 1][j] == t[j];
      front + (if hit then [t[|t| - 1].0] else [])
  }

  // ----- query analysis -----

  /** The criteria record built from a query. `price_range` is always None in
      the source and nothing reads it, so it is not represented. */
  datatype Criteria = Criteria(
    city: Option<string>,
    qualityFocus: seq<string>,
    sentimentFilter: Option<string>,
    minRating: Option<real>)

  /** The city of a lower-cased query: the first location key with a
      keyword in it, title-cased. */
  function DetectCity(q: string): Option<string> {
    match FirstKey(LocationKeywords, q)
    case Some(k) => Some(TitleWord(k))
    case None => None
  }

  /** The minimum rating asked for by a lower-cased query. */
  function DetectMinRating(q: string): Option<real> {
    if AnyKeyword(ExcellentWords, q) then Some(MinRatingExcellent)
    else if AnyKeyword(GoodWords, q) then Some(MinRatingGood)
    else None
  }

  /** What `analyze_query` computes, as a function of the query. */
  function Analyze(query: string): Criteria {
    var q := Lower(query);
    Criteria(DetectCity(q), MatchingKeys(QualityKeywords, q), FirstKey(SentimentKeywords, q), DetectMinRating(q))
  }

  /** The first-match rule on a two-entry table. */
  lemma FirstKeyOfTwo(t: KeywordTable, q: string)
    requires |t| == 2
    ensures FirstKey(t, q) ==
      if AnyKeyword(t[0].1, q) then Some(t[0].0)
      else if AnyKeyword(t[1].1, q) then Some(t[1].0)
      else None
  {
    if AnyKeyword(t[0].1, q) {
      FirstIndexIs(t, Hits(q), 0);
    } else if AnyKeyword(t[1].1, q) {
      FirstIndexIs(t, Hits(q), 1);
    }
  }

  /** The two location keys title-case to the city names the listings use. */
  lemma CityNamesTitled()
    ensures TitleWord("hammamet") == "Hammamet" && TitleWord("jerba") == "Jerba"
  {
    var h, j := TitleWord("hammamet"), TitleWord("jerba");
    assert Lower("ammamet") == "ammamet" by {
      var r := Lower("ammamet");
      assert forall i :: 0 <= i < 7 ==> !IsUpperLetter("ammamet"[i]);
    }
    assert Lower("erba") == "erba" by {
      assert forall i :: 0 <= i < 4 ==> !IsUpperLetter("erba"[i]);
    }
  }

  /** The loop-with-`break` of `analyze_query`: the first key of `t` with a
      keyword occurring in `q`. */
  method FirstMatchingKey(t: KeywordTable, q: string) returns (key: Option<string>)
    ensures key == FirstKey(t, q)
  {
    for i := 0 to |t|
      invariant forall j :: 0 <= j < i ==> !Hits(q)(t[j])
    {
      if AnyKeyword(t[i].1, q) {
        FirstIndexIs(t, Hits(q), i);
        return Some(t[i].0);
      }
    }
    return None;
  }

  /** The loop that appends every key of `t` with a keyword occurring in
      `q`, in table order. */
  method AllMatchingKeys(t: KeywordTable, q: string) returns (keys: seq<string>)
    ensures keys == MatchingKeys(t, q)
  {
    keys := [];
    for i := 0 to |t|
      invariant keys == MatchingKeys(t[..i], q)
    {
      assert t[..i + 1][..i] == t[..i];
      if AnyKeyword(t[i].1, q) {
        keys := keys + [t[i].0];
      }
    }
    assert t[..|t|] == t;
  }

  /** `analyze_query`: lower-cases the query, then detects the city (first
      match, title-cased), the quality categories (all matches), the
      sentiment (first match) and the minimum rating. */
  method AnalyzeQuery(query: string) returns (c: Criteria)
    ensures c == Analyze(query)
  {
    var q := Lower(query);
    var city: Option<string> := None;
    var cityKey := FirstMatchingKey(LocationKeywords, q);
    if cityKey.Some? {
      city := Some(TitleWord(cityKey.value));
    }
    var focus := AllMatchingKeys(QualityKeywords, q);
    var sentiment := FirstMatchingKey(SentimentKeywords, q);
    var minRating: Option<real> := None;
    if AnyKeyword(ExcellentWords, q) {
      minRating := Some(MinRatingExcellent);
    } else if AnyKeyword(GoodWords, q) {
      minRating := Some(MinRatingGood);
    }
    c := Criteria(city, focus, sentiment, minRating);
  }

  /** The city is "Hammamet" exactly when a Hammamet keyword occurs in the
      lower-cased query; "Jerba" exactly when none does and a Jerba keyword
      does; otherwise there is none. */
  lemma AnalyzeCity(query: string)
    ensures var q := Lower(query);
      && (Analyze(query).city == Some("Hammamet") <==> AnyKeyword(LocationKeywords[0].1, q))
      && (Analyze(query).city == Some("Jerba") <==>
            !AnyKeyword(LocationKeywords[0].1, q) && AnyKeyword(LocationKeywords[1].1, q))
      && (Analyze(query).city == None <==>
            !AnyKeyword(LocationKeywords[0].1, q) && !AnyKeyword(LocationKeywords[1].1, q))
  {
    FirstKeyOfTwo(LocationKeywords, Lower(query));
    CityNamesTitled();
  }

  /** The sentiment is "positif" whenever a positive keyword occurs, even if
      a negative one occurs too; "négatif" when only negative ones occur. */
  lemma AnalyzeSentiment(query: string)
    ensures var q := Lower(query);
      && (Analyze(query).sentimentFilter == Some("positif") <==> AnyKeyword(SentimentKeywords[0].1, q))
      && (Analyze(query).sentimentFilter == Some("négatif") <==>
            !AnyKeyword(SentimentKeywords[0].1, q) && AnyKeyword(SentimentKeywords[1].1, q))
      && (Analyze(query).sentimentFilter == None <==>
            !AnyKeyword(SentimentKeywords[0].1, q) && !AnyKeyword(SentimentKeywords[1].1, q))
  {
    FirstKeyOfTwo(SentimentKeywords, Lower(query));
  }

  lemma QualityKeysDistinct()
    ensures Distinct(Keys(QualityKeywords))
  {
    var keys := Keys(QualityKeywords);
    assert keys == ["propre", "communication", "localisation", "prix", "moderne", "confort"];
  }

  /** The quality focus lists exactly the categories with a matching keyword,
      in dictionary order, each at most once. */
  lemma AnalyzeQualityFocus(query: string)
    ensures var focus := Analyze(query).qualityFocus;
      && (forall j :: 0 <= j < |QualityKeywords| ==>
            (QualityKeywords[j].0 in focus <==> AnyKeyword(QualityKeywords[j].1, Lower(query))))
      && (forall k :: k in focus ==> k in Keys(QualityKeywords))
      && IsSubsequence(focus, Keys(QualityKeywords))
      && Distinct(focus)
  {
    var q := Lower(query);
    var focus := MatchingKeys(QualityKeywords, q);
    var keys := Keys(QualityKeywords);
    QualityKeysDistinct();
    SubsequenceDistinct(focus, keys);
    SubsequenceMembers(focus, keys);
    forall j | 0 <= j < |QualityKeywords| && QualityKeywords[j].0 in focus
      ensures AnyKeyword(QualityKeywords[j].1, q)
    {
      var j' :| 0 <= j' < |QualityKeywords| && QualityKeywords[j'].0 == QualityKeywords[j].0 && AnyKeyword(QualityKeywords[j'].1, q);
      assert keys[j] == keys[j'];
    }
  }

  /** The minimum rating is 3.5 when "meilleur", "top" or "excellent" occurs,
      otherwise 3.0 when "bon", "bien" or "qualité" occurs, otherwise none. */
  lemma AnalyzeMinRating(query: string)
    ensures var q := Lower(query);
      && (Analyze(query).minRating == Some(3.5) <==> AnyKeyword(ExcellentWords, q))
      && (Analyze(query).minRating == Some(3.0) <==> !AnyKeyword(ExcellentWords, q) && AnyKeyword(GoodWords, q))
      && (Analyze(query).minRating == None <==> !AnyKeyword(ExcellentWords, q) && !AnyKeyword(GoodWords, q))
  {
  }

  // ----- filtering -----

  /** `city_listing.str.contains(city, case=False, na=False)`. */
  predicate CityMatches(l: Listing, city: string) {
    l.city.Some? && Contains(Lower(l.city.value), Lower(city))
  }

  /** Filtering by a title-cased key is a case-insensitive match against the
      key itself: the capital that `title()` adds changes nothing. */
  lemma CityMatchIgnoresTitleCase(l: Listing, k: string)
    ensures CityMatches(l, TitleWord(k)) <==> l.city.Some? && Contains(Lower(l.city.value), Lower(k))
  {
    LowerTitleWord(k);
  }

  predicate CityPasses(c: Criteria, l: Listing) {
    c.city.None? || |c.city.value| == 0 || CityMatches(l, c.city.value)
  }

  /** A `min_rating` of None or 0.0 is falsy in Python and filters nothing. */
  predicate RatingPasses(c: Criteria, l: Listing) {
    c.minRating.None? || c.minRating.value == 0.0 || QualityScore(l) >= c.minRating.value
  }

  /** A missing sentiment (NaN) fails both comparisons. */
  predicate SentimentPasses(c: Criteria, l: Listing) {
    if c.sentimentFilter == Some("positif") then l.sentiment.Some? && l.sentiment.value >= PositiveSentiment
    else if c.sentimentFilter == Some("négatif") then l.sentiment.Some? && l.sentiment.value <= NegativeSentiment
    else true
  }

  /** A listing survives `filter_listings` for these criteria. */
  predicate Admits(c: Criteria, l: Listing) {
    CityPasses(c, l) && RatingPasses(c, l) && SentimentPasses(c, l)
  }

  /** The city mask, applied only when the criteria name a non-empty city. */
  function FilterCity(ls: seq<Listing>, c: Criteria): (r: seq<Listing>)
    ensures IsSubsequence(r, ls)
    ensures forall x :: multiset(r)[x] == if CityPasses(c, x) then multiset(ls)[x] else 0
  {
    if c.city.Some? && |c.city.value| > 0 then
      var p := (l: Listing) => CityMatches(l, c.city.value);
      SelectIsSubsequence(ls, p);
      Select(ls, p)
    else
      SubsequenceRefl(ls);
      ls
  }

  /** The `quality_score >= min_rating` mask, applied only when `min_rating`
      is truthy. */
  function FilterRating(ls: seq<Listing>, c: Criteria): (r: seq<Listing>)
    ensures IsSubsequence(r, ls)
    ensures forall x :: multiset(r)[x] == if RatingPasses(c, x) then multiset(ls)[x] else 0
  {
    if c.minRating.Some? && c.minRating.value != 0.0 then
      var p := (l: Listing) => QualityScore(l) >= c.minRating.value;
      SelectIsSubsequence(ls, p);
      Select(ls, p)
    else
      SubsequenceRefl(ls);
      ls
  }

  /** The sentiment mask for "positif" or "négatif". */
  function FilterSentiment(ls: seq<Listing>, c: Criteria): (r: seq<Listing>)
    ensures IsSubsequence(r, ls)
    ensures forall x :: multiset(r)[x] == if SentimentPasses(c, x) then multiset(ls)[x] else 0
  {
    if c.sentimentFilter == Some("positif") || c.sentimentFilter == Some("négatif") then
      var p := (l: Listing) => SentimentPasses(c, l);
      SelectIsSubsequence(ls, p);
      Select(ls, p)
    else
      SubsequenceRefl(ls);
      ls
  }

  /** `filter_listings`: the three masks applied one after the other; no
      listings loaded gives an empty result. The result keeps, in order,
      exactly the listings the criteria admit. */
  function FilterListings(listings: Option<seq<Listing>>, c: Criteria): (r: seq<Listing>)
    ensures listings.None? ==> r == []
    ensures listings.Some? ==> IsSubsequence(r, listings.value)
    ensures listings.Some? ==>
      forall x :: multiset(r)[x] == if Admits(c, x) then multiset(listings.value)[x] else 0
  {
    match listings
    case None => []
    case Some(all) =>
      var byCity := FilterCity(all, c);
      var byRating := FilterRating(byCity, c);
      var r := FilterSentiment(byRating, c);
      SubsequenceTransitive(r, byRating, byCity);
      SubsequenceTransitive(r, byCity, all);
      r
  }

  /** Every listing `filter_listings` keeps was loaded and meets each
      criterion: its city contains the criteria city case-insensitively, its
      quality score reaches the minimum rating, and its sentiment is at least
      0.7 for "positif" and at most 0.3 for "négatif". Every admitted listing
      is kept. */
  lemma FilterListingsSound(listings: seq<Listing>, c: Criteria)
    ensures forall l :: l in FilterListings(Some(listings), c) ==>
      && l in listings
      && (c.city.Some? && c.city.value != "" ==> l.city.Some? && Contains(Lower(l.city.value), Lower(c.city.value)))
      && (c.minRating.Some? && c.minRating.value != 0.0 ==> QualityScore(l) >= c.minRating.value)
      && (c.sentimentFilter == Some("positif") ==> l.sentiment.Some? && l.sentiment.value >= 0.7)
      && (c.sentimentFilter == Some("négatif") ==> l.sentiment.Some? && l.sentiment.value <= 0.3)
    ensures forall l :: l in listings && Admits(c, l) ==> l in FilterListings(Some(listings), c)
  {
    var r := FilterListings(Some(listings), c);
    forall l | l in r ensures l in listings && Admits(c, l) {
      assert multiset(r)[l] > 0;
    }
    forall l | l in listings && Admits(c, l) ensures l in r {
      assert multiset(listings)[l] > 0;
    }
  }

  // ----- ranking -----

  /** The weighted sub-rating one focus category adds; "moderne", "confort"
      and anything else add nothing. */
  function SubRatingBonus(focus: string, l: Listing): real {
    if focus == "propre" then FillNa(l.cleanliness) * 0.5
    else if focus == "communication" then FillNa(l.communication) * 0.5
    else if focus == "localisation" then FillNa(l.location) * 0.5
    else if focus == "prix" then FillNa(l.value) * 0.5
    else 0.0
  }

  /** The bonuses of a focus list, added from left to right as the loop does. */
  function FocusBonus(focus: seq<string>, l: Listing): real {
    if |focus| == 0 then 0.0
    else FocusBonus(focus[..|focus| - 1], l) + SubRatingBonus(focus[|focus| - 1], l)
  }

  /** The sort key of `rank_by_criteria`: `quality_score` when there is no
      focus, `custom_score` otherwise. */
  function RankKey(c: Criteria, l: Listing): real {
    QualityScore(l) + FocusBonus(c.qualityFocus, l)
  }

  /** Without a focus the key is the quality score itself. */
  lemma RankKeyWithoutFocus(c: Criteria, l: Listing)
    requires c.qualityFocus == []
    ensures RankKey(c, l) == QualityScore(l)
  {
  }

  /** For a focus list without repetitions (as `analyze_query` produces), the
      key is the quality score plus half of each requested sub-rating, a
      missing sub-rating counting as 0. */
  lemma {:induction false} FocusBonusExplicit(focus: seq<string>, l: Listing)
    requires Distinct(focus)
    ensures FocusBonus(focus, l) ==
      (if "propre" in focus then FillNa(l.cleanliness) * 0.5 else 0.0) +
      (if "communication" in focus then FillNa(l.communication) * 0.5 else 0.0) +
      (if "localisation" in focus then FillNa(l.location) * 0.5 else 0.0) +
      (if "prix" in focus then FillNa(l.value) * 0.5 else 0.0)
    decreases |focus|
  {
    if |focus| > 0 {
      var front, f := focus[..|focus| - 1], focus[|focus| - 1];
      assert Distinct(front);
      assert f !in front;
      assert forall x :: x in focus <==> x in front || x == f by {
        assert focus == front + [f];
      }
      FocusBonusExplicit(front, l);
    }
  }

  /** The focus categories "moderne" and "confort" never change the key. */
  lemma StyleFocusAddsNothing(focus: seq<string>, l: Listing, style: string)
    requires style == "moderne" || style == "confort"
    ensures FocusBonus(focus + [style], l) == FocusBonus(focus, l)
  {
    assert (focus + [style])[..|focus|] == focus;
  }

  /** `r` is `ls` reordered by non-increasing key. */
  ghost predicate IsRankingOf(r: seq<Listing>, ls: seq<Listing>, c: Criteria) {
    && multiset(r) == multiset(ls)
    && forall i, j :: 0 <= i < j < |r| ==> RankKey(c, r[i]) >= RankKey(c, r[j])
  }

  /** The `score +=` loop of `rank_by_criteria`, for one listing. */
  method CustomScore(l: Listing, focus: seq<string>) returns (score: real)
    ensures score == QualityScore(l) + FocusBonus(focus, l)
  {
    score := QualityScore(l);
    for i := 0 to |focus|
      invariant score == QualityScore(l) + FocusBonus(focus[..i], l)
    {
      assert focus[..i + 1][..i] == focus[..i];
      var f := focus[i];
      if f == "propre" {
        score := score + FillNa(l.cleanliness) * 0.5;
      } else if f == "communication" {
        score := score + FillNa(l.communication) * 0.5;
      } else if f == "localisation" {
        score := score + FillNa(l.location) * 0.5;
      } else if f == "prix" {
        score := score + FillNa(l.value) * 0.5;
      }
    }
    assert focus[..|focus|] == focus;
  }

  function ByScore(p: (real, Listing)): real { p.0 }
  function Unscored(p: (real, Listing)): Listing { p.1 }

  /** `rank_by_criteria`: the listings paired with their sort key (the
      `custom_score` column when there is a focus), sorted by it in
      descending order. The order of ties is not promised. */
  method RankByCriteria(ls: seq<Listing>, c: Criteria) returns (r: seq<Listing>)
    ensures IsRankingOf(r, ls, c)
  {
    if |ls| == 0 {
      return ls;
    }
    var scored: seq<(real, Listing)> := [];
    if |c.qualityFocus| == 0 {
      for i := 0 to |ls|
        invariant |scored| == i
        invariant forall k :: 0 <= k < i ==> scored[k] == (RankKey(c, ls[k]), ls[k])
      {
        scored := scored + [(QualityScore(ls[i]), ls[i])];
      }
    } else {
      for i := 0 to |ls|
        invariant |scored| == i
        invariant forall k :: 0 <= k < i ==> scored[k] == (RankKey(c, ls[k]), ls[k])
      {
        var s := CustomScore(ls[i], c.qualityFocus);
        scored := scored + [(s, ls[i])];
      }
    }
    var sorted := SortDesc(scored, ByScore);
    r := MapSeq(sorted, Unscored);
    SortedScoresRank(scored, ls, c);
  }

  /** A pair holds a listing and its sort key. */
  ghost predicate Keyed(c: Criteria, p: (real, Listing)) {
    p.0 == RankKey(c, p.1)
  }

  /** Sorting listings paired with their keys by the key, then dropping the
      keys, ranks the listings. */
  lemma {:induction false} SortedScoresRank(scored: seq<(real, Listing)>, ls: seq<Listing>, c: Criteria)
    requires |scored| == |ls|
    requires forall k :: 0 <= k < |ls| ==> scored[k] == (RankKey(c, ls[k]), ls[k])
    ensures IsRankingOf(MapSeq(SortDesc(scored, ByScore), Unscored), ls, c)
  {
    PairsOf(scored, ls, c);
    MapSortDesc(scored, ByScore, Unscored);
    SortKeepsKeyed(scored, c);
    SortedPairsRank(SortDesc(scored, ByScore), c);
  }

  /** Listings paired with their keys: dropping the keys gives the listings
      back, and every pair is keyed. */
  lemma PairsOf(scored: seq<(real, Listing)>, ls: seq<Listing>, c: Criteria)
    requires |scored| == |ls|
    requires forall k :: 0 <= k < |ls| ==> scored[k] == (RankKey(c, ls[k]), ls[k])
    ensures MapSeq(scored, Unscored) == ls
    ensures forall k :: 0 <= k < |scored| ==> Keyed(c, scored[k])
  {
  }

  lemma {:induction false} SortKeepsKeyed(scored: seq<(real, Listing)>, c: Criteria)
    requires forall k :: 0 <= k < |scored| ==> Keyed(c, scored[k])
    ensures forall i :: 0 <= i < |SortDesc(scored, ByScore)| ==> Keyed(c, SortDesc(scored, ByScore)[i])
  {
    var sorted := SortDesc(scored, ByScore);
    forall i | 0 <= i < |sorted| ensures Keyed(c, sorted[i]) {
      assert sorted[i] in multiset(scored);
      var k :| 0 <= k < |scored| && scored[k] == sorted[i];
    }
  }

  lemma {:induction false} SortedPairsRank(sorted: seq<(real, Listing)>, c: Criteria)
    requires forall i :: 0 <= i < |sorted| ==> Keyed(c, sorted[i])
    requires SortedDesc(sorted, ByScore)
    ensures forall i, j :: 0 <= i < j < |sorted| ==> RankKey(c, MapSeq(sorted, Unscored)[i]) >= RankKey(c, MapSeq(sorted, Unscored)[j])
  {
    var r := MapSeq(sorted, Unscored);
    forall i, j | 0 <= i < j < |r| ensures RankKey(c, r[i]) >= RankKey(c, r[j]) {
      assert Keyed(c, sorted[i]) && Keyed(c, sorted[j]);
      assert ByScore(sorted[i]) >= ByScore(sorted[j]);
    }
  }

  // ----- the answer -----

  /** Every listing among the first `n` of a ranking of the filtered
      listings is admitted by the criteria. */
  lemma {:induction false} RankedPrefixAdmitted(ls: seq<Listing>, c: Criteria, ranked: seq<Listing>, n: int)
    requires IsRankingOf(ranked, FilterListings(Some(ls), c), c)
    ensures forall i :: 0 <= i < |Take(ranked, n)| ==> Admits(c, Take(ranked, n)[i])
  {
    var filtered := FilterListings(Some(ls), c);
    var results := Take(ranked, n);
    forall i | 0 <= i < |results| ensures Admits(c, results[i]) {
      assert results[i] == ranked[i];
      assert ranked[i] in multiset(filtered);
    }
  }

  /** One entry of `conversation_history` (the timestamp is not modelled). */
  datatype QueryRecord = QueryRecord(query: string, criteria: Criteria, resultsCount: nat)

  /** Which answer `generate_response` gives; the text around it is not
      modelled. */
  datatype Reply =
    | DataUnavailable
    | NoResults(criteria: Criteria)
    | Found(query: string, criteria: Criteria, count: nat)

  /** `results` is the first `n` of some ranking of the listings of `all`
      that the criteria admit. */
  ghost predicate IsTopOf(results: seq<Listing>, all: seq<Listing>, c: Criteria, n: int) {
    exists ranked :: IsRankingOf(ranked, FilterListings(Some(all), c), c) && results == Take(ranked, n)
  }

  /** The search inside `generate_response` once listings are loaded:
      analyse the query, filter, rank and keep the first `topN`. Every
      listing returned is admitted by the query's criteria. */
  method Search(all: seq<Listing>, query: string, topN: int) returns (criteria: Criteria, results: seq<Listing>)
    ensures criteria == Analyze(query)
    ensures IsTopOf(results, all, criteria, topN)
    ensures topN >= 0 ==> |results| <= topN
    ensures forall i :: 0 <= i < |results| ==> Admits(criteria, results[i])
  {
    criteria := AnalyzeQuery(query);
    var filtered := FilterListings(Some(all), criteria);
    var ranked := RankByCriteria(filtered, criteria);
    results := Take(ranked, topN);
    RankedPrefixAdmitted(all, criteria, ranked, topN);
  }

  class ChatbotHebergement {
    /** The aggregated listings, or None when loading failed. `load_data`
        sets them once, during construction. */
    const listings: Option<seq<Listing>>
    var conversationHistory: seq<QueryRecord>

    /** `__init__`: the outcome of `load_data` is given, the history starts
        empty. */
    constructor (loaded: Option<seq<Listing>>)
      ensures listings == loaded && conversationHistory == []
    {
      listings := loaded;
      conversationHistory := [];
    }

    /** `generate_response`: analyse, filter, rank, keep the first `topN`.
        The history grows by one entry, recording the number of results,
        exactly when there are results. */
    method GenerateResponse(query: string, topN: int) returns (reply: Reply, results: seq<Listing>)
      modifies this`conversationHistory
      ensures listings.None? ==>
        reply == DataUnavailable && results == [] && conversationHistory == old(conversationHistory)
      ensures listings.Some? ==> IsTopOf(results, listings.value, Analyze(query), topN)
      ensures listings.Some? && results == [] ==>
        reply == NoResults(Analyze(query)) && conversationHistory == old(conversationHistory)
      ensures results != [] ==>
        reply == Found(query, Analyze(query), |results|) &&
        conversationHistory == old(conversationHistory) + [QueryRecord(query, Analyze(query), |results|)]
      ensures topN >= 0 ==> |results| <= topN
      ensures forall i :: 0 <= i < |results| ==> Admits(Analyze(query), results[i])
    {
      if listings.None? {
        return DataUnavailable, [];
      }
      var criteria;
      criteria, results := Search(listings.value, query, topN);
      if |results| == 0 {
        return NoResults(criteria), [];
      }
      conversationHistory := conversationHistory + [QueryRecord(query, criteria, |results|)];
      reply := Found(query, criteria, |results|);
    }
  }

  // ----- the listing card -----

  datatype Badge = Excellent | TresBon | Bon | Correct

  /** The badge of `format_listing_info`. */
  function BadgeFor(score: real): Badge {
    if score >= 4.5 then Excellent
    else if score >= 4.0 then TresBon
    else if score >= 3.5 then Bon
    else Correct
  }

  function BadgeLabel(b: Badge): string {
    match b
    case Excellent => "🏆 EXCELLENT"
    case TresBon => "⭐ TRÈS BON"
    case Bon => "👍 BON"
    case Correct => "📍 CORRECT"
  }

  function BadgeLevel(b: Badge): nat {
    match b
    case Excellent => 3
    case TresBon => 2
    case Bon => 1
    case Correct => 0
  }

  /** A higher score never earns a lower badge. */
  lemma BadgeMonotone(s1: real, s2: real)
    requires s1 <= s2
    ensures BadgeLevel(BadgeFor(s1)) <= BadgeLevel(BadgeFor(s2))
  {
  }

  /** The badge chosen by the if-chain is the label of the first entry of the
      configured badge table whose threshold the (non-negative) score
      reaches. */
  lemma BadgeMatchesDisplayConfig(score: real)
    requires score >= 0.0
    ensures exists i :: (0 <= i < |ConfigChatbot.QualityBadges| &&
      score >= ConfigChatbot.QualityBadges[i].0 &&
      (forall j :: 0 <= j < i ==> score < ConfigChatbot.QualityBadges[j].0) &&
      BadgeLabel(BadgeFor(score)) == ConfigChatbot.QualityBadges[i].1)
  {
    var t := ConfigChatbot.QualityBadges;
    if score >= 4.5 { assert BadgeLabel(BadgeFor(score)) == t[0].1; }
    else if score >= 4.0 { assert BadgeLabel(BadgeFor(score)) == t[1].1; }
    else if score >= 3.5 { assert BadgeLabel(BadgeFor(score)) == t[2].1; }
    else { assert BadgeLabel(BadgeFor(score)) == t[3].1; }
  }

  /** The review preview: the text itself up to 150 characters, otherwise
      its first 150 characters followed by "...". */
  function ReviewPreview(text: string): (r: string)
    ensures |text| <= ReviewPreviewLength ==> r == text
    ensures |text| > ReviewPreviewLength ==> r == text[..ReviewPreviewLength] + "..."
    ensures Min(|text|, ReviewPreviewLength) <= |r| <= ReviewPreviewLength + 3
    ensures r[..Min(|text|, ReviewPreviewLength)] == text[..Min(|text|, ReviewPreviewLength)]
  {
    if |text| > ReviewPreviewLength then text[..ReviewPreviewLength] + "..." else text
  }

  /** Previewing a preview changes nothing. */
  lemma ReviewPreviewIdempotent(text: string)
    ensures ReviewPreview(ReviewPreview(text)) == ReviewPreview(text)
  {
    if |text| > ReviewPreviewLength {
      var p := ReviewPreview(text);
      assert p[..ReviewPreviewLength] == text[..ReviewPreviewLength];
    }
  }
}
