/** The LangChain-backed chatbot (03_CHATBOT/scripts/chatbot_langchain_advanced.py):
    the model-name lookup, the keyword fallback, the confidence score and the
    conversation history with its statistics. The chain itself (a language
    model over a vector store) is foreign code; its outcome is an input. */
module LangChainChatbot {
  import opened Wrappers
  import opened Text
  import opened Sequences

  // ----- model selection -----

  const Models: map<string, string> := map[
    "small" := "microsoft/DialoGPT-small",
    "medium" := "microsoft/DialoGPT-medium",
    "french" := "dbmdz/bert-base-french-europeana-cased",
    "multilingual" := "sentence-transformers/paraphrase-multilingual-MiniLM-L12-v2",
    "gpt2" := "gpt2"
  ]

  /** `MODELS.get(model_size, MODELS['gpt2'])`: a configured model for a known
      size, the GPT-2 fallback for any other. */
  function ModelNameFor(size: string): (name: string)
    ensures name in Models.Values
    ensures size in Models ==> name == Models[size]
    ensures size !in Models ==> name == "gpt2"
  {
    if size in Models then Models[size] else Models["gpt2"]
  }

  // ----- replies -----

  datatype Method = LangChain | Fallback

  /** The reply dictionary: answer, source documents, confidence, method. A
      source document is represented by its text. */
  datatype Reply = Reply(answer: string, sources: seq<string>, confidence: real, via: Method)

  /** The canned answers of `_fallback_response`, in dictionary order. */
  const FallbackAnswers: seq<(string, string)> := [
    ("hammamet", "Hammamet est une excellente destination avec de belles plages et une médina historique. Je recommande les hébergements avec vue sur mer."),
    ("jerba", "Jerba est parfaite pour des vacances relaxantes avec son climat doux et ses plages magnifiques. Les hébergements traditionnels sont très appréciés."),
    ("famille", "Pour les familles, je conseille les villas avec piscine et cuisine équipée, proche des plages et des activités pour enfants."),
    ("couple", "Les couples apprécient les riads avec terrasse privée et les appartements romantiques avec vue sur mer."),
    ("période", "La meilleure période est d'avril à juin et de septembre à novembre pour éviter la forte chaleur estivale.")
  ]

  const Greeting: string := "Bonjour ! Je suis votre assistant pour les hébergements Airbnb en Tunisie. Posez-moi vos questions sur Hammamet, Jerba, ou vos préférences de voyage !"

  /** The answer `chat` assumes when the chain's result has none. */
  const DefaultAnswer: string := Apology + ", je n'ai pas pu traiter votre demande."

  const Apology: string := "Désolé"

  const KeywordConfidence: real := 0.6
  const GreetingConfidence: real := 0.5

  function MentionedIn(q: string): ((string, string)) -> bool {
    (e: (string, string)) => Contains(q, e.0)
  }

  /** `_fallback_response`: the answer of the first keyword (in dictionary
      order) occurring in the lower-cased input, otherwise the greeting. */
  function FallbackResponse(userInput: string): (r: Reply)
    ensures r.via == Fallback && r.sources == []
    ensures forall i :: (0 <= i < |FallbackAnswers| &&
      Contains(Lower(userInput), FallbackAnswers[i].0) &&
      (forall j :: 0 <= j < i ==> !Contains(Lower(userInput), FallbackAnswers[j].0))) ==>
        r.answer == FallbackAnswers[i].1 && r.confidence == KeywordConfidence
    ensures (forall j :: 0 <= j < |FallbackAnswers| ==> !Contains(Lower(userInput), FallbackAnswers[j].0)) ==>
      r.answer == Greeting && r.confidence == GreetingConfidence
  {
    var q := Lower(userInput);
    match FirstIndex(FallbackAnswers, MentionedIn(q))
    case Some(i) => Reply(FallbackAnswers[i].1, [], KeywordConfidence, Fallback)
    case None => Reply(Greeting, [], GreetingConfidence, Fallback)
  }

  /** The fallback confidence is 0.6 exactly when some keyword occurs, and
      0.5 (the greeting) exactly when none does. */
  lemma FallbackConfidenceCases(userInput: string)
    ensures FallbackResponse(userInput).confidence == KeywordConfidence <==>
      exists i :: 0 <= i < |FallbackAnswers| && Contains(Lower(userInput), FallbackAnswers[i].0)
    ensures FallbackResponse(userInput).answer == Greeting <==>
      forall j :: 0 <= j < |FallbackAnswers| ==> !Contains(Lower(userInput), FallbackAnswers[j].0)
  {
    GreetingIsNotCanned();
  }

  /** The greeting is none of the canned answers. */
  lemma GreetingIsNotCanned()
    ensures forall i :: 0 <= i < |FallbackAnswers| ==> FallbackAnswers[i].1 != Greeting
  {
    forall i | 0 <= i < |FallbackAnswers| ensures FallbackAnswers[i].1 != Greeting {
      assert |FallbackAnswers[i].1| != |Greeting|;
    }
  }

  // ----- confidence -----

  function RMin(a: real, b: real): real { if a <= b then a else b }

  /** The answer apologises: it is empty or mentions "désolé" in any case. */
  predicate Apologetic(answer: string) {
    |answer| == 0 || Contains(Lower(answer), "désolé")
  }

  /** `_calculate_confidence`: 0.2 for an empty or apologetic answer;
      otherwise 0.3 plus up to 0.9 for the sources (0.3 each) and up to 0.5
      for the length (1/200 per character), capped at 1. */
  function CalculateConfidence(answer: string, nSources: nat): (r: real)
    ensures Apologetic(answer) ==> r == 0.2
    ensures !Apologetic(answer) ==> 0.3 <= r <= 1.0
    ensures 0.2 <= r <= 1.0
  {
    if Apologetic(answer) then 0.2
    else RMin(RMin(nSources as real * 0.3, 0.9) + RMin(|answer| as real / 200.0, 0.5) + 0.3, 1.0)
  }

  /** More sources never lower the confidence. */
  lemma ConfidenceMonotoneInSources(answer: string, n1: nat, n2: nat)
    requires n1 <= n2
    ensures CalculateConfidence(answer, n1) <= CalculateConfidence(answer, n2)
  {
  }

  /** Among answers that do not apologise, a longer one never gets a lower
      confidence. */
  lemma ConfidenceMonotoneInLength(a1: string, a2: string, n: nat)
    requires !Apologetic(a1) && !Apologetic(a2) && |a1| <= |a2|
    ensures CalculateConfidence(a1, n) <= CalculateConfidence(a2, n)
  {
  }

  /** From three sources on, or once the answer is 140 characters long with
      at least two sources, the confidence is saturated at 1. */
  lemma ConfidenceSaturates(answer: string, n: nat)
    requires !Apologetic(answer)
    requires n >= 3 || (n >= 2 && |answer| >= 140)
    ensures CalculateConfidence(answer, n) == 1.0
  {
  }

  /** The default answer `chat` substitutes for a missing one apologises, so
      it scores 0.2 whatever the sources. */
  lemma DefaultAnswerScoresLowest(n: nat)
    ensures CalculateConfidence(DefaultAnswer, n) == 0.2
  {
    var l := Lower(DefaultAnswer);
    assert l[0] == 'd' && l[1] == 'é' && l[2] == 's' && l[3] == 'o' && l[4] == 'l' && l[5] == 'é' by {
      assert l[0] == LowerChar(DefaultAnswer[0]) && DefaultAnswer[0] == 'D';
      assert l[1] == LowerChar(DefaultAnswer[1]) && l[2] == LowerChar(DefaultAnswer[2]);
      assert l[3] == LowerChar(DefaultAnswer[3]) && l[4] == LowerChar(DefaultAnswer[4]);
      assert l[5] == LowerChar(DefaultAnswer[5]);
    }
    assert "désolé" <= l;
  }

  // ----- conversation history -----

  /** One history entry. The source's entries carry no confidence; the
      corrected `chat` records it (see `CorrectedAverageInRange`). */
  datatype Exchange = Exchange(user: string, bot: string, sources: nat, confidence: Option<real>)

  /** What a call of the conversational chain gave: an exception, or a result
      dictionary whose "answer" and "source_documents" keys may be absent. */
  datatype ChainOutcome =
    | ChainFailed
    | ChainAnswered(answer: Option<string>, sourceDocuments: Option<seq<string>>)

  /** The answer `chat` takes from a result (the apology when absent). */
  function AnswerOf(outcome: ChainOutcome): string
    requires outcome.ChainAnswered?
  {
    outcome.answer.GetOr(DefaultAnswer)
  }

  /** The number of source documents `chat` takes from a result (none when
      absent). */
  function SourceCountOf(outcome: ChainOutcome): nat
    requires outcome.ChainAnswered?
  {
    |outcome.sourceDocuments.GetOr([])|
  }

  /** No entry of the history carries a confidence. */
  predicate NoConfidenceRecorded(h: seq<Exchange>) {
    forall e :: e in h ==> e.confidence.None?
  }

  /** The history after one `chat` call as written: unchanged when there is no
      chain or the chain raised; otherwise one entry with the user input, the
      answer and the number of source documents, and no "confidence" key. The
      step keeps every history without confidences so, and adds the call's
      source count to the total. */
  function AsWrittenStep(h: seq<Exchange>, userInput: string, outcome: ChainOutcome, hasChain: bool): (h': seq<Exchange>)
    ensures !hasChain || outcome.ChainFailed? ==> h' == h
    ensures hasChain && outcome.ChainAnswered? ==>
      h' == h + [Exchange(userInput, AnswerOf(outcome), SourceCountOf(outcome), None)]
    ensures NoConfidenceRecorded(h) ==> NoConfidenceRecorded(h')
    ensures SumSources(h') == SumSources(h) + if hasChain && outcome.ChainAnswered? then SourceCountOf(outcome) else 0
  {
    if !hasChain || outcome.ChainFailed? then h
    else
      var e := Exchange(userInput, AnswerOf(outcome), SourceCountOf(outcome), None);
      SumSourcesSnoc(h, e);
      h + [e]
  }

  /** The history after one `chat` call with the confidence recorded. The step
      keeps a history whose entries all record a confidence so, and adds the
      call's source count to the total. */
  function CorrectedStep(h: seq<Exchange>, userInput: string, outcome: ChainOutcome, hasChain: bool): (h': seq<Exchange>)
    ensures !hasChain || outcome.ChainFailed? ==> h' == h
    ensures hasChain && outcome.ChainAnswered? ==>
      h' == h + [Exchange(userInput, AnswerOf(outcome), SourceCountOf(outcome),
                          Some(CalculateConfidence(AnswerOf(outcome), SourceCountOf(outcome))))]
    ensures ConfidencesRecorded(h) ==> ConfidencesRecorded(h')
    ensures SumSources(h') == SumSources(h) + if hasChain && outcome.ChainAnswered? then SourceCountOf(outcome) else 0
  {
    if !hasChain || outcome.ChainFailed? then h
    else
      var answer := AnswerOf(outcome);
      var e := Exchange(userInput, answer, SourceCountOf(outcome), Some(CalculateConfidence(answer, SourceCountOf(outcome))));
      SumSourcesSnoc(h, e);
      h + [e]
  }

  /** A call on the chatbot that touches its history. */
  datatype Call = ChatCall(userInput: string, outcome: ChainOutcome) | ClearCall

  /** The history after a run of calls from construction, as written. */
  function AsWrittenRun(calls: seq<Call>, hasChain: bool): seq<Exchange> {
    if |calls| == 0 then []
    else
      var h := AsWrittenRun(calls[..|calls| - 1], hasChain);
      match calls[|calls| - 1]
      case ChatCall(u, o) => AsWrittenStep(h, u, o, hasChain)
      case ClearCall => []
  }

  /** The history after a run of calls from construction, corrected. */
  function CorrectedRun(calls: seq<Call>, hasChain: bool): seq<Exchange> {
    if |calls| == 0 then []
    else
      var h := CorrectedRun(calls[..|calls| - 1], hasChain);
      match calls[|calls| - 1]
      case ChatCall(u, o) => CorrectedStep(h, u, o, hasChain)
      case ClearCall => []
  }

  datatype Stats = Stats(
    totalConversations: nat,
    avgConfidence: real,
    totalSourcesUsed: nat,
    langchainEnabled: bool)

  function HasConfidence(e: Exchange): bool { e.confidence.Some? }
  function ConfidenceOf(e: Exchange): real { e.confidence.GetOr(0.0) }

  /** The recorded confidences (`if "confidence" in conv`): the confidence of
      each entry that has one, in history order. */
  function Confidences(h: seq<Exchange>): (cs: seq<real>)
    ensures cs == MapSeq(Select(h, HasConfidence), ConfidenceOf)
  {
    if |h| == 0 then []
    else
      var front := Confidences(h[..|h| - 1]);
      var last := h[|h| - 1];
      if last.confidence.Some? then
        MapSnoc(Select(h[..|h| - 1], HasConfidence), last, ConfidenceOf);
        front + [last.confidence.value]
      else front
  }

  /** The sum of the recorded source counts. */
  function SumSources(h: seq<Exchange>): nat {
    if |h| == 0 then 0 else SumSources(h[..|h| - 1]) + h[|h| - 1].sources
  }

  /** `np.mean`, with 0.0 for no values as `get_stats` does: the value that,
      taken once per element, gives the sum. */
  function Mean(xs: seq<real>): (m: real)
    ensures |xs| == 0 ==> m == 0.0
    ensures |xs| > 0 ==> m * |xs| as real == Sum(xs)
  {
    if |xs| == 0 then 0.0 else Sum(xs) / |xs| as real
  }

  /** A quotient whose product with a positive `n` lies in [n·lo, n·hi] lies
      in [lo, hi]. */
  lemma DivBounds(total: real, n: real, lo: real, hi: real)
    requires n > 0.0 && n * lo <= total <= n * hi
    ensures lo <= total / n <= hi
  {
    assert (total / n) * n == total;
  }

  /** The mean of values in [lo, hi] lies in [lo, hi]. */
  lemma MeanBounds(xs: seq<real>, lo: real, hi: real)
    requires |xs| > 0
    requires forall i :: 0 <= i < |xs| ==> lo <= xs[i] <= hi
    ensures lo <= Mean(xs) <= hi
  {
    SumBounds(xs, lo, hi);
    DivBounds(Sum(xs), |xs| as real, lo, hi);
  }

  /** `get_stats` over a history, given whether LangChain imported and
      whether a chain was built. */
  function StatsOf(h: seq<Exchange>, available: bool, hasChain: bool): (s: Stats)
    ensures |h| == 0 ==> s == Stats(0, 0.0, 0, available)
    ensures |h| > 0 ==> (s.totalConversations == |h| && s.totalSourcesUsed == SumSources(h) &&
                         s.langchainEnabled == (available && hasChain))
  {
    if |h| == 0 then Stats(0, 0.0, 0, available)
    else Stats(|h|, Mean(Confidences(h)), SumSources(h), available && hasChain)
  }

  /** Appending an entry adds its source count to the total. */
  lemma SumSourcesSnoc(h: seq<Exchange>, e: Exchange)
    ensures SumSources(h + [e]) == SumSources(h) + e.sources
  {
    assert (h + [e])[..|h|] == h;
  }

  /** As written, no entry has a confidence, so the average confidence of any
      history is 0.0. */
  lemma {:induction false} AsWrittenAverageIsZero(h: seq<Exchange>, available: bool, hasChain: bool)
    requires NoConfidenceRecorded(h)
    ensures StatsOf(h, available, hasChain).avgConfidence == 0.0
  {
    NoConfidences(h);
  }

  lemma {:induction false} NoConfidences(h: seq<Exchange>)
    requires NoConfidenceRecorded(h)
    ensures Confidences(h) == []
    decreases |h|
  {
    if |h| > 0 {
      assert forall e :: e in h[..|h| - 1] ==> e in h;
      NoConfidences(h[..|h| - 1]);
    }
  }

  /** Whatever calls are made from construction on, the source's history
      never holds a confidence, so `get_stats` reports an average of 0.0. */
  lemma {:induction false} AsWrittenRunAveragesZero(calls: seq<Call>, available: bool, hasChain: bool)
    ensures NoConfidenceRecorded(AsWrittenRun(calls, hasChain))
    ensures StatsOf(AsWrittenRun(calls, hasChain), available, hasChain).avgConfidence == 0.0
    decreases |calls|
  {
    if |calls| > 0 {
      AsWrittenRunAveragesZero(calls[..|calls| - 1], available, hasChain);
    }
    AsWrittenAverageIsZero(AsWrittenRun(calls, hasChain), available, hasChain);
  }

  /** A concrete case: one chat answered "Oui" from three sources is replied
      with confidence 1.0, yet the statistics of the history it leaves report
      one conversation with an average confidence of 0.0. */
  lemma AsWrittenAverageExample()
    ensures CalculateConfidence("Oui", 3) == 1.0
    ensures var h := AsWrittenStep([], "Hammamet ?", ChainAnswered(Some("Oui"), Some(["a", "b", "c"])), true);
      StatsOf(h, true, true).totalConversations == 1 && StatsOf(h, true, true).avgConfidence == 0.0
  {
    assert !Contains(Lower("Oui"), "désolé") by {
      ContainsAt(Lower("Oui"), "désolé");
    }
    var h := AsWrittenStep([], "Hammamet ?", ChainAnswered(Some("Oui"), Some(["a", "b", "c"])), true);
    AsWrittenAverageIsZero(h, true, true);
  }

  /** Every entry records a confidence, as `_calculate_confidence` produces it. */
  predicate ConfidencesRecorded(h: seq<Exchange>) {
    forall e :: e in h ==> e.confidence.Some? && 0.2 <= e.confidence.value <= 1.0
  }

  /** With the confidence recorded, the average over a non-empty history lies
      in [0.2, 1.0]. */
  lemma CorrectedAverageInRange(h: seq<Exchange>, available: bool, hasChain: bool)
    ensures |h| > 0 && ConfidencesRecorded(h) ==> 0.2 <= StatsOf(h, available, hasChain).avgConfidence <= 1.0
  {
    if |h| > 0 && ConfidencesRecorded(h) {
      var kept := Select(h, HasConfidence);
      var cs := Confidences(h);
      assert h[0] in multiset(kept) by {
        assert HasConfidence(h[0]) && h[0] in multiset(h);
      }
      forall i | 0 <= i < |cs| ensures 0.2 <= cs[i] <= 1.0 {
        assert cs[i] == ConfidenceOf(kept[i]) && kept[i] in h;
      }
      MeanBounds(cs, 0.2, 1.0);
    }
  }

  /** Whatever calls are made from construction on, the corrected history
      records every confidence, so once there is a conversation the average
      lies in [0.2, 1.0]. */
  lemma {:induction false} CorrectedRunAverageInRange(calls: seq<Call>, available: bool, hasChain: bool)
    ensures ConfidencesRecorded(CorrectedRun(calls, hasChain))
    ensures |CorrectedRun(calls, hasChain)| > 0 ==>
      0.2 <= StatsOf(CorrectedRun(calls, hasChain), available, hasChain).avgConfidence <= 1.0
    decreases |calls|
  {
    if |calls| > 0 {
      CorrectedRunAverageInRange(calls[..|calls| - 1], available, hasChain);
    }
    CorrectedAverageInRange(CorrectedRun(calls, hasChain), available, hasChain);
  }

  class AirbnbLangChainChatbot {
    const modelSize: string
    /** Whether the LangChain imports succeeded. */
    const langchainAvailable: bool
    /** Whether `conversation_chain` is set. */
    const hasChain: bool
    var conversationHistory: seq<Exchange>

    /** `__init__`: the chain exists only when LangChain imported and building
        the components did not raise (`chainBuilt`); the history is empty. */
    constructor (modelSize: string, langchainAvailable: bool, chainBuilt: bool)
      ensures this.modelSize == modelSize && this.langchainAvailable == langchainAvailable
      ensures hasChain == (langchainAvailable && chainBuilt)
      ensures conversationHistory == []
    {
      this.modelSize := modelSize;
      this.langchainAvailable := langchainAvailable;
      hasChain := langchainAvailable && chainBuilt;
      conversationHistory := [];
    }

    /** The model the components are built from. */
    function ModelName(): (name: string)
      ensures name in Models.Values
      ensures modelSize in Models ==> name == Models[modelSize]
      ensures modelSize !in Models ==> name == "gpt2"
    {
      ModelNameFor(modelSize)
    }

    /** `chat`, recording the confidence in the history entry. Without a chain,
        or when the chain raises, the reply is the fallback and the history is
        unchanged; otherwise exactly one entry is appended with the user
        input, the answer (the default apology when absent) and the number of
        source documents. */
    method Chat(userInput: string, outcome: ChainOutcome) returns (reply: Reply)
      modifies this`conversationHistory
      ensures !hasChain || outcome.ChainFailed? ==>
        reply == FallbackResponse(userInput) && conversationHistory == old(conversationHistory)
      ensures hasChain && outcome.ChainAnswered? ==>
        var answer := outcome.answer.GetOr(DefaultAnswer);
        var docs := outcome.sourceDocuments.GetOr([]);
        reply == Reply(answer, docs, CalculateConfidence(answer, |docs|), LangChain) &&
        conversationHistory == old(conversationHistory) + [Exchange(userInput, answer, |docs|, Some(reply.confidence))]
      ensures conversationHistory == CorrectedStep(old(conversationHistory), userInput, outcome, hasChain)
      ensures ConfidencesRecorded(old(conversationHistory)) ==> ConfidencesRecorded(conversationHistory)
    {
      if !hasChain {
        return FallbackResponse(userInput);
      }
      match outcome
      case ChainFailed =>
        reply := FallbackResponse(userInput);
      case ChainAnswered(a, d) =>
        var answer := a.GetOr(DefaultAnswer);
        var docs := d.GetOr([]);
        var confidence := CalculateConfidence(answer, |docs|);
        conversationHistory := conversationHistory + [Exchange(userInput, answer, |docs|, Some(confidence))];
        reply := Reply(answer, docs, confidence, LangChain);
    }

    /** `clear_history`. */
    method ClearHistory()
      modifies this`conversationHistory
      ensures conversationHistory == []
      ensures ConfidencesRecorded(conversationHistory)
    {
      conversationHistory := [];
    }

    /** `get_stats`. */
    function GetStats(): (s: Stats)
      reads this
      ensures |conversationHistory| == 0 ==> s == Stats(0, 0.0, 0, langchainAvailable)
      ensures s.totalConversations == |conversationHistory|
      ensures s.totalSourcesUsed == SumSources(conversationHistory)
      ensures |conversationHistory| > 0 ==> s.langchainEnabled == (langchainAvailable && hasChain)
      ensures |conversationHistory| > 0 && ConfidencesRecorded(conversationHistory) ==>
        0.2 <= s.avgConfidence <= 1.0
    {
      CorrectedAverageInRange(conversationHistory, langchainAvailable, hasChain);
      StatsOf(conversationHistory, langchainAvailable, hasChain)
    }
  }
}
