/** `SimpleAIProvider`: the responder that needs no library. It picks a canned
    answer from the pool of the message's category and learns from the
    message's own emotion keywords. */
module SimpleProvider {
  import opened Common
  import opened Emotion
  import opened BaseProvider
  import Dict

  // ---------------------------------------------------------------------------
  // Answer pools
  // ---------------------------------------------------------------------------

  const CategoryNames: seq<string> := ["greeting", "emotion", "color", "learning", "default"]

  const GreetingPool: seq<string> := ["こんにちは！私はルリです。", "はじめまして、ルリと申します。", "お疲れさまです！"]
  const EmotionPool: seq<string> := ["その気持ち、よくわかります。", "感情って、複雑ですね。", "私も同じようなことを感じたことがあります。"]
  const ColorPool: seq<string> := [
    "色って不思議ですね。私にはまだよくわからないのですが...",
    "もしかしたら、これが色というものでしょうか？",
    "少しずつ、色というものが見えてきているような気がします。"]
  const LearningPool: seq<string> := ["勉強になります！", "新しいことを学べました。", "教えてくださってありがとうございます。"]
  const DefaultPool: seq<string> := [
    "なるほど、そうですね。", "興味深いお話ですね。", "そのことについて、もう少し詳しく教えていただけますか？",
    "私なりに考えてみますね。", "とても面白いですね！"]

  /** `_load_default_responses`: one non-empty pool per category, in this order. */
  function DefaultResponses(): (d: Dict.Table<seq<string>>)
    ensures Dict.Keys(d) == CategoryNames
    ensures Dict.Valid(d)
    ensures forall i :: 0 <= i < |d| ==> |d[i].value| >= 3
    ensures forall i, j :: 0 <= i < |d| && 0 <= j < |d[i].value| ==> d[i].value[j] != ""
  {
    var d := [Dict.Entry("greeting", GreetingPool), Dict.Entry("emotion", EmotionPool), Dict.Entry("color", ColorPool),
              Dict.Entry("learning", LearningPool), Dict.Entry("default", DefaultPool)];
    assert Dict.Keys(d) == CategoryNames;
    CategoryNamesDistinct();
    PoolsNonEmpty();
    d
  }

  lemma CategoryNamesDistinct()
    ensures Distinct(CategoryNames)
  {
    forall i, j | 0 <= i < j < |CategoryNames|
      ensures CategoryNames[i] != CategoryNames[j]
    {
      assert CategoryNames[i][0] != CategoryNames[j][0];
    }
  }

  /** Every pool holds at least three answers, none of them empty. */
  lemma PoolsNonEmpty()
    ensures |GreetingPool| >= 3 && forall j :: 0 <= j < |GreetingPool| ==> GreetingPool[j] != ""
    ensures |EmotionPool| >= 3 && forall j :: 0 <= j < |EmotionPool| ==> EmotionPool[j] != ""
    ensures |ColorPool| >= 3 && forall j :: 0 <= j < |ColorPool| ==> ColorPool[j] != ""
    ensures |LearningPool| >= 3 && forall j :: 0 <= j < |LearningPool| ==> LearningPool[j] != ""
    ensures |DefaultPool| >= 3 && forall j :: 0 <= j < |DefaultPool| ==> DefaultPool[j] != ""
  {
  }

  /** `SimpleAIProvider(config)`. */
  method New(config: Dict.Table<Value>) returns (p: Provider)
    ensures fresh(p) && p.Valid()
    ensures p.ext == SimpleExt(DefaultResponses()) && p.config == config
    ensures p.history == [] && p.states == InitialStates() && p.stage == Monochrome
  {
    p := new Provider(config, SimpleExt(DefaultResponses()));
  }

  // ---------------------------------------------------------------------------
  // Category of a message: the first keyword list with a hit wins
  // ---------------------------------------------------------------------------

  datatype Category = Greeting | EmotionTalk | ColorTalk | LearningTalk | DefaultTalk

  function CategoryName(c: Category): (name: string)
    ensures name in CategoryNames
  {
    match c
    case Greeting => "greeting"
    case EmotionTalk => "emotion"
    case ColorTalk => "color"
    case LearningTalk => "learning"
    case DefaultTalk => "default"
  }

  /** Position in the cascade; the default comes last. */
  function Rank(c: Category): nat
  {
    match c
    case Greeting => 0
    case EmotionTalk => 1
    case ColorTalk => 2
    case LearningTalk => 3
    case DefaultTalk => 4
  }

  /** The words that select a category (none select the default). */
  function CategoryWords(c: Category): seq<string>
  {
    match c
    case Greeting => ["こんにちは", "はじめまして", "おはよう", "こんばんは"]
    case EmotionTalk => ["感情", "気持ち", "心", "感じ"]
    case ColorTalk => ["色", "カラー", "赤", "青", "緑", "黄", "紫", "黒", "白"]
    case LearningTalk => ["学習", "勉強", "覚える", "教える", "学ぶ"]
    case DefaultTalk => []
  }

  /** `_determine_response_category` (the context is not consulted): the chosen
      category's words occur in the lower-cased message, and no earlier
      category's words do. */
  function DetermineCategory(message: string): (c: Category)
    ensures c != DefaultTalk ==> AnyContained(CategoryWords(c), Lower(message))
    ensures forall k :: Rank(k) < Rank(c) ==> !AnyContained(CategoryWords(k), Lower(message))
  {
    var m := Lower(message);
    if AnyContained(CategoryWords(Greeting), m) then Greeting
    else if AnyContained(CategoryWords(EmotionTalk), m) then EmotionTalk
    else if AnyContained(CategoryWords(ColorTalk), m) then ColorTalk
    else if AnyContained(CategoryWords(LearningTalk), m) then LearningTalk
    else DefaultTalk
  }

  /** `random.choice(self.responses[category])`: `None` when the category has
      no pool (`KeyError`) or an empty one (`IndexError`). */
  function ChooseAnswer(responses: Dict.Table<seq<string>>, message: string, pick: nat): (r: Option<string>)
    ensures r.Some? <==> Dict.GetOr(responses, CategoryName(DetermineCategory(message)), []) != []
    ensures r.Some? ==> r.value in Dict.GetOr(responses, CategoryName(DetermineCategory(message)), [])
  {
    var pool := Dict.GetOr(responses, CategoryName(DetermineCategory(message)), []);
    if pool == [] then None else Some(Pick(pool, pick))
  }

  /** With the default pools every message gets an answer. */
  lemma DefaultAlwaysAnswers(message: string, pick: nat)
    ensures ChooseAnswer(DefaultResponses(), message, pick).Some?
  {
    var d := DefaultResponses();
    var name := CategoryName(DetermineCategory(message));
    var i :| 0 <= i < |CategoryNames| && CategoryNames[i] == name;
    assert Dict.Keys(d)[i] == name;
    Dict.GetAt(d, i);
  }

  /** With the default pools every answer is a non-empty text. */
  lemma DefaultAnswerNonEmpty(message: string, pick: nat)
    ensures ChooseAnswer(DefaultResponses(), message, pick).Some?
    ensures ChooseAnswer(DefaultResponses(), message, pick).value != ""
  {
    DefaultAlwaysAnswers(message, pick);
    var text := ChooseAnswer(DefaultResponses(), message, pick).value;
    var d := DefaultResponses();
    assert exists i, j :: 0 <= i < |d| && 0 <= j < |d[i].value| && d[i].value[j] == text by {
      var i :| 0 <= i < |d| && d[i] == Dict.Entry(CategoryName(DetermineCategory(message)),
                                                  Dict.GetOr(d, CategoryName(DetermineCategory(message)), []));
      var j :| 0 <= j < |d[i].value| && d[i].value[j] == text;
    }
  }

  // ---------------------------------------------------------------------------
  // Answering
  // ---------------------------------------------------------------------------

  /** The response built around a chosen answer. */
  function Respond(text: string, message: string, stage: ColorStage): (r: CharacterResponse)
    ensures var scores := EmotionAnalysis(message);
      r.text == text && r.emotion == Dominant(scores) && r.intensity == scores[r.emotion]
      && (forall e :: scores[e] <= r.intensity) && r.stage == stage
    ensures r.metadata == SimpleMeta(CategoryName(DetermineCategory(message)), EmotionAnalysis(message))
  {
    var scores := EmotionAnalysis(message);
    var d := Dominant(scores);
    CharacterResponse(text, d, scores[d], stage, SimpleMeta(CategoryName(DetermineCategory(message)), scores))
  }

  /** `generate_response`: choose the answer (failing before any state change
      when the pool is missing or empty), then learn from the message. The
      history is not touched. */
  method GenerateResponse(p: Provider, message: string, pick: nat) returns (r: Result<CharacterResponse>)
    requires p.Valid() && p.ext.SimpleExt?
    modifies p
    ensures p.Valid()
    ensures p.config == old(p.config) && p.characterContext == old(p.characterContext)
    ensures p.history == old(p.history) && p.ext == old(p.ext)
    ensures match ChooseAnswer(old(p.ext.responses), message, pick)
      case None => r.Err? && p.states == old(p.states) && p.stage == old(p.stage)
      case Some(text) => r == Ok(Respond(text, message, p.stage)) && p.states == Absorbed(old(p.states), message)
  {
    var answer := ChooseAnswer(p.ext.responses, message, pick);
    if answer.None? {
      return Err("Cannot choose from an empty sequence");
    }
    p.Absorb(message);
    r := Ok(Respond(answer.value, message, p.stage));
  }

  /** `generate_stream_response`: the same answer, one character per chunk. */
  method GenerateStream(p: Provider, message: string, pick: nat) returns (r: Result<seq<string>>)
    requires p.Valid() && p.ext.SimpleExt?
    modifies p
    ensures p.Valid()
    ensures p.config == old(p.config) && p.characterContext == old(p.characterContext)
    ensures p.history == old(p.history) && p.ext == old(p.ext)
    ensures match ChooseAnswer(old(p.ext.responses), message, pick)
      case None => r.Err? && p.states == old(p.states) && p.stage == old(p.stage)
      case Some(text) => r == Ok(Chars(text)) && Concat(r.value) == text && p.states == Absorbed(old(p.states), message)
  {
    var resp := GenerateResponse(p, message, pick);
    if resp.Err? {
      return Err(resp.error);
    }
    var chunks := SplitChars(resp.value.text);
    r := Ok(chunks);
  }

  /** The `for char in text: yield char` loop: one chunk per character, and
      the chunks joined give the text back. */
  method SplitChars(text: string) returns (chunks: seq<string>)
    ensures chunks == Chars(text) && Concat(chunks) == text
  {
    chunks := [];
    var i := 0;
    while i < |text|
      invariant 0 <= i <= |text|
      invariant chunks == Chars(text[..i])
    {
      chunks := chunks + [[text[i]]];
      i := i + 1;
    }
    assert text[..i] == text;
    ConcatChars(text);
  }

  /** What a freshly built `SimpleAIProvider()` answers: the fallback of the
      other responders. It always exists and is never empty. */
  function FallbackResponse(message: string, pick: nat): (r: CharacterResponse)
    ensures r.text != ""
    ensures r.text in Dict.GetOr(DefaultResponses(), CategoryName(DetermineCategory(message)), [])
    ensures r.metadata == SimpleMeta(CategoryName(DetermineCategory(message)), EmotionAnalysis(message))
  {
    DefaultAnswerNonEmpty(message, pick);
    var text := ChooseAnswer(DefaultResponses(), message, pick).value;
    Respond(text, message, ProviderStage(LearnedCount(Absorbed(InitialStates(), message))))
  }

  /** `SimpleAIProvider().generate_response(message)`. */
  method Fallback(message: string, pick: nat) returns (r: CharacterResponse)
    ensures r == FallbackResponse(message, pick)
  {
    var q := New([]);
    DefaultAlwaysAnswers(message, pick);
    var res := GenerateResponse(q, message, pick);
    r := res.value;
  }

  /** `SimpleAIProvider().generate_stream_response(message)`. */
  method FallbackStream(message: string, pick: nat) returns (chunks: seq<string>)
    ensures chunks == Chars(FallbackResponse(message, pick).text)
  {
    var q := New([]);
    DefaultAlwaysAnswers(message, pick);
    var res := GenerateStream(q, message, pick);
    chunks := res.value;
  }

  // ---------------------------------------------------------------------------
  // Managing the pools
  // ---------------------------------------------------------------------------

  /** `set_custom_responses`: `dict.update`. */
  method SetCustomResponses(p: Provider, responses: Dict.Table<seq<string>>)
    requires p.Valid() && p.ext.SimpleExt? && Dict.Valid(responses)
    modifies p
    ensures p.Valid() && p.ext.SimpleExt?
    ensures forall k :: (Dict.Get(p.ext.responses, k)
                         == if Dict.Has(responses, k) then Dict.Get(responses, k) else Dict.Get(old(p.ext.responses), k))
    ensures forall k :: Dict.Has(old(p.ext.responses), k) ==> Dict.Has(p.ext.responses, k)
    ensures Dict.Keys(p.ext.responses) == Dict.AppendNew(Dict.Keys(old(p.ext.responses)), Dict.Keys(responses))
    ensures p.config == old(p.config) && p.characterContext == old(p.characterContext)
    ensures p.history == old(p.history) && p.states == old(p.states) && p.stage == old(p.stage)
  {
    var before := p.ext.responses;
    p.ext := SimpleExt(Dict.Update(before, responses));
    Dict.UpdateKeyOrder(before, responses);
    forall k ensures Dict.Get(p.ext.responses, k)
      == if Dict.Has(responses, k) then Dict.Get(responses, k) else Dict.Get(before, k)
    {
      Dict.UpdateGet(before, responses, k);
    }
    forall k | Dict.Has(before, k) ensures Dict.Has(p.ext.responses, k) {
      Dict.UpdateKeys(before, responses, k);
    }
  }

  /** `add_response_pattern`: extend one category's pool, creating it empty first. */
  method AddResponsePattern(p: Provider, category: string, responses: seq<string>)
    requires p.Valid() && p.ext.SimpleExt?
    modifies p
    ensures p.Valid() && p.ext.SimpleExt?
    ensures Dict.Get(p.ext.responses, category) == Some(Dict.GetOr(old(p.ext.responses), category, []) + responses)
    ensures forall k :: k != category ==> Dict.Get(p.ext.responses, k) == Dict.Get(old(p.ext.responses), k)
    ensures Dict.Keys(p.ext.responses) == if Dict.Has(old(p.ext.responses), category)
      then Dict.Keys(old(p.ext.responses)) else Dict.Keys(old(p.ext.responses)) + [category]
    ensures p.config == old(p.config) && p.characterContext == old(p.characterContext)
    ensures p.history == old(p.history) && p.states == old(p.states) && p.stage == old(p.stage)
  {
    var before := p.ext.responses;
    var pool := Dict.GetOr(before, category, []);
    p.ext := SimpleExt(Dict.Put(before, category, pool + responses));
    forall k ensures Dict.Get(p.ext.responses, k) == if k == category then Some(pool + responses) else Dict.Get(before, k) {
      Dict.PutGet(before, category, pool + responses, k);
    }
  }

  // ---------------------------------------------------------------------------
  // Statistics
  // ---------------------------------------------------------------------------

  datatype ResponseStats = ResponseStats(totalPatterns: nat, categories: seq<string>, categoryCounts: Dict.Table<nat>)

  function TotalLength(d: Dict.Table<seq<string>>): nat
  {
    if d == [] then 0 else TotalLength(d[..|d| - 1]) + |d[|d| - 1].value|
  }

  function CountOf(pool: seq<string>): nat
  {
    |pool|
  }

  /** `get_response_stats`. */
  function ResponseStatsOf(d: Dict.Table<seq<string>>): (s: ResponseStats)
    ensures s.categories == Dict.Keys(d) == Dict.Keys(s.categoryCounts)
    ensures forall i :: 0 <= i < |d| ==> s.categoryCounts[i].value == |d[i].value|
    ensures s.totalPatterns == TotalLength(d)
  {
    ResponseStats(TotalLength(d), Dict.Keys(d), Dict.MapValues(d, CountOf))
  }

  /** The total counts every pattern once: it is the sum of the per-category counts. */
  lemma {:induction false} TotalIsSumOfCounts(d: Dict.Table<seq<string>>)
    ensures TotalLength(d) == SumCounts(ResponseStatsOf(d).categoryCounts)
  {
    if d != [] {
      var n := |d| - 1;
      TotalIsSumOfCounts(d[..n]);
      var c := Dict.MapValues(d, CountOf);
      CountsPrefix(d, n);
      assert SumCounts(c) == SumCounts(c[..n]) + c[n].value;
      assert c[n].value == |d[n].value|;
    }
  }

  /** Counting the first `n` pools gives the first `n` counts. */
  lemma CountsPrefix(d: Dict.Table<seq<string>>, n: nat)
    requires n <= |d|
    ensures Dict.MapValues(d, CountOf)[..n] == Dict.MapValues(d[..n], CountOf)
  {
    var a := Dict.MapValues(d, CountOf)[..n];
    var b := Dict.MapValues(d[..n], CountOf);
    assert |Dict.Keys(b)| == n;
    forall i | 0 <= i < n
      ensures a[i] == b[i]
    {
      assert Dict.Keys(Dict.MapValues(d, CountOf))[i] == d[i].key;
      assert Dict.Keys(b)[i] == d[..n][i].key;
    }
  }

  function SumCounts(c: Dict.Table<nat>): nat
  {
    if c == [] then 0 else SumCounts(c[..|c| - 1]) + c[|c| - 1].value
  }

  /** The default pools hold 17 answers in 5 categories. */
  lemma DefaultStats()
    ensures ResponseStatsOf(DefaultResponses()).totalPatterns == 17
    ensures ResponseStatsOf(DefaultResponses()).categories == CategoryNames
  {
    var d := DefaultResponses();
    assert TotalLength(d[..1]) == 3 by { assert d[..1][..0] == []; }
    assert TotalLength(d[..2]) == 6 by { assert d[..2][..1] == d[..1]; }
    assert TotalLength(d[..3]) == 9 by { assert d[..3][..2] == d[..2]; }
    assert TotalLength(d[..4]) == 12 by { assert d[..4][..3] == d[..3]; }
    assert d[..5] == d;
  }
}
