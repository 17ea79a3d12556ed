/**
 * The control flow of the AI report request: list the models, pick one by the
 * flash, then pro, then any rule, and make one generation attempt with it.
 */
module AiAnalysis {
  import opened Wrappers

  /** A listed model: its name and the generation methods it supports. */
  datatype ModelInfo = ModelInfo(name: string, supportedGenerationMethods: seq<string>)

  /** Python's `sub in s` on strings, computed by scanning the start positions. */
  function Contains(s: string, sub: string): (r: bool)
    ensures sub <= s ==> r
    ensures r ==> |sub| <= |s|
    decreases |s|
  {
    sub <= s || (s != [] && Contains(s[1..], sub))
  }

  /** `sub` occurs in `s` starting at position `k`. */
  ghost predicate OccursAt(sub: string, s: string, k: int) {
    0 <= k <= |s| - |sub| && s[k..k + |sub|] == sub
  }

  /** `sub` occurs in `s` at some position. */
  ghost predicate OccursIn(sub: string, s: string) {
    exists k :: OccursAt(sub, s, k)
  }

  /** The scanning test agrees with the definition of a substring. */
  lemma {:induction false} ContainsIsSubstring(s: string, sub: string)
    ensures Contains(s, sub) <==> OccursIn(sub, s)
    decreases |s|
  {
    if sub <= s {
      assert OccursAt(sub, s, 0);
    } else if s != [] {
      ContainsIsSubstring(s[1..], sub);
      if OccursIn(sub, s) {
        var k :| OccursAt(sub, s, k);
        if k != 0 {
          assert OccursAt(sub, s[1..], k - 1);
        }
      }
      if OccursIn(sub, s[1..]) {
        var k :| OccursAt(sub, s[1..], k);
        assert OccursAt(sub, s, k + 1);
      }
    }
  }

  /** The model can generate content. */
  predicate Capable(m: ModelInfo) {
    "generateContent" in m.supportedGenerationMethods
  }

  /** The three selection passes, in priority order. */
  datatype Tier = FlashTier | ProTier | AnyTier

  /** The test the pass for tier `t` applies to one model. */
  predicate Qualifies(t: Tier, m: ModelInfo) {
    Capable(m) &&
    match t
    case FlashTier => Contains(m.name, "flash")
    case ProTier => Contains(m.name, "pro")
    case AnyTier => true
  }

  /** The index of the first model that passes tier `t`, if any. */
  function FirstIn(t: Tier, ms: seq<ModelInfo>): (r: Option<nat>)
    ensures r.Some? ==> r.value < |ms| && Qualifies(t, ms[r.value])
    ensures r.Some? ==> forall j :: 0 <= j < r.value ==> !Qualifies(t, ms[j])
    ensures r.None? ==> forall j :: 0 <= j < |ms| ==> !Qualifies(t, ms[j])
  {
    if ms == [] then None
    else if Qualifies(t, ms[0]) then Some(0)
    else match FirstIn(t, ms[1..])
      case None => None
      case Some(i) => Some(i + 1)
  }

  /** The selected model: the first flash model, else the first pro model, else the first capable one. */
  function Select(ms: seq<ModelInfo>): (r: Option<nat>)
    ensures r.Some? ==> r.value < |ms| && Capable(ms[r.value])
    ensures r.None? <==> forall j :: 0 <= j < |ms| ==> !Capable(ms[j])
  {
    match FirstIn(FlashTier, ms)
    case Some(i) => Some(i)
    case None =>
      match FirstIn(ProTier, ms)
      case Some(i) => Some(i)
      case None => FirstIn(AnyTier, ms)
  }

  /** `i` is the first position of `ms` whose model passes tier `t`. */
  ghost predicate IsFirst(t: Tier, ms: seq<ModelInfo>, i: int) {
    0 <= i < |ms| && Qualifies(t, ms[i]) && forall j :: 0 <= j < i ==> !Qualifies(t, ms[j])
  }

  /** Some model of `ms` passes tier `t`. */
  ghost predicate AnyIn(t: Tier, ms: seq<ModelInfo>) {
    exists j :: 0 <= j < |ms| && Qualifies(t, ms[j])
  }

  /**
   * The selection rule: a model is selected exactly when some listed model can generate
   * content; the selected model can; and it is the first flash model when there is one,
   * otherwise the first pro model when there is one, otherwise the first capable model.
   */
  lemma SelectSpec(ms: seq<ModelInfo>)
    ensures Select(ms).Some? <==> AnyIn(AnyTier, ms)
    ensures Select(ms).Some? ==> Select(ms).value < |ms| && Capable(ms[Select(ms).value])
    ensures AnyIn(FlashTier, ms) ==> Select(ms).Some? && IsFirst(FlashTier, ms, Select(ms).value)
    ensures !AnyIn(FlashTier, ms) && AnyIn(ProTier, ms) ==>
      Select(ms).Some? && IsFirst(ProTier, ms, Select(ms).value)
    ensures !AnyIn(FlashTier, ms) && !AnyIn(ProTier, ms) && AnyIn(AnyTier, ms) ==>
      Select(ms).Some? && IsFirst(AnyTier, ms, Select(ms).value)
  {
  }

  /**
   * A model whose name has neither "flash" nor "pro" in it is chosen only when no capable
   * model's name has either.
   */
  lemma PlainModelOnlyAsLastResort(ms: seq<ModelInfo>, i: nat)
    requires Select(ms) == Some(i)
    requires !Contains(ms[i].name, "flash") && !Contains(ms[i].name, "pro")
    ensures forall j :: 0 <= j < |ms| && Capable(ms[j]) ==>
      !Contains(ms[j].name, "flash") && !Contains(ms[j].name, "pro")
  {
  }

  /**
   * The three passes over the listed models, each stopping at its first match; a pass
   * runs only when the passes before it found nothing.
   */
  method SelectModel(ms: seq<ModelInfo>) returns (chosen: Option<nat>)
    ensures chosen == Select(ms)
  {
    chosen := None;
    for i := 0 to |ms|
      invariant chosen.None? ==> forall j :: 0 <= j < i ==> !Qualifies(FlashTier, ms[j])
      invariant chosen.Some? ==> chosen == FirstIn(FlashTier, ms)
    {
      if "generateContent" in ms[i].supportedGenerationMethods {
        if Contains(ms[i].name, "flash") {
          chosen := Some(i);
          break;
        }
      }
    }
    if chosen.None? {
      for i := 0 to |ms|
        invariant chosen.None? ==> forall j :: 0 <= j < i ==> !Qualifies(ProTier, ms[j])
        invariant chosen.Some? ==> chosen == FirstIn(ProTier, ms)
      {
        if "generateContent" in ms[i].supportedGenerationMethods && Contains(ms[i].name, "pro") {
          chosen := Some(i);
          break;
        }
      }
    }
    if chosen.None? {
      for i := 0 to |ms|
        invariant chosen.None? ==> forall j :: 0 <= j < i ==> !Qualifies(AnyTier, ms[j])
        invariant chosen.Some? ==> chosen == FirstIn(AnyTier, ms)
      {
        if "generateContent" in ms[i].supportedGenerationMethods {
          chosen := Some(i);
          break;
        }
      }
    }
  }

  /** The report when listing the models raised `e`: it ends with the exception's text. */
  function ListingFailed(e: string): (r: string)
    ensures |r| > |e| && r[|r| - |e|..] == e
    ensures r[0] == '모'
  {
    "모델 목록 조회 실패. 키 확인해라. 에러: " + e
  }

  /** The report when no listed model can generate content. */
  function NoUsableModel(): (r: string)
    ensures |r| > 0 && r[0] == '❌'
  {
    "❌ 쓸 수 있는 모델이 하나도 없다."
  }

  /** The report when model `name` generated `text`: it names the model and ends with the text. */
  function Generated(name: string, text: string): (r: string)
    ensures OccursIn(name, r)
    ensures |r| > |text| && r[|r| - |text|..] == text
    ensures r[0] == '🤖'
  {
    var prefix := "🤖 **사용된 모델:** `";
    var r := prefix + name + "`\n\n" + text;
    assert OccursAt(name, r, |prefix|) by {
      assert r[|prefix|..|prefix| + |name|] == name;
    }
    r
  }

  /** The report when the attempt with model `name` raised `e`: it names the model and ends with the error. */
  function GenerationFailed(name: string, e: string): (r: string)
    ensures OccursIn(name, r)
    ensures |r| > |e| && r[|r| - |e|..] == e
    ensures r[0] == '🤯'
  {
    var prefix := "🤯 분석하다 터짐 (";
    var r := prefix + name + "): " + e;
    assert OccursAt(name, r, |prefix|) by {
      assert r[|prefix|..|prefix| + |name|] == name;
    }
    r
  }

  /**
   * The report for a listing outcome, where `generate` stands for the one generation
   * attempt with the selected model's name (the prompt is fixed by the caller).
   */
  function Report(listing: Result<seq<ModelInfo>, string>,
                  generate: string -> Result<string, string>): (r: string)
    ensures listing.Failure? ==> r == ListingFailed(listing.error)
    ensures listing.Success? ==>
      (r == NoUsableModel() <==> forall j :: 0 <= j < |listing.value| ==> !Capable(listing.value[j]))
    ensures listing.Success? && r != NoUsableModel() ==> OccursIn(listing.value[Select(listing.value).value].name, r)
  {
    match listing
    case Failure(e) => ListingFailed(e)
    case Success(ms) =>
      match Select(ms)
      case None => NoUsableModel()
      case Some(i) =>
        match generate(ms[i].name)
        case Success(text) => Generated(ms[i].name, text)
        case Failure(e) => GenerationFailed(ms[i].name, e)
  }

  /**
   * The request as the source runs it: list, select with the three passes, stop early on
   * a listing failure or when nothing is usable, else make exactly one generation attempt.
   */
  method AnalyzeWithAi(listing: Result<seq<ModelInfo>, string>,
                       generate: string -> Result<string, string>) returns (report: string)
    ensures report == Report(listing, generate)
  {
    if listing.Failure? {
      return ListingFailed(listing.error);
    }
    var ms := listing.value;
    var chosen := SelectModel(ms);
    if chosen.None? {
      return NoUsableModel();
    }
    var name := ms[chosen.value].name;
    var response := generate(name);
    if response.Success? {
      report := Generated(name, response.value);
    } else {
      report := GenerationFailed(name, response.error);
    }
  }

  /**
   * When listing fails or no listed model can generate content, the report is the
   * matching error message and does not depend on the generation attempt at all.
   */
  lemma NoAttemptWithoutModel(listing: Result<seq<ModelInfo>, string>,
                              g1: string -> Result<string, string>,
                              g2: string -> Result<string, string>)
    requires listing.Failure? || !AnyIn(AnyTier, listing.value)
    ensures Report(listing, g1) == Report(listing, g2)
    ensures listing.Failure? ==> Report(listing, g1) == ListingFailed(listing.error)
    ensures listing.Success? ==> Report(listing, g1) == NoUsableModel()
  {
  }

  /**
   * When a model is usable, the generation attempt is made with the selected model's
   * name, and the report carries that name whether the attempt succeeds or fails.
   */
  lemma AttemptUsesSelectedModel(ms: seq<ModelInfo>, generate: string -> Result<string, string>)
    requires AnyIn(AnyTier, ms)
    ensures Select(ms).Some?
    ensures generate(ms[Select(ms).value].name).Success? ==>
      Report(Success(ms), generate) ==
        Generated(ms[Select(ms).value].name, generate(ms[Select(ms).value].name).value)
    ensures generate(ms[Select(ms).value].name).Failure? ==>
      Report(Success(ms), generate) ==
        GenerationFailed(ms[Select(ms).value].name, generate(ms[Select(ms).value].name).error)
  {
  }
}
