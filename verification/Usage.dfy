/**
 Token usage of the agent loop: merging two usages, and the total over all model calls.

 Token counts are unbounded integers and costs are reals. Fields that the merge does not
 copy are modelled too, so that what it loses can be stated.
 */
module Usage {
  import opened Wrappers

  datatype WriteDetails = WriteDetails(fiveMinutes: int, oneHour: int)

  datatype PromptDetails = PromptDetails(text: int, audio: int, image: int, cachedRead: int, cachedWrite: int,
                                         writeDetails: Option<WriteDetails>)

  datatype CompletionDetails = CompletionDetails(text: int, accepted: int, audio: int, reasoning: int, rejected: int,
                                                 citation: Option<int>, searches: Option<int>, image: Option<int>)

  datatype Cost = Cost(input: real, output: real, reasoning: real, citation: real, searches: real, request: real, total: real)

  /** Fields of a usage that a merge never copies: cost ticks, served tier and model, compression counts. */
  datatype Extras = Extras(ticks: Option<int>, speed: Option<string>, geo: Option<string>, fallbackModel: Option<string>,
                           originalPrompt: Option<int>, compressedPrompt: Option<int>)

  datatype LlmUsage = LlmUsage(prompt: int, completion: int, total: int,
                               promptDetails: Option<PromptDetails>, completionDetails: Option<CompletionDetails>,
                               cost: Option<Cost>, extras: Extras)

  const NoExtras := Extras(None, None, None, None, None, None)
  const NoPromptDetails := PromptDetails(0, 0, 0, 0, 0, None)
  const NoCompletionDetails := CompletionDetails(0, 0, 0, 0, 0, None, None, None)
  const NoCost := Cost(0.0, 0.0, 0.0, 0.0, 0.0, 0.0, 0.0)

  function Or<T>(x: Option<T>, fallback: T): T {
    if x.Some? then x.value else fallback
  }

  function AddOptional(a: Option<int>, b: Option<int>): Option<int> {
    if a.None? && b.None? then None else Some(Or(a, 0) + Or(b, 0))
  }

  function MergePromptDetails(a: Option<PromptDetails>, b: Option<PromptDetails>): Option<PromptDetails> {
    if a.None? && b.None? then None
    else
      var x, y := Or(a, NoPromptDetails), Or(b, NoPromptDetails);
      Some(PromptDetails(x.text + y.text, x.audio + y.audio, x.image + y.image,
                         x.cachedRead + y.cachedRead, x.cachedWrite + y.cachedWrite, None))
  }

  function MergeCompletionDetails(a: Option<CompletionDetails>, b: Option<CompletionDetails>): Option<CompletionDetails> {
    if a.None? && b.None? then None
    else
      var x, y := Or(a, NoCompletionDetails), Or(b, NoCompletionDetails);
      Some(CompletionDetails(x.text + y.text, x.accepted + y.accepted, x.audio + y.audio,
                             x.reasoning + y.reasoning, x.rejected + y.rejected,
                             AddOptional(x.citation, y.citation), AddOptional(x.searches, y.searches),
                             AddOptional(x.image, y.image)))
  }

  function MergeCost(a: Option<Cost>, b: Option<Cost>): Option<Cost> {
    if a.None? && b.None? then None
    else
      var x, y := Or(a, NoCost), Or(b, NoCost);
      Some(Cost(x.input + y.input, x.output + y.output, x.reasoning + y.reasoning, x.citation + y.citation,
                x.searches + y.searches, x.request + y.request, x.total + y.total))
  }

  /** The merge; a nil usage on either side gives back the other one as it is. */
  function MergeUsage(base: Option<LlmUsage>, add: Option<LlmUsage>): Option<LlmUsage> {
    if add.None? then base
    else if base.None? then add
    else
      var a, b := base.value, add.value;
      Some(LlmUsage(a.prompt + b.prompt, a.completion + b.completion, a.total + b.total,
                    MergePromptDetails(a.promptDetails, b.promptDetails),
                    MergeCompletionDetails(a.completionDetails, b.completionDetails),
                    MergeCost(a.cost, b.cost), NoExtras))
  }

  /** What the loop accumulates over the usages of its model calls. */
  function Total(us: seq<Option<LlmUsage>>): Option<LlmUsage> {
    if us == [] then None else MergeUsage(Total(us[..|us| - 1]), us[|us| - 1])
  }

  // ---- the components of a usage, absent ones counting as zero ----

  datatype Count =
    | Prompt | Completion | TotalTokens
    | PromptText | PromptAudio | PromptImage | CachedRead | CachedWrite
    | CompletionText | Accepted | CompletionAudio | Reasoning | Rejected | Citation | Searches | CompletionImage

  datatype CostPart = Input | Output | ReasoningCost | CitationCost | SearchCost | Request | TotalCost

  datatype Part = PromptPart | CompletionPart | CitationCount | SearchCount | ImageCount | CostPresent

  function Tokens(u: Option<LlmUsage>, c: Count): int {
    if u.None? then 0
    else
      var p := Or(u.value.promptDetails, NoPromptDetails);
      var d := Or(u.value.completionDetails, NoCompletionDetails);
      match c
      case Prompt => u.value.prompt
      case Completion => u.value.completion
      case TotalTokens => u.value.total
      case PromptText => p.text
      case PromptAudio => p.audio
      case PromptImage => p.image
      case CachedRead => p.cachedRead
      case CachedWrite => p.cachedWrite
      case CompletionText => d.text
      case Accepted => d.accepted
      case CompletionAudio => d.audio
      case Reasoning => d.reasoning
      case Rejected => d.rejected
      case Citation => Or(d.citation, 0)
      case Searches => Or(d.searches, 0)
      case CompletionImage => Or(d.image, 0)
  }

  function Price(u: Option<LlmUsage>, c: CostPart): real {
    if u.None? then 0.0
    else
      var x := Or(u.value.cost, NoCost);
      match c
      case Input => x.input
      case Output => x.output
      case ReasoningCost => x.reasoning
      case CitationCost => x.citation
      case SearchCost => x.searches
      case Request => x.request
      case TotalCost => x.total
  }

  predicate Has(u: Option<LlmUsage>, p: Part) {
    u.Some? &&
    var d := Or(u.value.completionDetails, NoCompletionDetails);
    match p
    case PromptPart => u.value.promptDetails.Some?
    case CompletionPart => u.value.completionDetails.Some?
    case CitationCount => d.citation.Some?
    case SearchCount => d.searches.Some?
    case ImageCount => d.image.Some?
    case CostPresent => u.value.cost.Some?
  }

  function SumTokens(us: seq<Option<LlmUsage>>, c: Count): int {
    if us == [] then 0 else Tokens(us[0], c) + SumTokens(us[1..], c)
  }

  function SumPrice(us: seq<Option<LlmUsage>>, c: CostPart): real {
    if us == [] then 0.0 else Price(us[0], c) + SumPrice(us[1..], c)
  }

  // ---- the merge ----

  lemma MergeAdds(a: Option<LlmUsage>, b: Option<LlmUsage>, c: Count, k: CostPart, p: Part)
    ensures Tokens(MergeUsage(a, b), c) == Tokens(a, c) + Tokens(b, c)
    ensures Price(MergeUsage(a, b), k) == Price(a, k) + Price(b, k)
    ensures Has(MergeUsage(a, b), p) <==> Has(a, p) || Has(b, p)
  {
  }

  /** The components, the presence of the optional parts and the uncopied fields determine a usage. */
  lemma ComponentsDetermine(a: LlmUsage, b: LlmUsage)
    requires forall c :: Tokens(Some(a), c) == Tokens(Some(b), c)
    requires forall k :: Price(Some(a), k) == Price(Some(b), k)
    requires forall p :: Has(Some(a), p) <==> Has(Some(b), p)
    requires a.extras == b.extras
    requires a.promptDetails.Some? && b.promptDetails.Some? ==> a.promptDetails.value.writeDetails == b.promptDetails.value.writeDetails
    ensures a == b
  {
    assert Tokens(Some(a), Prompt) == Tokens(Some(b), Prompt);
    assert Tokens(Some(a), Completion) == Tokens(Some(b), Completion);
    assert Tokens(Some(a), TotalTokens) == Tokens(Some(b), TotalTokens);
    SamePromptDetails(a, b);
    SameCompletionDetails(a, b);
    SameCost(a, b);
  }

  lemma SamePromptDetails(a: LlmUsage, b: LlmUsage)
    requires forall c :: Tokens(Some(a), c) == Tokens(Some(b), c)
    requires forall p :: Has(Some(a), p) <==> Has(Some(b), p)
    requires a.promptDetails.Some? && b.promptDetails.Some? ==> a.promptDetails.value.writeDetails == b.promptDetails.value.writeDetails
    ensures a.promptDetails == b.promptDetails
  {
    assert Has(Some(a), PromptPart) <==> Has(Some(b), PromptPart);
    assert Tokens(Some(a), PromptText) == Tokens(Some(b), PromptText);
    assert Tokens(Some(a), PromptAudio) == Tokens(Some(b), PromptAudio);
    assert Tokens(Some(a), PromptImage) == Tokens(Some(b), PromptImage);
    assert Tokens(Some(a), CachedRead) == Tokens(Some(b), CachedRead);
    assert Tokens(Some(a), CachedWrite) == Tokens(Some(b), CachedWrite);
  }

  lemma SameCompletionDetails(a: LlmUsage, b: LlmUsage)
    requires forall c :: Tokens(Some(a), c) == Tokens(Some(b), c)
    requires forall p :: Has(Some(a), p) <==> Has(Some(b), p)
    ensures a.completionDetails == b.completionDetails
  {
    assert Has(Some(a), CompletionPart) <==> Has(Some(b), CompletionPart);
    assert Has(Some(a), CitationCount) <==> Has(Some(b), CitationCount);
    assert Has(Some(a), SearchCount) <==> Has(Some(b), SearchCount);
    assert Has(Some(a), ImageCount) <==> Has(Some(b), ImageCount);
    assert Tokens(Some(a), CompletionText) == Tokens(Some(b), CompletionText);
    assert Tokens(Some(a), Accepted) == Tokens(Some(b), Accepted);
    assert Tokens(Some(a), CompletionAudio) == Tokens(Some(b), CompletionAudio);
    assert Tokens(Some(a), Reasoning) == Tokens(Some(b), Reasoning);
    assert Tokens(Some(a), Rejected) == Tokens(Some(b), Rejected);
    assert Tokens(Some(a), Citation) == Tokens(Some(b), Citation);
    assert Tokens(Some(a), Searches) == Tokens(Some(b), Searches);
    assert Tokens(Some(a), CompletionImage) == Tokens(Some(b), CompletionImage);
  }

  lemma SameCost(a: LlmUsage, b: LlmUsage)
    requires forall k :: Price(Some(a), k) == Price(Some(b), k)
    requires forall p :: Has(Some(a), p) <==> Has(Some(b), p)
    ensures a.cost == b.cost
  {
    assert Has(Some(a), CostPresent) <==> Has(Some(b), CostPresent);
    assert Price(Some(a), Input) == Price(Some(b), Input);
    assert Price(Some(a), Output) == Price(Some(b), Output);
    assert Price(Some(a), ReasoningCost) == Price(Some(b), ReasoningCost);
    assert Price(Some(a), CitationCost) == Price(Some(b), CitationCost);
    assert Price(Some(a), SearchCost) == Price(Some(b), SearchCost);
    assert Price(Some(a), Request) == Price(Some(b), Request);
    assert Price(Some(a), TotalCost) == Price(Some(b), TotalCost);
  }

  lemma MergeHasNoUncopied(a: LlmUsage, b: LlmUsage)
    ensures var m := MergeUsage(Some(a), Some(b)).value;
            m.extras == NoExtras && (m.promptDetails.Some? ==> m.promptDetails.value.writeDetails.None?)
  {
  }

  lemma PromptDetailsAssociative(a: Option<PromptDetails>, b: Option<PromptDetails>, c: Option<PromptDetails>)
    ensures MergePromptDetails(MergePromptDetails(a, b), c) == MergePromptDetails(a, MergePromptDetails(b, c))
  {
  }

  lemma CompletionDetailsAssociative(a: Option<CompletionDetails>, b: Option<CompletionDetails>, c: Option<CompletionDetails>)
    ensures MergeCompletionDetails(MergeCompletionDetails(a, b), c) == MergeCompletionDetails(a, MergeCompletionDetails(b, c))
  {
  }

  lemma CostAssociative(a: Option<Cost>, b: Option<Cost>, c: Option<Cost>)
    ensures MergeCost(MergeCost(a, b), c) == MergeCost(a, MergeCost(b, c))
  {
  }

  /** Merging is associative, and a nil usage is its unit on both sides. */
  lemma MergeAssociative(a: Option<LlmUsage>, b: Option<LlmUsage>, c: Option<LlmUsage>)
    ensures MergeUsage(MergeUsage(a, b), c) == MergeUsage(a, MergeUsage(b, c))
    ensures MergeUsage(None, a) == a && MergeUsage(a, None) == a
  {
    if a.Some? && b.Some? && c.Some? {
      var x, y, z := a.value, b.value, c.value;
      PromptDetailsAssociative(x.promptDetails, y.promptDetails, z.promptDetails);
      CompletionDetailsAssociative(x.completionDetails, y.completionDetails, z.completionDetails);
      CostAssociative(x.cost, y.cost, z.cost);
    }
  }

  // ---- the total ----

  lemma {:induction false} SumTokensSplits(us: seq<Option<LlmUsage>>, u: Option<LlmUsage>, c: Count)
    ensures SumTokens(us + [u], c) == SumTokens(us, c) + Tokens(u, c)
  {
    if us != [] {
      assert (us + [u])[1..] == us[1..] + [u];
      SumTokensSplits(us[1..], u, c);
    }
  }

  lemma {:induction false} SumPriceSplits(us: seq<Option<LlmUsage>>, u: Option<LlmUsage>, k: CostPart)
    ensures SumPrice(us + [u], k) == SumPrice(us, k) + Price(u, k)
  {
    if us != [] {
      assert (us + [u])[1..] == us[1..] + [u];
      SumPriceSplits(us[1..], u, k);
    }
  }

  /** Every component of the total is the sum over all usages; an optional part is there if any usage has it. */
  lemma {:induction false} TotalIsComponentSum(us: seq<Option<LlmUsage>>, c: Count, k: CostPart, p: Part)
    ensures Tokens(Total(us), c) == SumTokens(us, c)
    ensures Price(Total(us), k) == SumPrice(us, k)
    ensures Has(Total(us), p) <==> exists u :: u in us && Has(u, p)
  {
    if us != [] {
      var rest, last := us[..|us| - 1], us[|us| - 1];
      TotalIsComponentSum(rest, c, k, p);
      MergeAdds(Total(rest), last, c, k, p);
      assert us == rest + [last];
      SumTokensSplits(rest, last, c);
      SumPriceSplits(rest, last, k);
      assert last in us;
      assert forall u :: u in us <==> u in rest || u == last;
    }
  }

  /** How the calls are grouped does not matter. */
  lemma {:induction false} TotalSplits(xs: seq<Option<LlmUsage>>, ys: seq<Option<LlmUsage>>)
    ensures Total(xs + ys) == MergeUsage(Total(xs), Total(ys))
  {
    if ys == [] {
      assert xs + ys == xs;
    } else {
      var rest, last := ys[..|ys| - 1], ys[|ys| - 1];
      assert (xs + ys)[..|xs + ys| - 1] == xs + rest;
      TotalSplits(xs, rest);
      MergeAssociative(Total(xs), Total(rest), last);
    }
  }

  function Reported(us: seq<Option<LlmUsage>>): nat {
    if us == [] then 0 else Reported(us[..|us| - 1]) + if us[|us| - 1].Some? then 1 else 0
  }

  /**
   The uncopied fields survive exactly when at most one call reported a usage: with two or
   more the total has none of them, whatever the calls reported.
   */
  lemma {:induction false} UncopiedSurviveIff(us: seq<Option<LlmUsage>>)
    ensures Total(us).Some? <==> Reported(us) > 0
    ensures Reported(us) == 1 ==> Total(us) in us
    ensures Reported(us) > 1 ==>
              && Total(us).value.extras == NoExtras
              && (Total(us).value.promptDetails.Some? ==> Total(us).value.promptDetails.value.writeDetails.None?)
  {
    if us != [] {
      var rest, last := us[..|us| - 1], us[|us| - 1];
      UncopiedSurviveIff(rest);
      if Total(rest).Some? && last.Some? {
        MergeHasNoUncopied(Total(rest).value, last.value);
      }
    }
  }
}
