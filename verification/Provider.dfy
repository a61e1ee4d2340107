/** The provider seam: pricing a call and classifying what came back (llm/client.py). */
module Provider {
  import opened Schemas
  import opened Text

  type Usd = x: real | 0.0 <= x witness 0.0

  datatype Completion = Completion(
    text: string,
    model: string,
    tokensIn: nat,
    tokensOut: nat,
    costUsd: Usd,
    latencyMs: real,
    stopReason: string)

  // llm/errors.py: Timeout, Refusal and Truncation are the subclasses of ProviderError.
  datatype Failure = Timeout | Error | Refusal | Truncation

  datatype CallOutcome = Completed(result: Completion) | Raised(failure: Failure, costUsd: Usd)

  // The spend a call is known to have caused.
  function KnownCost(o: CallOutcome): Usd {
    if o.Completed? then o.result.costUsd else o.costUsd
  }

  /** What a call can come back with: a completion has text, a price takes tokens, and a timeout has none. */
  predicate Possible(o: CallOutcome) {
    match o
    case Completed(r) => !Blank(r.text) && (r.costUsd > 0.0 ==> r.tokensIn + r.tokensOut > 0)
    case Raised(failure, costUsd) => failure.Timeout? ==> costUsd == 0.0
  }

  // ---------- prices and token counts ----------

  // What the SDK reports for one usage counter.
  datatype UsageField = Missing | IntValue(n: int) | BoolValue(b: bool) | OtherValue
  datatype Usage = Usage(input: UsageField, output: UsageField)

  // None stands for the ProviderError that malformed billing metadata raises.
  function TokenCount(field: UsageField): (r: Option<nat>)
    ensures r.Some? ==> (r.value == 0 && field.Missing?) || field == IntValue(r.value)
    ensures r.None? <==> field.BoolValue? || field.OtherValue? || (field.IntValue? && field.n < 0)
  {
    match field
    case Missing => Some(0)
    case IntValue(n) => if n < 0 then None else Some(n)
    case _ => None
  }

  datatype Prices = Prices(inPerM: Usd, outPerM: Usd)

  function TokenCost(tokensIn: nat, tokensOut: nat, p: Prices): Usd {
    (tokensIn as real * p.inPerM + tokensOut as real * p.outPerM) / 1000000.0
  }

  /** The price, per million tokens of each kind. */
  lemma PriceIs(i: nat, o: nat, p: Prices)
    ensures TokenCost(i, o, p) * 1000000.0 == i as real * p.inPerM + o as real * p.outPerM
  {
  }

  /** A million tokens in cost the one price, a million out the other, and the price of two calls together is
      the sum of their prices. */
  lemma PriceAdds(i: nat, o: nat, i': nat, o': nat, p: Prices)
    ensures TokenCost(1000000, 0, p) == p.inPerM && TokenCost(0, 1000000, p) == p.outPerM
    ensures TokenCost(i + i', o + o', p) == TokenCost(i, o, p) + TokenCost(i', o', p)
  {
    PriceIs(1000000, 0, p);
    PriceIs(0, 1000000, p);
    PriceIs(i, o, p);
    PriceIs(i', o', p);
    PriceIs(i + i', o + o', p);
    Distributes(i as real, i' as real, p.inPerM);
    Distributes(o as real, o' as real, p.outPerM);
  }

  lemma Distributes(a: real, b: real, x: real)
    ensures (a + b) * x == a * x + b * x
  {
  }

  lemma ProductMonotone(a: real, b: real, p: real)
    requires a <= b && 0.0 <= p
    ensures a * p <= b * p
  {
    assert 0.0 <= (b - a) * p;
  }

  // A bound on the tokens of a call is a bound on its price: where a per-call cost bound comes from.
  lemma TokenCostMonotone(i: nat, o: nat, maxIn: nat, maxOut: nat, p: Prices)
    requires i <= maxIn && o <= maxOut
    ensures TokenCost(i, o, p) <= TokenCost(maxIn, maxOut, p)
  {
    ProductMonotone(i as real, maxIn as real, p.inPerM);
    ProductMonotone(o as real, maxOut as real, p.outPerM);
  }

  lemma NoTokensNoCost(i: nat, o: nat, p: Prices)
    requires i + o == 0
    ensures TokenCost(i, o, p) == 0.0
  {
    var free, x, y := 0.0, p.inPerM, p.outPerM;
    assert i as real == free && o as real == free;
    assert free * x == 0.0 && free * y == 0.0;
    assert TokenCost(i, o, p) == (free * x + free * y) / 1000000.0;
  }

  // What a response is known to cost: priced when both counters are readable, nothing otherwise.
  function Priced(usage: Usage, p: Prices): Option<Usd> {
    var i, o := TokenCount(usage.input), TokenCount(usage.output);
    if i.Some? && o.Some? then Some(TokenCost(i.value, o.value, p)) else None
  }

  // ---------- the failure ladders ----------

  datatype Sdk<+R> = SdkTimeout | SdkError | Answered(reply: R, latencyMs: real)

  datatype OpenAIReply = OpenAIReply(
    usage: Usage,
    status: Option<string>,
    refusal: Option<string>,
    incompleteReason: Option<string>,
    outputText: string,
    model: Option<string>)

  datatype Block = TextBlock(text: string) | OtherBlock

  datatype AnthropicReply = AnthropicReply(
    usage: Usage,
    stopReason: Option<string>,
    content: seq<Block>,
    model: Option<string>)

  // `value or default` on an optional string.
  function OrElse(value: Option<string>, default: string): (r: string)
    ensures forall s :: value == Some(s) && s != "" ==> r == s
    ensures value.None? || value == Some("") ==> r == default
  {
    if value.Some? && value.value != "" then value.value else default
  }

  const TRUNCATING: set<string> := {"max_tokens", "pause_turn", "model_context_window_exceeded"}

  ghost predicate CutShort(r: AnthropicReply) {
    || r.stopReason == Some("max_tokens")
    || r.stopReason == Some("pause_turn")
    || r.stopReason == Some("model_context_window_exceeded")
  }

  // Why an answered, priced OpenAI call is not a completion; None when it is one.
  ghost predicate OpenAIFails(r: OpenAIReply, f: Failure) {
    match f
    case Refusal => r.refusal.Some? || (r.status == Some("incomplete") && r.incompleteReason == Some("content_filter"))
    case Truncation => r.refusal.None? && r.status == Some("incomplete") && r.incompleteReason != Some("content_filter")
    case Error => r.refusal.None? && r.status != Some("incomplete") &&
                  (r.status in {Some("failed"), Some("cancelled")} || Blank(r.outputText))
    case Timeout => false
  }

  ghost predicate AnthropicFails(r: AnthropicReply, f: Failure) {
    match f
    case Refusal => r.stopReason == Some("refusal")
    case Truncation => CutShort(r)
    case Error => r.stopReason != Some("refusal") && !CutShort(r) && Blank(TextOf(r.content))
    case Timeout => false
  }

  // llm/client.py:211-302.
  method OpenAIComplete(sdk: Sdk<OpenAIReply>, model: string, prices: Prices) returns (o: CallOutcome)
    ensures Possible(o)
    ensures !sdk.Answered? ==> o == Raised(if sdk.SdkTimeout? then Timeout else Error, 0.0)
    ensures sdk.Answered? && Priced(sdk.reply.usage, prices).None? ==> o == Raised(Error, 0.0)
    // The price is that of the tokens read, each kind at its own rate.
    ensures sdk.Answered? ==>
              var i, j := TokenCount(sdk.reply.usage.input), TokenCount(sdk.reply.usage.output);
              i.Some? && j.Some? ==>
                KnownCost(o) * 1000000.0 == i.value as real * prices.inPerM + j.value as real * prices.outPerM
    // Every answered call with readable usage carries its price, completed or not.
    ensures sdk.Answered? && Priced(sdk.reply.usage, prices).Some? ==>
              && KnownCost(o) == Priced(sdk.reply.usage, prices).value
              && (forall f :: (o.Raised? && o.failure == f) <==> OpenAIFails(sdk.reply, f))
              && (o.Completed? ==>
                    && o.result.text == sdk.reply.outputText && !Blank(o.result.text)
                    && o.result.latencyMs == sdk.latencyMs
                    && o.result.model == OrElse(sdk.reply.model, model)
                    && o.result.stopReason == OrElse(sdk.reply.status, "completed")
                    && Some(o.result.tokensIn) == TokenCount(sdk.reply.usage.input)
                    && Some(o.result.tokensOut) == TokenCount(sdk.reply.usage.output))
  {
    match sdk {
      case SdkTimeout => return Raised(Timeout, 0.0);
      case SdkError => return Raised(Error, 0.0);
      case Answered(reply, latencyMs) =>
        var tokensIn := TokenCount(reply.usage.input);
        if tokensIn.None? { return Raised(Error, 0.0); }
        var tokensOut := TokenCount(reply.usage.output);
        if tokensOut.None? { return Raised(Error, 0.0); }
        var costUsd := TokenCost(tokensIn.value, tokensOut.value, prices);
        PriceIs(tokensIn.value, tokensOut.value, prices);
        if tokensIn.value + tokensOut.value == 0 { NoTokensNoCost(tokensIn.value, tokensOut.value, prices); }
        if reply.refusal.Some? { return Raised(Refusal, costUsd); }
        if reply.status == Some("failed") || reply.status == Some("cancelled") { return Raised(Error, costUsd); }
        if reply.status == Some("incomplete") {
          var reason := OrElse(reply.incompleteReason, "unknown");
          if reason == "content_filter" { return Raised(Refusal, costUsd); }
          return Raised(Truncation, costUsd);
        }
        if Blank(reply.outputText) { return Raised(Error, costUsd); }
        return Completed(Completion(reply.outputText, OrElse(reply.model, model), tokensIn.value, tokensOut.value,
                                    costUsd, latencyMs, OrElse(reply.status, "completed")));
    }
  }

  function TextOf(blocks: seq<Block>): string {
    if blocks == [] then
      ""
    else
      var last := blocks[|blocks| - 1];
      TextOf(blocks[..|blocks| - 1]) + (if last.TextBlock? then last.text else "")
  }

  /** The text of a list is the text of its parts in order; of one block, its text if it is a text block. */
  lemma {:induction false} TextOfParts(a: seq<Block>, b: seq<Block>)
    ensures TextOf(a + b) == TextOf(a) + TextOf(b)
    ensures forall text :: TextOf([TextBlock(text)]) == text
    ensures TextOf([]) == TextOf([OtherBlock]) == ""
  {
    assert forall block: Block :: [block][..0] == [];
    if b == [] {
      assert a + b == a;
    } else {
      assert (a + b)[..|a + b| - 1] == a + b[..|b| - 1];
      TextOfParts(a, b[..|b| - 1]);
    }
  }

  // llm/client.py:169-180: the text blocks, joined in order.
  method AnthropicText(blocks: seq<Block>) returns (text: string)
    ensures text == TextOf(blocks)
  {
    text := "";
    for i := 0 to |blocks|
      invariant text == TextOf(blocks[..i])
    {
      assert blocks[..i + 1][..i] == blocks[..i];
      if blocks[i].TextBlock? {
        text := text + blocks[i].text;
      }
    }
    assert blocks[..|blocks|] == blocks;
  }

  // llm/client.py:343-437.
  method AnthropicComplete(sdk: Sdk<AnthropicReply>, model: string, prices: Prices) returns (o: CallOutcome)
    ensures Possible(o)
    ensures !sdk.Answered? ==> o == Raised(if sdk.SdkTimeout? then Timeout else Error, 0.0)
    ensures sdk.Answered? && Priced(sdk.reply.usage, prices).None? ==> o == Raised(Error, 0.0)
    // The price is that of the tokens read, each kind at its own rate.
    ensures sdk.Answered? ==>
              var i, j := TokenCount(sdk.reply.usage.input), TokenCount(sdk.reply.usage.output);
              i.Some? && j.Some? ==>
                KnownCost(o) * 1000000.0 == i.value as real * prices.inPerM + j.value as real * prices.outPerM
    ensures sdk.Answered? && Priced(sdk.reply.usage, prices).Some? ==>
              && KnownCost(o) == Priced(sdk.reply.usage, prices).value
              && (forall f :: (o.Raised? && o.failure == f) <==> AnthropicFails(sdk.reply, f))
              && (o.Completed? ==>
                    && o.result.text == TextOf(sdk.reply.content) && !Blank(o.result.text)
                    && o.result.latencyMs == sdk.latencyMs
                    && o.result.model == OrElse(sdk.reply.model, model)
                    && o.result.stopReason == OrElse(sdk.reply.stopReason, "end_turn")
                    && Some(o.result.tokensIn) == TokenCount(sdk.reply.usage.input)
                    && Some(o.result.tokensOut) == TokenCount(sdk.reply.usage.output))
  {
    match sdk {
      case SdkTimeout => return Raised(Timeout, 0.0);
      case SdkError => return Raised(Error, 0.0);
      case Answered(reply, latencyMs) =>
        var tokensIn := TokenCount(reply.usage.input);
        if tokensIn.None? { return Raised(Error, 0.0); }
        var tokensOut := TokenCount(reply.usage.output);
        if tokensOut.None? { return Raised(Error, 0.0); }
        var costUsd := TokenCost(tokensIn.value, tokensOut.value, prices);
        PriceIs(tokensIn.value, tokensOut.value, prices);
        if tokensIn.value + tokensOut.value == 0 { NoTokensNoCost(tokensIn.value, tokensOut.value, prices); }
        if reply.stopReason == Some("refusal") { return Raised(Refusal, costUsd); }
        if reply.stopReason.Some? && reply.stopReason.value in TRUNCATING { return Raised(Truncation, costUsd); }
        var text := AnthropicText(reply.content);
        if Blank(text) { return Raised(Error, costUsd); }
        return Completed(Completion(text, OrElse(reply.model, model), tokensIn.value, tokensOut.value,
                                    costUsd, latencyMs, OrElse(reply.stopReason, "end_turn")));
    }
  }
}
