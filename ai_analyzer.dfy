/**
 * The AI side of the scanner (pkg/ai_analyzer.go): building the client from the
 * configuration, cleaning the model's reply, turning one reply into an analysis, and the
 * batch loop over the pods. The chat call itself is not modelled: each attempt's reply is an
 * input. The JSON decoder is a parameter, a function from the cleaned text to either the
 * decoded fields or the decoder's error text.
 */
module AiAnalyzer {
  import opened Wrappers
  import opened Sequences
  import opened Strings
  import opened Pss
  import opened Configuration

  // ---------------------------------------------------------------------------------------
  // The analyzer and its client configuration (pkg/ai_analyzer.go:29-60)
  // ---------------------------------------------------------------------------------------

  /** The client settings: the key, and the base URL (`None` keeps the library's default endpoint). */
  datatype ClientConfig = ClientConfig(apiKey: string, baseUrl: Option<string>)

  datatype AIAnalyzer = AIAnalyzer(client: ClientConfig, model: string)

  /** Removes one trailing "/v1/", or else one trailing "/v1": the client appends the version itself. */
  function TrimVersionSuffix(baseUrl: string): (r: string)
    ensures HasSuffix(baseUrl, "/v1/") ==> r + "/v1/" == baseUrl
    ensures !HasSuffix(baseUrl, "/v1/") && HasSuffix(baseUrl, "/v1") ==> r + "/v1" == baseUrl
    ensures !HasSuffix(baseUrl, "/v1/") && !HasSuffix(baseUrl, "/v1") ==> r == baseUrl
  {
    if HasSuffix(baseUrl, "/v1/") then TrimSuffix(baseUrl, "/v1/")
    else if HasSuffix(baseUrl, "/v1") then TrimSuffix(baseUrl, "/v1")
    else baseUrl
  }

  /**
   * Builds the analyzer. A missing configuration or API key stops the Go program with a
   * fatal log message; the model returns that message as a failure.
   */
  function NewAIAnalyzer(config: Option<Config>): (r: Result<AIAnalyzer, string>)
    ensures r.Success? <==> config.Some? && config.value.openAI.apiKey != ""
    ensures r.Success? ==> (r.value.client.apiKey == config.value.openAI.apiKey
                            && r.value.model == config.value.openAI.model)
  {
    if config.None? then Failure("Config is required for AI analyzer")
    else
      var openAI := config.value.openAI;
      if openAI.apiKey == "" then Failure("OpenAI API key is required in config")
      else
        var baseUrl := if openAI.baseUrl != "" then Some(TrimVersionSuffix(openAI.baseUrl)) else None;
        Success(AIAnalyzer(ClientConfig(openAI.apiKey, baseUrl), openAI.model))
  }

  /** An empty base URL keeps the default endpoint; any other is used with its version suffix trimmed. */
  lemma NewAIAnalyzerBaseUrl(config: Config)
    requires config.openAI.apiKey != ""
    ensures var client := NewAIAnalyzer(Some(config)).value.client;
            && (config.openAI.baseUrl == "" ==> client.baseUrl == None)
            && (config.openAI.baseUrl != "" ==> client.baseUrl == Some(TrimVersionSuffix(config.openAI.baseUrl)))
  {
  }

  /** Every configuration `LoadConfig` returns builds an analyzer. */
  lemma LoadedConfigBuildsAnalyzer(config: Config)
    requires Loaded(config)
    ensures NewAIAnalyzer(Some(config)).Success?
  {
  }

  /** The suffix is trimmed once only: a doubled version keeps its first "/v1". */
  lemma TrimVersionSuffixOnce(host: string)
    ensures TrimVersionSuffix(host + "/v1/v1/") == host + "/v1"
    ensures TrimVersionSuffix(host + "/v1/v1") == host + "/v1"
  {
    var a := host + "/v1/v1/";
    assert a[|a| - 4..] == "/v1/";
    assert (host + "/v1") + "/v1/" == a;
    var b := host + "/v1/v1";
    assert b[|b| - 4..] == "v1/v1"[1..];
    assert b[|b| - 4..] != "/v1/" by {
      assert b[|b| - 1] == '1';
    }
    assert b[|b| - 3..] == "/v1";
    assert (host + "/v1") + "/v1" == b;
  }

  // ---------------------------------------------------------------------------------------
  // Cleaning the reply (pkg/ai_analyzer.go:67-83)
  // ---------------------------------------------------------------------------------------

  const JsonFence: string := "```json"
  const Fence: string := "```"

  /** Drops an opening "```json" or else "```", then a closing "```", then trims. */
  function StripFences(trimmed: string): (r: string)
    ensures Trimmed(r)
  {
    var afterOpen :=
      if HasPrefix(trimmed, JsonFence) then TrimPrefix(trimmed, JsonFence)
      else if HasPrefix(trimmed, Fence) then TrimPrefix(trimmed, Fence)
      else trimmed;
    var afterClose := if HasSuffix(afterOpen, Fence) then TrimSuffix(afterOpen, Fence) else afterOpen;
    TrimSpace(afterClose)
  }

  /** Strips a Markdown code fence from the reply: trim, drop the fences, trim again. */
  function CleanResponseContent(content: string): (r: string)
    ensures Trimmed(r)
  {
    StripFences(TrimSpace(content))
  }

  /** A string that starts with "```json" starts with "```". */
  lemma JsonFenceIsFence(s: string)
    ensures HasPrefix(s, JsonFence) ==> HasPrefix(s, Fence)
  {
    if HasPrefix(s, JsonFence) {
      assert s[..3] == s[..7][..3];
    }
  }

  /** One differing character rules a prefix out. */
  lemma PrefixMismatch(s: string, p: string, k: int)
    requires 0 <= k < |p| && k < |s| && s[k] != p[k]
    ensures !HasPrefix(s, p)
  {
    assert |p| <= |s| ==> s[..|p|][k] == s[k];
  }

  /** Surrounding white space makes no difference. */
  lemma CleanIgnoresOuterSpace(content: string)
    ensures CleanResponseContent(content) == CleanResponseContent(TrimSpace(content))
  {
    var t := TrimSpace(content);
    assert TrimSpace(t) == t;
  }

  /** Text that is trimmed and neither opens nor closes a fence comes back unchanged. */
  lemma CleanLeavesPlainText(content: string)
    requires Trimmed(content) && !HasPrefix(content, Fence) && !HasSuffix(content, Fence)
    ensures CleanResponseContent(content) == content
  {
    JsonFenceIsFence(content);
    assert TrimSpace(content) == content;
  }

  /** A reply fenced as JSON becomes its inner text, trimmed. */
  lemma CleanJsonFence(inner: string)
    ensures CleanResponseContent(JsonFence + inner + Fence) == TrimSpace(inner)
  {
    var s := JsonFence + inner + Fence;
    assert Trimmed(s);
    assert TrimSpace(s) == s;
    assert s[..|JsonFence|] == JsonFence;
    var afterOpen := s[|JsonFence|..];
    assert afterOpen == inner + Fence;
    assert afterOpen[|afterOpen| - |Fence|..] == Fence;
    assert afterOpen[..|afterOpen| - |Fence|] == inner;
  }

  /** A bare fence around text that does not start with "json" is not a JSON fence. */
  lemma BareFenceNotJson(inner: string)
    requires !HasPrefix(inner, "json")
    ensures !HasPrefix(Fence + inner + Fence, JsonFence)
  {
    var s := Fence + inner + Fence;
    if |inner| < 4 {
      assert s[3 + |inner|] == '`';
      PrefixMismatch(s, JsonFence, 3 + |inner|);
    } else {
      assert inner[..4] != "json";
      var k :| 0 <= k < 4 && inner[k] != "json"[k];
      assert s[3 + k] == inner[k];
      PrefixMismatch(s, JsonFence, 3 + k);
    }
  }

  /** A bare fence around text that does not start with "json" becomes the inner text, trimmed. */
  lemma CleanBareFence(inner: string)
    requires !HasPrefix(inner, "json")
    ensures CleanResponseContent(Fence + inner + Fence) == TrimSpace(inner)
  {
    var s := Fence + inner + Fence;
    assert Trimmed(s);
    assert TrimSpace(s) == s;
    BareFenceNotJson(inner);
    assert s[..|Fence|] == Fence;
    var afterOpen := s[|Fence|..];
    assert afterOpen == inner + Fence;
    assert afterOpen[|afterOpen| - |Fence|..] == Fence;
    assert afterOpen[..|afterOpen| - |Fence|] == inner;
  }

  /** The "```json" tag is tested first, so it never survives: a bare fence followed by "json" loses the tag too. */
  lemma CleanBareFenceTagged(rest: string)
    ensures CleanResponseContent(Fence + "json" + rest + Fence) == TrimSpace(rest)
  {
    assert Fence + "json" + rest + Fence == JsonFence + rest + Fence;
    CleanJsonFence(rest);
  }

  /** Cleaning a cleaned text that neither opens nor closes a fence changes nothing. */
  lemma CleanIdempotentOnPlainResult(content: string)
    requires var r := CleanResponseContent(content); !HasPrefix(r, Fence) && !HasSuffix(r, Fence)
    ensures CleanResponseContent(CleanResponseContent(content)) == CleanResponseContent(content)
  {
    CleanLeavesPlainText(CleanResponseContent(content));
  }

  /** In general cleaning is not idempotent: nine backticks clean to a fence, which cleans to nothing. */
  lemma CleanNotIdempotent()
    ensures CleanResponseContent(Fence + Fence + Fence) == Fence
    ensures CleanResponseContent(Fence) == ""
  {
    CleanBareFence(Fence);
    assert TrimSpace(Fence) == Fence;
    assert !HasPrefix(Fence, JsonFence);
    assert Fence[..3] == Fence && Fence[3..] == "";
    assert TrimSpace("") == "";
  }

  // ---------------------------------------------------------------------------------------
  // One pod (pkg/ai_analyzer.go:85-184)
  // ---------------------------------------------------------------------------------------

  /** An analysis of one pod; the timestamp is not modelled. */
  datatype AIAnalysis = AIAnalysis(
    namespace: string,
    pod: string,
    securityLevel: string,
    issues: seq<string>,
    recommendations: seq<string>)

  /** The three fields the decoder extracts from the cleaned reply. */
  datatype ParsedReply = ParsedReply(securityLevel: string, issues: seq<string>, recommendations: seq<string>)

  /** The outcome of the chat call: a transport error, or the contents of the returned choices. */
  datatype ChatReply = CallError(err: string) | Completion(choices: seq<string>)

  type Decoder = string -> Result<ParsedReply, string>

  const UnknownLevel: string := "UNKNOWN"
  const FallbackRecommendations: seq<string> := ["Manual security review recommended", "Check API response format"]

  /** The analysis recorded when the reply does not decode. */
  function Fallback(pod: Pod, decodeError: string): AIAnalysis {
    AIAnalysis(pod.namespace, pod.name, UnknownLevel,
               ["AI analysis failed to parse response: " + decodeError], FallbackRecommendations)
  }

  /**
   * The decision logic of `AnalyzePod`: a call error or an empty choice list is an error; the
   * first choice is cleaned and decoded; a decoding failure becomes the fallback analysis.
   */
  function AnalyzePod(pod: Pod, reply: ChatReply, decode: Decoder): (r: Result<AIAnalysis, string>)
    ensures r.Failure? <==> reply.CallError? || |reply.choices| == 0
    ensures r.Success? ==> r.value.namespace == pod.namespace && r.value.pod == pod.name
  {
    match reply
    case CallError(err) => Failure("failed to call OpenAI API: " + err)
    case Completion(choices) =>
      if |choices| == 0 then Failure("no response from OpenAI API")
      else
        match decode(CleanResponseContent(choices[0]))
        case Failure(err) => Success(Fallback(pod, err))
        case Success(parsed) =>
          Success(AIAnalysis(pod.namespace, pod.name, parsed.securityLevel, parsed.issues, parsed.recommendations))
  }

  /** The two error texts. */
  lemma AnalyzePodErrors(pod: Pod, reply: ChatReply, decode: Decoder)
    ensures reply.CallError? ==> AnalyzePod(pod, reply, decode) == Failure("failed to call OpenAI API: " + reply.err)
    ensures reply.Completion? && |reply.choices| == 0 ==>
              AnalyzePod(pod, reply, decode) == Failure("no response from OpenAI API")
  {
  }

  /** A reply that does not decode gives UNKNOWN, one issue and the two fixed recommendations, never an error. */
  lemma AnalyzePodFallback(pod: Pod, reply: ChatReply, decode: Decoder)
    requires reply.Completion? && |reply.choices| > 0
    requires decode(CleanResponseContent(reply.choices[0])).Failure?
    ensures var r := AnalyzePod(pod, reply, decode);
            && r.Success?
            && r.value.securityLevel == UnknownLevel
            && |r.value.issues| == 1
            && r.value.recommendations == FallbackRecommendations
  {
  }

  /** A reply that decodes is copied field for field. */
  lemma AnalyzePodDecoded(pod: Pod, reply: ChatReply, decode: Decoder)
    requires reply.Completion? && |reply.choices| > 0
    requires decode(CleanResponseContent(reply.choices[0])).Success?
    ensures var parsed := decode(CleanResponseContent(reply.choices[0])).value;
            AnalyzePod(pod, reply, decode)
              == Success(AIAnalysis(pod.namespace, pod.name, parsed.securityLevel, parsed.issues, parsed.recommendations))
  {
  }

  /** UNKNOWN comes only from the fallback or from the model itself. */
  lemma UnknownOnlyFromFallbackOrModel(pod: Pod, reply: ChatReply, decode: Decoder)
    requires AnalyzePod(pod, reply, decode).Success?
    requires AnalyzePod(pod, reply, decode).value.securityLevel == UnknownLevel
    ensures var d := decode(CleanResponseContent(reply.choices[0]));
            d.Failure? || d.value.securityLevel == UnknownLevel
  {
  }

  /** A JSON-fenced reply whose inner text decodes to SAFE with empty lists gives exactly that analysis. */
  lemma FencedSafeReply(pod: Pod, json: string, decode: Decoder)
    requires Trimmed(json)
    requires decode(json) == Success(ParsedReply("SAFE", [], []))
    ensures AnalyzePod(pod, Completion([JsonFence + json + Fence]), decode)
              == Success(AIAnalysis(pod.namespace, pod.name, "SAFE", [], []))
  {
    CleanJsonFence(json);
  }

  // ---------------------------------------------------------------------------------------
  // The batch loop (pkg/ai_analyzer.go:186-209)
  // ---------------------------------------------------------------------------------------

  /** The outcome of every attempt, in pod order. `replies[i]` answers the call made for `pods[i]`. */
  function Outcomes(pods: seq<Pod>, replies: seq<ChatReply>, decode: Decoder): (outs: seq<Result<AIAnalysis, string>>)
    requires |replies| == |pods|
    ensures |outs| == |pods|
    ensures forall i :: 0 <= i < |pods| ==> outs[i] == AnalyzePod(pods[i], replies[i], decode)
  {
    seq(|pods|, i requires 0 <= i < |pods| => AnalyzePod(pods[i], replies[i], decode))
  }

  function SuccessFn(): Result<AIAnalysis, string> -> seq<AIAnalysis> {
    (r: Result<AIAnalysis, string>) => if r.Success? then [r.value] else []
  }

  /** The analyses of the successful outcomes, in order. */
  function Successes(outs: seq<Result<AIAnalysis, string>>): seq<AIAnalysis> {
    FlatMap(SuccessFn(), outs)
  }

  /**
   * The batch loop: analyse each pod in turn, skip the ones whose call failed, keep the others.
   * The Go function's error result is always nil.
   */
  method AnalyzePods(pods: seq<Pod>, replies: seq<ChatReply>, decode: Decoder)
    returns (analyses: seq<AIAnalysis>, err: Option<string>)
    requires |replies| == |pods|
    ensures analyses == Successes(Outcomes(pods, replies, decode))
    ensures err == None
  {
    ghost var outs := Outcomes(pods, replies, decode);
    analyses := [];
    for i := 0 to |pods|
      invariant analyses == Successes(outs[..i])
    {
      FlatMapStep(SuccessFn(), outs, i);
      var analysis := AnalyzePod(pods[i], replies[i], decode);
      if analysis.Failure? {
        continue;
      }
      analyses := analyses + [analysis.value];
    }
    assert outs[..|outs|] == outs;
    err := None;
  }

  /** The positions of the successful outcomes, in increasing order. */
  function SuccessIndices(outs: seq<Result<AIAnalysis, string>>): (idx: seq<nat>)
    ensures forall k :: 0 <= k < |idx| ==> idx[k] < |outs|
    ensures forall k, m :: 0 <= k < m < |idx| ==> idx[k] < idx[m]
    decreases |outs|
  {
    if |outs| == 0 then []
    else
      var n := |outs| - 1;
      SuccessIndices(outs[..n]) + (if outs[n].Success? then [n] else [])
  }

  /** A position is listed exactly when its attempt succeeded. */
  lemma {:induction false} SuccessIndicesMember(outs: seq<Result<AIAnalysis, string>>, i: int)
    ensures i in SuccessIndices(outs) <==> 0 <= i < |outs| && outs[i].Success?
  {
    if |outs| > 0 {
      var n := |outs| - 1;
      SuccessIndicesMember(outs[..n], i);
      if 0 <= i < n {
        assert outs[..n][i] == outs[i];
      }
    }
  }

  /**
   * The result holds the successful attempts' analyses in pod order: one per listed position,
   * each the analysis of the attempt at that position; failed attempts leave no trace.
   */
  lemma {:induction false} SuccessesAtIndices(outs: seq<Result<AIAnalysis, string>>)
    ensures var idx := SuccessIndices(outs);
            var kept := Successes(outs);
            && |kept| == |idx|
            && forall k :: 0 <= k < |idx| ==> outs[idx[k]].Success? && kept[k] == outs[idx[k]].value
  {
    if |outs| > 0 {
      var n := |outs| - 1;
      SuccessesAtIndices(outs[..n]);
      FlatMapStep(SuccessFn(), outs, n);
      assert outs[..n + 1] == outs;
      var idx0 := SuccessIndices(outs[..n]);
      assert forall k :: 0 <= k < |idx0| ==> outs[..n][idx0[k]] == outs[idx0[k]];
    }
  }

  /** There are never more results than pods. */
  lemma {:induction false} SuccessIndicesBound(outs: seq<Result<AIAnalysis, string>>)
    ensures |SuccessIndices(outs)| <= |outs|
  {
    if |outs| > 0 {
      SuccessIndicesBound(outs[..|outs| - 1]);
    }
  }

  /** Every result is the analysis of one of the pods, and names that pod. */
  lemma AnalyzePodsIdentity(pods: seq<Pod>, replies: seq<ChatReply>, decode: Decoder, a: AIAnalysis)
    requires |replies| == |pods|
    requires a in Successes(Outcomes(pods, replies, decode))
    ensures exists i :: 0 <= i < |pods| && AnalyzePod(pods[i], replies[i], decode) == Success(a)
                        && a.namespace == pods[i].namespace && a.pod == pods[i].name
  {
    var outs := Outcomes(pods, replies, decode);
    FlatMapMember(SuccessFn(), outs, a);
    var r :| r in outs && a in SuccessFn()(r);
    var i :| 0 <= i < |outs| && outs[i] == r;
    assert AnalyzePod(pods[i], replies[i], decode) == Success(a);
  }

  /** Three pods whose second call fails: the result is the first and third analyses, in that order. */
  lemma SecondCallFails(pods: seq<Pod>, replies: seq<ChatReply>, decode: Decoder)
    requires |pods| == 3 && |replies| == 3
    requires replies[1].CallError?
    requires replies[0].Completion? && |replies[0].choices| > 0
    requires replies[2].Completion? && |replies[2].choices| > 0
    ensures Successes(Outcomes(pods, replies, decode))
              == [AnalyzePod(pods[0], replies[0], decode).value, AnalyzePod(pods[2], replies[2], decode).value]
  {
    var outs := Outcomes(pods, replies, decode);
    assert outs[0].Success? && outs[1].Failure? && outs[2].Success?;
    FlatMapStep(SuccessFn(), outs, 0);
    FlatMapStep(SuccessFn(), outs, 1);
    FlatMapStep(SuccessFn(), outs, 2);
    assert outs[..0] == [] && outs[..3] == outs;
  }
}
