/**
 The completion client (app/services/groq_service.py): how a prompt becomes the chat request sent
 to the backend, how a backend failure is classified, and how a JSON body is cut out of the text
 the model answers with. The backend call and `json.loads` are parameters of the model.
 */
module Completion {
  import opened Optional
  import opened Text
  import opened JsonValue
  import opened Errors

  datatype Role = System | User

  datatype Message = Message(role: Role, content: string)

  /** A sampling temperature in tenths (0.7 is `Tenths(7)`); it is passed through unchanged. */
  datatype Temperature = Tenths(tenths: nat)

  /** The request handed to the backend. `jsonObjectFormat` is `response_format={"type": "json_object"}`. */
  datatype ChatRequest = ChatRequest(messages: seq<Message>, temperature: Temperature, jsonObjectFormat: bool)

  /** What the backend call does: answer with text, or raise an exception with a message. */
  datatype Reply = Content(text: string) | Raised(message: string)

  /** What `json.loads` does: return a value, or raise `JSONDecodeError` with a message. */
  datatype Parsed = Parsed(value: Json) | DecodeError(message: string)

  const JsonInstruction := "\n\nIMPORTANT: You must respond with valid JSON only, no markdown, no code blocks, just raw JSON."

  /** `system_prompt or ""`. */
  function SystemText(systemPrompt: Option<string>): string {
    systemPrompt.GetOr("")
  }

  // ---------------------------------------------------------------------------
  // Message assembly

  /** The message list of `generate_completion`. In JSON mode the instruction goes to the system
      content when there is one and to the user content otherwise; a system message is sent only
      when its content is non-empty; the user message comes last. */
  function BuildMessages(prompt: string, systemPrompt: Option<string>, jsonMode: bool): (r: seq<Message>)
    ensures 1 <= |r| <= 2 && r[|r| - 1].role == User
    ensures |r| == 2 <==> SystemText(systemPrompt) != ""
    ensures |r| == 2 ==> r[0].role == System
    ensures jsonMode && SystemText(systemPrompt) != "" ==>
              r == [Message(System, SystemText(systemPrompt) + JsonInstruction), Message(User, prompt)]
    ensures jsonMode && SystemText(systemPrompt) == "" ==> r == [Message(User, prompt + JsonInstruction)]
    ensures !jsonMode ==> r[|r| - 1].content == prompt && (|r| == 2 ==> r[0].content == SystemText(systemPrompt))
  {
    var system := SystemText(systemPrompt);
    var systemContent := if jsonMode && system != "" then system + JsonInstruction else system;
    var userContent := if jsonMode && system == "" then prompt + JsonInstruction else prompt;
    (if systemContent != "" then [Message(System, systemContent)] else []) + [Message(User, userContent)]
  }

  /** `s` without its last `n` characters (all of `s` when it is shorter). */
  function DropLast(s: string, n: nat): string {
    if n <= |s| then s[..|s| - n] else s
  }

  /** Reads the prompt and the system text back out of a message list. */
  function RecoverInputs(messages: seq<Message>, jsonMode: bool): (string, string) {
    var cut := if jsonMode then |JsonInstruction| else 0;
    if |messages| == 2 then (messages[1].content, DropLast(messages[0].content, cut))
    else if |messages| == 1 then (DropLast(messages[0].content, cut), "")
    else ("", "")
  }

  /** Message assembly loses nothing: the prompt and the system text can be read back, so two
      different inputs never produce the same request. */
  lemma BuildMessagesLossless(prompt: string, systemPrompt: Option<string>, jsonMode: bool)
    ensures RecoverInputs(BuildMessages(prompt, systemPrompt, jsonMode), jsonMode) == (prompt, SystemText(systemPrompt))
  {
    var system := SystemText(systemPrompt);
    if jsonMode {
      assert (system + JsonInstruction)[..|system|] == system;
      assert (prompt + JsonInstruction)[..|prompt|] == prompt;
    } else {
      assert system[..|system|] == system;
      assert prompt[..|prompt|] == prompt;
    }
  }

  /** The request `generate_completion` sends: the response format is requested exactly in JSON mode. */
  function BuildRequest(prompt: string, systemPrompt: Option<string>, temperature: Temperature, jsonMode: bool): (r: ChatRequest)
    ensures r.jsonObjectFormat == jsonMode && r.temperature == temperature
    ensures r.messages == BuildMessages(prompt, systemPrompt, jsonMode)
  {
    ChatRequest(BuildMessages(prompt, systemPrompt, jsonMode), temperature, jsonMode)
  }

  // ---------------------------------------------------------------------------
  // Failure classification

  const GroqApiPrefix := "Groq API Error: "
  const UnexpectedPrefix := "Unexpected error: "

  predicate MentionsRateLimit(message: string) {
    Contains(Lower(message), "rate limit") || Contains(message, "429")
  }

  predicate MentionsApi(message: string) {
    Contains(Lower(message), "api") || Contains(message, "401") || Contains(message, "403")
  }

  /** The `except` clause of `generate_completion`: the rate-limit test runs first, then the API
      test; every failure is re-raised as one of the two service errors. */
  function ClassifyFailure(message: string): (e: Error)
    ensures e.RateLimited? <==> MentionsRateLimit(message)
    ensures e.RateLimited? ==> e == RateLimitError()
    ensures !e.RateLimited? ==> e.UpstreamFailure?
    ensures !MentionsRateLimit(message) && MentionsApi(message) ==> e == ClaudeApiError(GroqApiPrefix + message)
    ensures !MentionsRateLimit(message) && !MentionsApi(message) ==> e == ClaudeApiError(UnexpectedPrefix + message)
    ensures StatusCode(e) == 429 || StatusCode(e) == 502
  {
    if MentionsRateLimit(message) then RateLimitError()
    else if MentionsApi(message) then ClaudeApiError(GroqApiPrefix + message)
    else ClaudeApiError(UnexpectedPrefix + message)
  }

  /** "429" anywhere in the message makes it a rate-limit error, whatever else it says. */
  lemma StatusCodeMeansRateLimit(before: string, after: string)
    ensures ClassifyFailure(before + "429" + after) == RateLimitError()
  {
    ContainsInfix(before, "429", after);
  }

  /** "rate limit" in any letter case makes it a rate-limit error, whatever else it says. */
  lemma AnyCaseRateLimit(before: string, phrase: string, after: string)
    requires Lower(phrase) == "rate limit"
    ensures ClassifyFailure(before + phrase + after) == RateLimitError()
  {
    LowerConcat(before + phrase, after);
    LowerConcat(before, phrase);
    ContainsInfix(Lower(before), "rate limit", Lower(after));
  }

  /** An authentication failure that does not mention rate limits surfaces as
      "Claude API Error: Groq API Error: ..." with status 502. */
  lemma AuthFailureDetail(before: string, after: string)
    requires !MentionsRateLimit(before + "401" + after)
    ensures var e := ClassifyFailure(before + "401" + after);
            e.detail == ClaudePrefix + GroqApiPrefix + (before + "401" + after) && StatusCode(e) == 502
  {
    ContainsInfix(before, "401", after);
  }

  /** `generate_completion`: the backend's text, or its failure classified. No failure is swallowed. */
  function GenerateCompletion(backend: ChatRequest -> Reply, prompt: string, systemPrompt: Option<string>,
                              temperature: Temperature, jsonMode: bool): (r: Result<string>)
    ensures var reply := backend(BuildRequest(prompt, systemPrompt, temperature, jsonMode));
            && (r.Ok? <==> reply.Content?)
            && (r.Ok? ==> r.value == reply.text)
            && (r.Err? ==> r.error == ClassifyFailure(reply.message))
  {
    match backend(BuildRequest(prompt, systemPrompt, temperature, jsonMode))
    case Content(text) => Ok(text)
    case Raised(message) => Err(ClassifyFailure(message))
  }

  // ---------------------------------------------------------------------------
  // JSON extraction

  const Fence := "```"
  const JsonFence := "```json"

  /** The text between the first `marker` and the next fence after it, stripped. With no closing
      fence `find` returns -1, which as a slice bound means "up to the last character". */
  function FencedBody(response: string, marker: string): string
    requires Contains(response, marker)
  {
    Strip(FencedSlice(response, marker))
  }

  /** The raw text between the marker and the next fence, before stripping. */
  function FencedSlice(response: string, marker: string): string
    requires Contains(response, marker)
  {
    var start := Find(response, marker, 0) + |marker|;
    var stop := Find(response, Fence, start);
    PySlice(response, start, stop)
  }

  /** The JSON text `generate_json_completion` hands to `json.loads`. */
  function ExtractJsonBody(response: string): (r: string)
    ensures Trimmed(r)
  {
    if Contains(response, JsonFence) then FencedBody(response, JsonFence)
    else if Contains(response, Fence) then FencedBody(response, Fence)
    else Strip(response)
  }

  /** Text before a fence that contains no backtick cannot hide an earlier fence. */
  lemma NoOccurrenceInPlain(s: string, pat: string, from: nat, to: nat)
    requires |pat| >= 1 && pat[0] == '`'
    requires from <= to <= |s|
    requires forall i :: from <= i < to ==> s[i] != '`'
    ensures forall i :: from <= i < to ==> !OccursAt(s, pat, i)
  {
  }

  /** A fence marker preceded by plain text and followed by a body and a closing fence: the
      marker is found and the text it fences is exactly the body. */
  lemma FencedBodyFound(pre: string, marker: string, body: string, post: string)
    requires |marker| >= 1 && marker[0] == '`'
    requires '`' !in pre && '`' !in body
    ensures Contains(pre + marker + body + Fence + post, marker)
    ensures FencedSlice(pre + marker + body + Fence + post, marker) == body
  {
    var s := pre + marker + body + Fence + post;
    var start := |pre| + |marker|;
    var stop := start + |body|;
    FenceLayout(pre, marker, body, post);
    FindAfterPlain(s, marker, 0, |pre|);
    FindAfterPlain(s, Fence, start, stop);
    FencedSliceAt(s, marker, |pre|, stop);
  }

  /** Where the pieces of `pre + marker + body + Fence + post` sit. */
  lemma FenceLayout(pre: string, marker: string, body: string, post: string)
    requires '`' !in pre && '`' !in body
    ensures var s := pre + marker + body + Fence + post;
            var start := |pre| + |marker|;
            var stop := start + |body|;
            && |s| == stop + |Fence| + |post|
            && OccursAt(s, marker, |pre|)
            && OccursAt(s, Fence, stop)
            && s[start..stop] == body
            && (forall i :: 0 <= i < |pre| ==> s[i] != '`')
            && (forall i :: start <= i < stop ==> s[i] != '`')
  {
    var s := pre + marker + body + Fence + post;
    var start := |pre| + |marker|;
    var stop := start + |body|;
    assert s[|pre|..start] == marker;
    assert s[stop..stop + |Fence|] == Fence;
    assert s[start..stop] == body;
    assert forall i :: 0 <= i < |pre| ==> s[i] == pre[i];
    assert forall i :: start <= i < stop ==> s[i] == body[i - start];
  }

  /** `find` from `from` meets a backtick-led pattern first at `k` when no backtick comes before. */
  lemma FindAfterPlain(s: string, pat: string, from: nat, k: nat)
    requires |pat| >= 1 && pat[0] == '`'
    requires from <= k && OccursAt(s, pat, k)
    requires forall i :: from <= i < k ==> s[i] != '`'
    ensures Find(s, pat, from) == k
  {
    NoOccurrenceInPlain(s, pat, from, k);
    FindFirst(s, pat, from, k);
  }

  /** The fenced body once both fences are located. */
  lemma FencedSliceAt(s: string, marker: string, i: nat, j: nat)
    requires Find(s, marker, 0) == i && i + |marker| <= j <= |s|
    requires Find(s, Fence, i + |marker|) == j
    ensures Contains(s, marker)
    ensures FencedSlice(s, marker) == s[i + |marker|..j]
  {
    assert Contains(s, marker);
    var start := Find(s, marker, 0) + |marker|;
    var stop := Find(s, Fence, start);
    SliceWithin(s, start, stop);
  }

  lemma SliceWithin<T>(s: seq<T>, a: nat, b: nat)
    requires a <= b <= |s|
    ensures PySlice(s, a, b) == s[a..b]
  {
  }

  /** A ```json fence: the stripped text up to the closing fence. */
  lemma JsonFenceExtracted(pre: string, body: string, post: string)
    requires '`' !in pre && '`' !in body
    ensures ExtractJsonBody(pre + JsonFence + body + Fence + post) == Strip(body)
  {
    FencedBodyFound(pre, JsonFence, body, post);
  }

  /** A bare ``` fence, when no ```json appears anywhere: the stripped text up to the closing fence. */
  lemma BareFenceExtracted(pre: string, body: string, post: string)
    requires '`' !in pre && '`' !in body
    requires !Contains(pre + Fence + body + Fence + post, JsonFence)
    ensures ExtractJsonBody(pre + Fence + body + Fence + post) == Strip(body)
  {
    FencedBodyFound(pre, Fence, body, post);
  }

  /** An opening ```json without a closing fence: `find` returns -1 and the slice stops one
      character short, so the last character of the answer is lost. */
  lemma UnterminatedFenceDropsLastChar(pre: string, body: string)
    requires '`' !in pre && '`' !in body && |body| >= 1
    ensures ExtractJsonBody(pre + JsonFence + body) == Strip(body[..|body| - 1])
  {
    var s := pre + JsonFence + body;
    var start := |pre| + |JsonFence|;
    assert s[|pre|..start] == JsonFence;
    NoOccurrenceInPlain(s, JsonFence, 0, |pre|);
    FindFirst(s, JsonFence, 0, |pre|);
    NoOccurrenceInPlain(s, Fence, start, |s|);
    assert Find(s, Fence, start) == -1;
    assert s[start..|s| - 1] == body[..|body| - 1];
  }

  /** Text without any fence is only stripped. */
  lemma UnfencedStripped(response: string)
    requires !Contains(response, Fence)
    ensures ExtractJsonBody(response) == Strip(response)
  {
    if Contains(response, JsonFence) {
      var i := Find(response, JsonFence, 0);
      assert response[i..i + 3] == response[i..i + 7][..3];
      assert OccursAt(response, Fence, i);
    }
  }

  /** `generate_json_completion`: always a JSON-mode request; the extracted body is parsed, and a
      decode failure becomes an upstream error. */
  function GenerateJsonCompletion(backend: ChatRequest -> Reply, parse: string -> Parsed, prompt: string,
                                  systemPrompt: Option<string>, temperature: Temperature): (r: Result<Json>)
    ensures var reply := backend(BuildRequest(prompt, systemPrompt, temperature, true));
            && (reply.Raised? ==> r == Err(ClassifyFailure(reply.message)))
            && (reply.Content? ==>
                  var parsed := parse(ExtractJsonBody(reply.text));
                  && (r.Ok? <==> parsed.Parsed?)
                  && (r.Ok? ==> r.value == parsed.value)
                  && (r.Err? ==> r.error == ClaudeApiError("Failed to parse JSON response: " + parsed.message)))
  {
    var text :- GenerateCompletion(backend, prompt, systemPrompt, temperature, true);
    match parse(ExtractJsonBody(text))
    case Parsed(value) => Ok(value)
    case DecodeError(message) => Err(ClaudeApiError("Failed to parse JSON response: " + message))
  }
}
