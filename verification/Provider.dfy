/** internal/provider/adapter.go: what an upstream error status means for the key and the model. */
module Provider {
  import opened Prelude
  import opened Text

  datatype Action = Terminal | DisableKey | RetryKey | FallbackModel | SkipModel
  datatype Decision = Decision(action: Action, retryAfter: Duration, reason: string, cooldownCredential: bool)

  function Kind(configured: string): string {
    var kind := Lower(TrimSpace(configured));
    if kind == "" then "openai" else kind
  }

  predicate MentionsContextLimit(body: string) {
    var lower := Lower(body);
    Contains(lower, "context length") || Contains(lower, "too many tokens") || Contains(lower, "maximum context")
  }

  /** The decision table. retryAfter is the response's Retry-After as a duration, zero when absent. */
  function Classify(kind: string, status: int, body: string, retryAfter: Duration): Decision {
    match status
    case 401 => Decision(DisableKey, retryAfter, "unauthorized", false)
    case 403 =>
      if kind == "nvidia" then Decision(FallbackModel, retryAfter, "nvidia authorization or entitlement", false)
      else Decision(Terminal, retryAfter, "forbidden", false)
    case 402 => Decision(Terminal, 0, "billing required", false)
    case 429 => Decision(FallbackModel, retryAfter, "rate limited", true)
    case 502 => Decision(FallbackModel, retryAfter, "provider capacity", false)
    case 503 => Decision(FallbackModel, retryAfter, "provider capacity", false)
    case 529 => Decision(FallbackModel, retryAfter, "provider capacity", false)
    case 400 =>
      if MentionsContextLimit(body) then Decision(SkipModel, 0, "context length", false)
      else Decision(Terminal, 0, "bad request", false)
    case 404 =>
      if kind == "nvidia" then Decision(FallbackModel, 0, "nvidia model or entitlement unavailable", false)
      else Decision(Terminal, 0, "not found", false)
    case _ =>
      if status >= 500 then Decision(RetryKey, retryAfter, "provider server error", false)
      else Decision(Terminal, 0, "", false)
  }

  predicate ServerError(status: int) {
    status >= 500 && status != 502 && status != 503 && status != 529
  }

  predicate CapacityError(kind: string, status: int) {
    status in [429, 502, 503, 529] || (kind == "nvidia" && status in [403, 404])
  }

  /** Credential facts and model facts are kept apart: the key is disabled by 401 only and cooled by
      429 or a retried server error only; the model is blamed for capacity errors only, and never
      together with a disabled key. */
  lemma FactsAreSeparate(kind: string, status: int, body: string, retryAfter: Duration)
    ensures var d := Classify(kind, status, body, retryAfter);
      && (d.action == DisableKey <==> status == 401)
      && (d.action == RetryKey <==> ServerError(status))
      && (d.action == FallbackModel <==> CapacityError(kind, status))
      && (d.action == SkipModel <==> status == 400 && MentionsContextLimit(body))
      && (d.cooldownCredential <==> status == 429)
      && (d.cooldownCredential ==> d.action == FallbackModel)
  {
  }

  /** The delay upstream asked for is taken over for the statuses that carry one, and dropped for the rest; and
      each status has its own reason. */
  lemma DelaysAndReasons(kind: string, status: int, body: string, retryAfter: Duration)
    ensures var d := Classify(kind, status, body, retryAfter);
      && d.retryAfter == (if status in {401, 403, 429} || status >= 500 then retryAfter else 0)
      && (d.reason == "unauthorized" <==> status == 401)
      && (d.reason == "nvidia authorization or entitlement" <==> status == 403 && kind == "nvidia")
      && (d.reason == "forbidden" <==> status == 403 && kind != "nvidia")
      && (d.reason == "billing required" <==> status == 402)
      && (d.reason == "rate limited" <==> status == 429)
      && (d.reason == "provider capacity" <==> status in {502, 503, 529})
  {
  }

  lemma OtherReasons(kind: string, status: int, body: string, retryAfter: Duration)
    ensures var d := Classify(kind, status, body, retryAfter);
      && (d.reason == "context length" <==> status == 400 && MentionsContextLimit(body))
      && (d.reason == "bad request" <==> status == 400 && !MentionsContextLimit(body))
      && (d.reason == "nvidia model or entitlement unavailable" <==> status == 404 && kind == "nvidia")
      && (d.reason == "not found" <==> status == 404 && kind != "nvidia")
      && (d.reason == "provider server error" <==> status >= 500 && status !in {502, 503, 529})
      && (d.reason == "" <==> status !in {400, 401, 402, 403, 404, 429} && status < 500)
  {
  }

  // part stands in s at i, whatever the case of its letters in s.
  ghost predicate StandsAt(s: string, part: string, i: nat) {
    i + |part| <= |s| && forall k :: 0 <= k < |part| ==> SameLetter(s[i + k], part[k])
  }

  // c is the small letter, or other character, `small`, or its capital.
  predicate SameLetter(c: char, small: char) {
    if 'A' <= c <= 'Z' then small as int == c as int + 32 else small == c
  }

  lemma ContainsStands(s: string, part: string)
    ensures Contains(Lower(s), part) <==> exists i: nat :: StandsAt(s, part, i)
  {
    var lower := Lower(s);
    if Contains(lower, part) {
      var i: nat :| i <= |lower| && OccursAt(lower, part, i);
      forall k | 0 <= k < |part| ensures SameLetter(s[i + k], part[k]) {
        assert lower[i..i + |part|][k] == lower[i + k];
      }
      assert StandsAt(s, part, i);
    }
    if i: nat :| StandsAt(s, part, i) {
      assert lower[i..i + |part|] == part;
      assert OccursAt(lower, part, i);
    }
  }

  /** A bad request is about the context limit when its body speaks of one, in capitals or not. */
  lemma ContextLimitIsMentioned(body: string)
    ensures MentionsContextLimit(body) <==>
      exists i: nat :: StandsAt(body, "context length", i) || StandsAt(body, "too many tokens", i)
        || StandsAt(body, "maximum context", i)
  {
    ContainsStands(body, "context length");
    ContainsStands(body, "too many tokens");
    ContainsStands(body, "maximum context");
  }

  /** The configured kinds stand for themselves, and no kind for "openai". */
  lemma KindsStandForThemselves()
    ensures Kind("openai") == "openai" && Kind("nvidia") == "nvidia" && Kind("") == "openai"
  {
    KindStays("openai");
    KindStays("nvidia");
  }

  lemma OtherKindsStandForThemselves()
    ensures Kind("openrouter") == "openrouter" && Kind("groq") == "groq" && Kind("together") == "together"
  {
    KindStays("openrouter");
    KindStays("groq");
    KindStays("together");
  }

  lemma KindStays(kind: string)
    requires kind != "" && forall i :: 0 <= i < |kind| ==> 'a' <= kind[i] <= 'z'
    ensures Kind(kind) == kind
  {
    assert TrimSpace(kind) == kind;
    assert Lower(kind) == kind;
  }
}
