/** The two send workers classify provider errors by searching a lower-cased
    error text for fixed patterns. */
module ErrorPatterns {

  const CHANNEL_PATTERNS: seq<string> :=
    ["invalid_phone", "recipient_not_found", "blocked", "banned", "media_too_large",
     "unsupported_message_type", "account_suspended", "EAUTH", "EENVELOPE"]

  const WHATSAPP_PATTERNS: seq<string> :=
    ["invalid phone number", "number not on whatsapp", "media too large", "unsupported media type",
     "blocked by user", "account banned", "invalid session"]

  function LowerChar(c: char): char {
    if 'A' <= c <= 'Z' then c - 'A' + 'a' else c
  }

  function ToLower(s: string): (r: string)
    ensures |r| == |s|
    ensures forall i :: 0 <= i < |r| ==> r[i] == LowerChar(s[i])
    ensures forall i :: 0 <= i < |r| && 'A' <= s[i] <= 'Z' ==> r[i] as int == s[i] as int + 32
    ensures forall i :: 0 <= i < |r| && !('A' <= s[i] <= 'Z') ==> r[i] == s[i]
  {
    if s == [] then [] else [LowerChar(s[0])] + ToLower(s[1..])
  }

  predicate OccursAt(text: string, pattern: string, i: nat) {
    i + |pattern| <= |text| && text[i..i + |pattern|] == pattern
  }

  predicate Contains(text: string, pattern: string) {
    exists i :: 0 <= i <= |text| && OccursAt(text, pattern, i)
  }

  /** `patterns.some((p) => error.toLowerCase().includes(p))` */
  predicate MatchesAny(error: string, patterns: seq<string>) {
    exists k :: 0 <= k < |patterns| && Contains(ToLower(error), patterns[k])
  }

  predicate IsRetryable(error: string) {
    !MatchesAny(error, WHATSAPP_PATTERNS)
  }

  lemma LoweredHasNoCapital(error: string, pattern: string, k: nat)
    requires k < |pattern| && 'A' <= pattern[k] <= 'Z'
    ensures !Contains(ToLower(error), pattern)
  {
    var text := ToLower(error);
    forall i | 0 <= i <= |text|
      ensures !OccursAt(text, pattern, i)
    {
      if i + |pattern| <= |text| {
        assert text[i..i + |pattern|][k] == text[i + k] == LowerChar(error[i + k]);
      }
    }
  }

  /** The two SMTP codes in the channel worker's list are written in capitals but
      searched for in lower-cased text: they never match, and the list is worth
      exactly its seven lower-case entries. */
  lemma CapitalPatternsAreDead(error: string)
    ensures !Contains(ToLower(error), "EAUTH") && !Contains(ToLower(error), "EENVELOPE")
    ensures MatchesAny(error, CHANNEL_PATTERNS) <==> MatchesAny(error, CHANNEL_PATTERNS[..7])
  {
    LoweredHasNoCapital(error, "EAUTH", 0);
    LoweredHasNoCapital(error, "EENVELOPE", 0);
    if MatchesAny(error, CHANNEL_PATTERNS) {
      var k :| 0 <= k < |CHANNEL_PATTERNS| && Contains(ToLower(error), CHANNEL_PATTERNS[k]);
      assert CHANNEL_PATTERNS[7] == "EAUTH" && CHANNEL_PATTERNS[8] == "EENVELOPE";
      assert CHANNEL_PATTERNS[..7][k] == CHANNEL_PATTERNS[k];
    }
    if MatchesAny(error, CHANNEL_PATTERNS[..7]) {
      var k :| 0 <= k < 7 && Contains(ToLower(error), CHANNEL_PATTERNS[..7][k]);
      assert Contains(ToLower(error), CHANNEL_PATTERNS[k]);
    }
  }

  lemma ToLowerConcat(a: string, b: string)
    ensures ToLower(a + b) == ToLower(a) + ToLower(b)
  {
  }

  lemma ContainsInContext(before: string, text: string, after: string, pattern: string)
    requires Contains(text, pattern)
    ensures Contains(before + text + after, pattern)
  {
    var i :| 0 <= i <= |text| && OccursAt(text, pattern, i);
    var whole := before + text + after;
    var j := |before| + i;
    assert whole[j..j + |pattern|] == text[i..i + |pattern|];
    assert OccursAt(whole, pattern, j);
  }

  /** A permanent error stays permanent whatever its capitalisation and whatever
      text an adapter wraps around it. */
  lemma PermanentErrorInAnyWrapping(before: string, error: string, after: string)
    requires !IsRetryable(error)
    ensures !IsRetryable(before + error + after)
    ensures forall other: string :: ToLower(other) == ToLower(error) ==> !IsRetryable(other)
  {
    var k :| 0 <= k < |WHATSAPP_PATTERNS| && Contains(ToLower(error), WHATSAPP_PATTERNS[k]);
    ToLowerConcat(before, error);
    ToLowerConcat(before + error, after);
    ContainsInContext(ToLower(before), ToLower(error), ToLower(after), WHATSAPP_PATTERNS[k]);
  }

  // ----- what the two lists stand for -----

  /** The lowered error has this text in it. */
  ghost predicate Says(error: string, text: string) {
    exists before: string, after: string :: ToLower(error) == before + text + after
  }

  lemma OccursInTheMiddle(before: string, text: string, after: string)
    ensures OccursAt(before + text + after, text, |before|)
  {
    var whole := before + text + after;
    assert whole[|before|..|before| + |text|] == text;
  }

  lemma SaysIff(error: string, text: string)
    ensures Says(error, text) <==> Contains(ToLower(error), text)
  {
    hide ToLower;
    var lowered := ToLower(error);
    if before: string, after: string :| lowered == before + text + after {
      OccursInTheMiddle(before, text, after);
    }
    if i :| 0 <= i <= |lowered| && OccursAt(lowered, text, i) {
      assert lowered == lowered[..i] + text + lowered[i + |text|..];
    }
  }

  /** The channel worker takes exactly these errors for permanent. */
  ghost predicate PermanentOnChannel(error: string) {
    || Says(error, "invalid_phone") || Says(error, "recipient_not_found") || Says(error, "blocked")
    || Says(error, "banned") || Says(error, "media_too_large") || Says(error, "unsupported_message_type")
    || Says(error, "account_suspended")
  }

  lemma ChannelPatternsIff(error: string)
    ensures MatchesAny(error, CHANNEL_PATTERNS) <==> PermanentOnChannel(error)
  {
    var ps := CHANNEL_PATTERNS;
    CapitalPatternsAreDead(error);
    forall k | 0 <= k < 7
      ensures Says(error, ps[k]) <==> Contains(ToLower(error), ps[k])
    {
      SaysIff(error, ps[k]);
    }
    assert ps[0] == "invalid_phone" && ps[1] == "recipient_not_found" && ps[2] == "blocked" && ps[3] == "banned";
    assert ps[4] == "media_too_large" && ps[5] == "unsupported_message_type" && ps[6] == "account_suspended";
    if MatchesAny(error, ps) {
      var k :| 0 <= k < 7 && Contains(ToLower(error), ps[..7][k]);
      assert Says(error, ps[k]);
    }
  }

  /** The WhatsApp worker takes exactly these errors for permanent. */
  ghost predicate PermanentOnWhatsApp(error: string) {
    || Says(error, "invalid phone number") || Says(error, "number not on whatsapp") || Says(error, "media too large")
    || Says(error, "unsupported media type") || Says(error, "blocked by user") || Says(error, "account banned")
    || Says(error, "invalid session")
  }

  lemma IsRetryableIff(error: string)
    ensures IsRetryable(error) <==> !PermanentOnWhatsApp(error)
  {
    var ps := WHATSAPP_PATTERNS;
    forall k | 0 <= k < 7
      ensures Says(error, ps[k]) <==> Contains(ToLower(error), ps[k])
    {
      SaysIff(error, ps[k]);
    }
    assert ps[0] == "invalid phone number" && ps[1] == "number not on whatsapp" && ps[2] == "media too large";
    assert ps[3] == "unsupported media type" && ps[4] == "blocked by user" && ps[5] == "account banned";
    assert ps[6] == "invalid session";
    if MatchesAny(error, ps) {
      var k :| 0 <= k < |ps| && Contains(ToLower(error), ps[k]);
      assert Says(error, ps[k]);
    }
  }
}
