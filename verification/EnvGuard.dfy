/**
 The policy on forwarded environment variables: which keys are reserved for providers and
 how large a value may be.
 */
module EnvGuard {
  import opened Utf8

  const BLOCKED_PREFIXES: seq<string> := ["CLAUDE", "CODEX_", "__MISE_"]

  const BLOCKED_PREFIX_ALLOWLIST: seq<string> := [
    "CLAUDE_CODE_USE_BEDROCK", "CLAUDE_CODE_USE_VERTEX", "CLAUDE_CODE_USE_FOUNDRY",
    "CLAUDE_CODE_SKIP_BEDROCK_AUTH", "CLAUDE_CODE_SKIP_VERTEX_AUTH", "CLAUDE_CODE_SKIP_FOUNDRY_AUTH"
  ]

  const MAX_ENV_VALUE_BYTES := 2048

  datatype EnvDecision = Keep | DropBlocked(key: string) | DropOversized(key: string, byteLen: nat)

  predicate HasBlockedPrefix(key: string) {
    exists prefix <- BLOCKED_PREFIXES :: prefix <= key
  }

  /** The allowlist is tested before the prefixes. */
  predicate IsBlocked(key: string) {
    if key in BLOCKED_PREFIX_ALLOWLIST then false else HasBlockedPrefix(key)
  }

  /** The length of a value in UTF-8. */
  function ByteLen(s: string): nat {
    |Encode(s)|
  }

  function Decide(key: string, value: string): EnvDecision {
    if IsBlocked(key) then DropBlocked(key)
    else if ByteLen(value) >= MAX_ENV_VALUE_BYTES then DropOversized(key, ByteLen(value))
    else Keep
  }

  predicate Kept(key: string, value: string) {
    Decide(key, value) == Keep
  }

  /**
   The order of the two tests is what keeps the six authentication keys: each of them
   starts with a blocked prefix, and each is kept with every value below the cap.
   */
  lemma AllowlistBeatsPrefix(key: string, value: string)
    requires key in BLOCKED_PREFIX_ALLOWLIST
    ensures HasBlockedPrefix(key)
    ensures Kept(key, value) <==> ByteLen(value) < MAX_ENV_VALUE_BYTES
  {
    assert BLOCKED_PREFIXES[0] == "CLAUDE" && "CLAUDE" in BLOCKED_PREFIXES;
    var i :| 0 <= i < |BLOCKED_PREFIX_ALLOWLIST| && key == BLOCKED_PREFIX_ALLOWLIST[i];
    StartsWithClaude(i);
  }

  lemma StartsWithClaude(i: nat)
    requires i < |BLOCKED_PREFIX_ALLOWLIST|
    ensures "CLAUDE" <= BLOCKED_PREFIX_ALLOWLIST[i]
  {
  }

  /**
   The cap is on bytes of the value, not on its characters: an unblocked key is kept with any
   value of at most 511 characters and with none of 2048 or more.
   */
  lemma KeptByLength(key: string, value: string)
    requires !IsBlocked(key)
    ensures |value| <= 511 ==> Kept(key, value)
    ensures Kept(key, value) ==> |value| < MAX_ENV_VALUE_BYTES
  {
    EncodedLength(value);
  }
}
