/** API-key loading of services/geminiService.ts: `getAPIKeys` parses the
    comma-separated key text once and caches the list; `getAI` picks a key
    by index. */
module GeminiKeys {
  import opened Wrappers
  import opened JsString
  import opened JobTypes

  /** The two build-time variables the key text can come from. */
  datatype Environment = Environment(apiKey: Option<string>, geminiApiKey: Option<string>)

  const MissingKeyMessage: string :=
    "GEMINI_API_KEY is not set. Please:\n1. Ensure .env.local file exists in the project root\n"
    + "2. Add: GEMINI_API_KEY=your_api_key_here\n3. Restart the dev server (npm run dev)\n\n"
    + "Note: The dev server must be restarted after creating or modifying .env.local"

  /** `process.env.API_KEY || process.env.GEMINI_API_KEY`. */
  function KeyText(env: Environment): Option<string> {
    if Truthy(env.apiKey) then env.apiKey else env.geminiApiKey
  }

  /** The guard of `getAPIKeys`: absent, empty, the texts "undefined" or
      "null", or nothing but white space. */
  predicate Rejected(text: Option<string>) {
    text.None? || text.value == "" || text.value == "undefined" || text.value == "null"
    || Trim(text.value) == ""
  }

  /** `split(',').map(key => key.trim()).filter(key => key.length > 0)`. */
  function ParseKeys(text: string): seq<string> {
    TrimAndDrop(Split(text, ','))
  }

  function TrimAndDrop(pieces: seq<string>): seq<string> {
    if pieces == [] then []
    else (if Trim(pieces[0]) != "" then [Trim(pieces[0])] else []) + TrimAndDrop(pieces[1..])
  }

  /** What every key handed out looks like. */
  predicate CleanKey(k: string) {
    k != "" && Unpadded(k) && ',' !in k
  }

  predicate AllClean(keys: seq<string>) {
    forall k :: 0 <= k < |keys| ==> CleanKey(keys[k])
  }

  /** No parsed key is empty, padded with white space, or holds a comma. */
  lemma ParsedKeysClean(text: string)
    ensures AllClean(ParseKeys(text))
  {
    SplitPiecesSeparatorFree(text, ',');
    TrimmedPiecesClean(Split(text, ','));
  }

  lemma {:induction false} TrimmedPiecesClean(pieces: seq<string>)
    requires forall k :: 0 <= k < |pieces| ==> ',' !in pieces[k]
    ensures AllClean(TrimAndDrop(pieces))
  {
    if pieces != [] {
      TrimmedPiecesClean(pieces[1..]);
      var t := Trim(pieces[0]);
      TrimCommaFree(pieces[0]);
      var rest := TrimAndDrop(pieces[1..]);
      if t != "" {
        assert TrimAndDrop(pieces) == [t] + rest;
        AllCleanCons(t, rest);
      } else {
        assert TrimAndDrop(pieces) == [] + rest;
        assert [] + rest == rest;
      }
    }
  }

  lemma TrimCommaFree(s: string)
    requires ',' !in s
    ensures ',' !in Trim(s)
  {
    var t := Trim(s);
    var i :| TrimmedAt(s, t, i);
    forall j | 0 <= j < |t|
      ensures t[j] != ','
    {
      assert t[j] == s[i + j];
    }
  }

  lemma AllCleanCons(k: string, rest: seq<string>)
    requires CleanKey(k) && AllClean(rest)
    ensures AllClean([k] + rest)
  {
    forall j | 0 <= j < |[k] + rest|
      ensures CleanKey(([k] + rest)[j])
    {
      if j > 0 {
        assert ([k] + rest)[j] == rest[j - 1];
      }
    }
  }

  /** Clean keys joined with commas parse back to exactly those keys. */
  lemma ParseJoinRoundTrip(keys: seq<string>)
    requires |keys| >= 1 && AllClean(keys)
    ensures ParseKeys(Join(keys, ",")) == keys
  {
    SplitJoin(keys, ',');
    CleanPiecesKept(keys);
  }

  lemma {:induction false} CleanPiecesKept(keys: seq<string>)
    requires AllClean(keys)
    ensures TrimAndDrop(keys) == keys
  {
    if keys != [] {
      assert CleanKey(keys[0]);
      UnpaddedTrimsToItself(keys[0]);
      assert AllClean(keys[1..]) by {
        forall k | 0 <= k < |keys[1..]| ensures CleanKey(keys[1..][k]) {
          assert keys[1..][k] == keys[k + 1];
        }
      }
      CleanPiecesKept(keys[1..]);
      assert TrimAndDrop(keys) == [keys[0]] + keys[1..];
      assert keys == [keys[0]] + keys[1..];
    }
  }

  /** The module-level key cache. */
  class KeyStore {
    var apiKeys: seq<string>

    ghost predicate Valid()
      reads this
    {
      AllClean(apiKeys)
    }

    constructor ()
      ensures Valid() && apiKeys == []
    {
      apiKeys := [];
    }

    /** Parses the key text on first use, and again on every call while the
        parsed list is empty; afterwards returns the cached list. */
    method GetAPIKeys(env: Environment) returns (r: Result<seq<string>>)
      requires Valid()
      modifies this
      ensures Valid()
      ensures old(apiKeys) != [] ==> apiKeys == old(apiKeys) && r == Ok(apiKeys)
      ensures old(apiKeys) == [] && Rejected(KeyText(env)) ==>
        apiKeys == [] && r == Err(MissingKeyMessage)
      ensures old(apiKeys) == [] && !Rejected(KeyText(env)) ==>
        apiKeys == ParseKeys(KeyText(env).value) && r == Ok(apiKeys)
    {
      if |apiKeys| == 0 {
        var text := KeyText(env);
        if text.None? || text.value == "" || text.value == "undefined" || text.value == "null"
           || Trim(text.value) == "" {
          return Err(MissingKeyMessage);
        }
        apiKeys := ParseKeys(text.value);
        ParsedKeysClean(text.value);
      }
      return Ok(apiKeys);
    }

    /** The key `getAI(keyIndex)` would build its client with. */
    method GetAI(env: Environment, keyIndex: nat) returns (r: Result<string>)
      requires Valid()
      modifies this
      ensures Valid()
      ensures old(apiKeys) == [] && Rejected(KeyText(env)) ==> apiKeys == [] && r == Err(MissingKeyMessage)
      ensures old(apiKeys) != [] || !Rejected(KeyText(env)) ==>
        apiKeys == (if old(apiKeys) != [] then old(apiKeys) else ParseKeys(KeyText(env).value))
        && r == (if keyIndex < |apiKeys| then Ok(apiKeys[keyIndex])
                 else Err("All API keys exhausted. Tried " + NatToString(|apiKeys|) + " key(s)."))
      ensures r.Ok? ==> CleanKey(r.value)
    {
      var keys := GetAPIKeys(env);
      if keys.Err? {
        return Err(keys.message);
      }
      if keyIndex >= |keys.value| {
        return Err("All API keys exhausted. Tried " + NatToString(|keys.value|) + " key(s).");
      }
      return Ok(keys.value[keyIndex]);
    }
  }
}
