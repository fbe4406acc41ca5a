/** The API-key check: the list of valid keys parsed from the `VALID_API_KEYS`
    environment variable, its fallback, and the membership test applied to the
    `X-API-KEY` header of every request. */
module Auth {
  import opened Common

  const FALLBACK_API_KEY := "fallback_dummy_token_for_dev_only"
  const INVALID_CREDENTIALS := "Could not validate credentials"

  /** Python's `str.isspace`, the separators of an argument-less `str.split()`. */
  predicate IsWhitespace(c: char) {
    || '\U{9}' <= c <= '\U{D}'
    || '\U{1C}' <= c <= ' '
    || c == '\U{85}' || c == '\U{A0}' || c == '\U{1680}'
    || '\U{2000}' <= c <= '\U{200A}'
    || c == '\U{2028}' || c == '\U{2029}' || c == '\U{202F}' || c == '\U{205F}' || c == '\U{3000}'
  }

  /** The characters that end a key in `VALID_API_KEYS`: a comma or whitespace. */
  predicate IsSeparator(c: char) {
    c == ',' || IsWhitespace(c)
  }

  predicate NoWhitespace(s: string) {
    forall i :: 0 <= i < |s| ==> !IsWhitespace(s[i])
  }

  predicate NoSeparator(s: string) {
    forall i :: 0 <= i < |s| ==> !IsSeparator(s[i])
  }

  /** A key that `ParseApiKeys` can produce: non-empty, without comma or whitespace. */
  predicate WellFormedKey(k: string) {
    k != [] && NoSeparator(k)
  }

  /** `s.replace(",", " ")` */
  function ReplaceCommas(s: string): (r: string)
    ensures |r| == |s|
    ensures forall i :: 0 <= i < |s| ==> r[i] == if s[i] == ',' then ' ' else s[i]
  {
    if s == [] then [] else [if s[0] == ',' then ' ' else s[0]] + ReplaceCommas(s[1..])
  }

  /** The longest prefix of `s` without whitespace. */
  function Word(s: string): (w: string)
    ensures |w| <= |s| && w == s[..|w|]
    ensures NoWhitespace(w)
    ensures |w| < |s| ==> IsWhitespace(s[|w|])
  {
    if s == [] || IsWhitespace(s[0]) then [] else [s[0]] + Word(s[1..])
  }

  /** `s.split()`: the maximal runs of non-whitespace characters, in order. */
  function Split(s: string): (r: seq<string>)
    ensures forall k :: 0 <= k < |r| ==> r[k] != [] && NoWhitespace(r[k])
    decreases |s|
  {
    if s == [] then []
    else if IsWhitespace(s[0]) then Split(s[1..])
    else
      var w := Word(s);
      [w] + Split(s[|w|..])
  }

  function StripLeading(s: string): (r: string)
    ensures |r| <= |s| && r == s[|s| - |r|..]
    ensures forall i :: 0 <= i < |s| - |r| ==> IsWhitespace(s[i])
    ensures r != [] ==> !IsWhitespace(r[0])
  {
    if s != [] && IsWhitespace(s[0]) then StripLeading(s[1..]) else s
  }

  function StripTrailing(s: string): (r: string)
    ensures |r| <= |s| && r == s[..|r|]
    ensures forall i :: |r| <= i < |s| ==> IsWhitespace(s[i])
    ensures r != [] ==> !IsWhitespace(r[|r| - 1])
  {
    if s != [] && IsWhitespace(s[|s| - 1]) then StripTrailing(s[..|s| - 1]) else s
  }

  /** `s.strip()`: what remains is a piece of `s` that neither starts nor ends with
      whitespace. */
  function Strip(s: string): (r: string)
    ensures |r| <= |s|
    ensures r != [] ==> !IsWhitespace(r[0]) && !IsWhitespace(r[|r| - 1])
  {
    StripTrailing(StripLeading(s))
  }

  /** `[key.strip() for key in tokens if key.strip()]` */
  function KeepStripped(tokens: seq<string>): (r: seq<string>)
    ensures |r| <= |tokens|
    ensures forall k :: 0 <= k < |r| ==> r[k] != [] && !IsWhitespace(r[k][0]) && !IsWhitespace(r[k][|r[k]| - 1])
  {
    if tokens == [] then []
    else if Strip(tokens[0]) != [] then [Strip(tokens[0])] + KeepStripped(tokens[1..])
    else KeepStripped(tokens[1..])
  }

  /** The comprehension that builds `VALID_API_KEYS` from the raw variable. */
  function ParseApiKeys(raw: string): (keys: seq<string>)
    ensures forall k :: 0 <= k < |keys| ==> keys[k] != [] && !IsWhitespace(keys[k][0]) && !IsWhitespace(keys[k][|keys[k]| - 1])
  {
    KeepStripped(Split(ReplaceCommas(raw)))
  }

  /** `VALID_API_KEYS` for the environment value `os.getenv("VALID_API_KEYS", "")`
      (None when the variable is unset), with the development fallback. */
  function ValidApiKeys(env: Option<string>): (keys: seq<string>)
    ensures keys != []
    ensures forall k :: 0 <= k < |keys| ==> WellFormedKey(keys[k])
    ensures keys == [FALLBACK_API_KEY] || keys == Split(ReplaceCommas(env.GetOr("")))
  {
    var parsed := ParseApiKeys(env.GetOr(""));
    ParsedKeysAreTokens(env.GetOr(""));
    FallbackKeyWellFormed();
    if parsed == [] then [FALLBACK_API_KEY] else parsed
  }

  lemma FallbackKeyWellFormed()
    ensures WellFormedKey(FALLBACK_API_KEY)
  {
    forall i | 0 <= i < |FALLBACK_API_KEY| ensures !IsSeparator(FALLBACK_API_KEY[i]) {
      assert 'F' <= FALLBACK_API_KEY[i] <= 'z';
    }
  }

  /** `get_api_key`: the header value itself when it is a valid key, otherwise HTTP 403. */
  function GetApiKey(validKeys: seq<string>, apiKey: string): (r: Result<string, Exc>)
    ensures r.Ok? <==> apiKey in validKeys
    ensures r.Ok? ==> r.value == apiKey
    ensures r.Err? ==> r.error == Exc(HttpException(403), INVALID_CREDENTIALS)
  {
    if apiKey in validKeys then Ok(apiKey) else Err(Exc(HttpException(403), INVALID_CREDENTIALS))
  }

  // ---------------------------------------------------------------------------
  // Properties of the parser

  /** A string without whitespace is its own `strip()`. */
  lemma StripWithoutWhitespace(s: string)
    requires NoWhitespace(s)
    ensures Strip(s) == s
  {
    if s != [] {
      assert !IsWhitespace(s[0]);
      assert !IsWhitespace(s[|s| - 1]);
    }
  }

  /** `strip()` and the empty-string filter never change what `split()` produced. */
  lemma {:induction false} KeepStrippedOfTokens(tokens: seq<string>)
    requires forall k :: 0 <= k < |tokens| ==> tokens[k] != [] && NoWhitespace(tokens[k])
    ensures KeepStripped(tokens) == tokens
  {
    if tokens != [] {
      StripWithoutWhitespace(tokens[0]);
      KeepStrippedOfTokens(tokens[1..]);
    }
  }

  /** No token of `split()` holds a character the input lacked; here, a comma. */
  lemma {:induction false} SplitKeepsOutComma(s: string)
    requires forall i :: 0 <= i < |s| ==> s[i] != ','
    ensures forall k, i :: 0 <= k < |Split(s)| && 0 <= i < |Split(s)[k]| ==> Split(s)[k][i] != ','
    decreases |s|
  {
    if s == [] {
    } else if IsWhitespace(s[0]) {
      SplitKeepsOutComma(s[1..]);
    } else {
      var w := Word(s);
      SplitKeepsOutComma(s[|w|..]);
      assert Split(s) == [w] + Split(s[|w|..]);
    }
  }

  /** The parsed keys are exactly the tokens of `split()`, and each is well formed:
      no key is empty and none contains a comma or whitespace. */
  lemma ParsedKeysAreTokens(raw: string)
    ensures ParseApiKeys(raw) == Split(ReplaceCommas(raw))
    ensures forall k :: 0 <= k < |ParseApiKeys(raw)| ==> WellFormedKey(ParseApiKeys(raw)[k])
  {
    var s := ReplaceCommas(raw);
    KeepStrippedOfTokens(Split(s));
    SplitKeepsOutComma(s);
  }

  /** `s` with its whitespace removed. */
  function RemoveWhitespace(s: string): string {
    if s == [] then [] else (if IsWhitespace(s[0]) then [] else [s[0]]) + RemoveWhitespace(s[1..])
  }

  function RemoveSeparators(s: string): string {
    if s == [] then [] else (if IsSeparator(s[0]) then [] else [s[0]]) + RemoveSeparators(s[1..])
  }

  function Concat(ss: seq<string>): string {
    if ss == [] then [] else ss[0] + Concat(ss[1..])
  }

  lemma {:induction false} RemoveWhitespaceAppend(a: string, b: string)
    ensures RemoveWhitespace(a + b) == RemoveWhitespace(a) + RemoveWhitespace(b)
  {
    if a == [] {
      assert a + b == b;
    } else {
      assert (a + b)[0] == a[0];
      assert (a + b)[1..] == a[1..] + b;
      RemoveWhitespaceAppend(a[1..], b);
    }
  }

  lemma {:induction false} RemoveWhitespaceOfWord(w: string)
    requires NoWhitespace(w)
    ensures RemoveWhitespace(w) == w
  {
    if w != [] {
      RemoveWhitespaceOfWord(w[1..]);
    }
  }

  /** Read back to back, the tokens of `split()` are the input without its whitespace:
      nothing is dropped, nothing is reordered. */
  lemma {:induction false} SplitPreservesOrder(s: string)
    ensures Concat(Split(s)) == RemoveWhitespace(s)
    decreases |s|
  {
    if s == [] {
    } else if IsWhitespace(s[0]) {
      SplitPreservesOrder(s[1..]);
    } else {
      var w := Word(s);
      var rest := s[|w|..];
      assert s == w + rest;
      SplitPreservesOrder(rest);
      RemoveWhitespaceAppend(w, rest);
      RemoveWhitespaceOfWord(w);
      assert Split(s) == [w] + Split(rest);
    }
  }

  lemma {:induction false} RemoveWhitespaceOfReplaced(raw: string)
    ensures RemoveWhitespace(ReplaceCommas(raw)) == RemoveSeparators(raw)
  {
    if raw != [] {
      assert ReplaceCommas(raw)[1..] == ReplaceCommas(raw[1..]);
      RemoveWhitespaceOfReplaced(raw[1..]);
    }
  }

  /** The keys keep their order from the raw variable: read back to back, they are the
      raw string with every comma and whitespace character removed. */
  lemma KeysKeepRawOrder(raw: string)
    ensures Concat(ParseApiKeys(raw)) == RemoveSeparators(raw)
  {
    ParsedKeysAreTokens(raw);
    SplitPreservesOrder(ReplaceCommas(raw));
    RemoveWhitespaceOfReplaced(raw);
  }

  /** `sep.join(keys)` for a one-character separator. */
  function JoinWith(sep: char, keys: seq<string>): string {
    if keys == [] then []
    else if |keys| == 1 then keys[0]
    else keys[0] + [sep] + JoinWith(sep, keys[1..])
  }

  lemma {:induction false} WordOfPrefix(w: string, rest: string)
    requires NoWhitespace(w)
    requires rest == [] || IsWhitespace(rest[0])
    ensures Word(w + rest) == w
  {
    if w == [] {
    } else {
      assert (w + rest)[1..] == w[1..] + rest;
      WordOfPrefix(w[1..], rest);
    }
  }

  /** Splitting a well-formed key list joined by spaces gives the list back. */
  lemma {:induction false} SplitJoined(keys: seq<string>)
    requires forall k :: 0 <= k < |keys| ==> keys[k] != [] && NoWhitespace(keys[k])
    ensures Split(JoinWith(' ', keys)) == keys
  {
    if keys == [] {
    } else if |keys| == 1 {
      WordOfPrefix(keys[0], []);
      assert keys[0] + [] == keys[0];
      assert keys[0][|keys[0]|..] == [];
    } else {
      var w, tail := keys[0], JoinWith(' ', keys[1..]);
      var s := w + [' '] + tail;
      WordOfPrefix(w, [' '] + tail);
      assert s == w + ([' '] + tail);
      assert s[|w|..] == [' '] + tail;
      assert !IsWhitespace(s[0]);
      assert Split([' '] + tail) == Split(tail) by {
        assert ([' '] + tail)[1..] == tail;
      }
      SplitJoined(keys[1..]);
    }
  }

  lemma {:induction false} ReplaceCommasStep(w: string, tail: string)
    requires NoSeparator(w)
    ensures ReplaceCommas(w + [','] + tail) == w + [' '] + ReplaceCommas(tail)
  {
    var s := w + [','] + tail;
    var expected := w + [' '] + ReplaceCommas(tail);
    forall i | 0 <= i < |s|
      ensures ReplaceCommas(s)[i] == expected[i]
    {
      if i < |w| {
        assert s[i] == w[i] && !IsSeparator(w[i]);
      } else if i > |w| {
        assert s[i] == tail[i - |w| - 1];
      }
    }
  }

  lemma {:induction false} ReplaceCommasJoined(keys: seq<string>)
    requires forall k :: 0 <= k < |keys| ==> NoSeparator(keys[k])
    ensures ReplaceCommas(JoinWith(',', keys)) == JoinWith(' ', keys)
  {
    if |keys| == 1 {
      assert NoSeparator(keys[0]);
      assert ReplaceCommas(keys[0]) == keys[0];
    } else if |keys| > 1 {
      ReplaceCommasJoined(keys[1..]);
      ReplaceCommasStep(keys[0], JoinWith(',', keys[1..]));
    }
  }

  /** Round trip: a list of well-formed keys written comma-separated into
      `VALID_API_KEYS` is parsed back to the same list, in the same order. */
  lemma ParseJoinedKeys(keys: seq<string>)
    requires forall k :: 0 <= k < |keys| ==> WellFormedKey(keys[k])
    ensures ParseApiKeys(JoinWith(',', keys)) == keys
  {
    ReplaceCommasJoined(keys);
    forall k | 0 <= k < |keys| ensures NoWhitespace(keys[k]) {
      assert WellFormedKey(keys[k]);
    }
    SplitJoined(keys);
    KeepStrippedOfTokens(keys);
  }

  /** The fallback replaces the parsed list exactly when the variable holds nothing
      but commas and whitespace (or is unset). */
  lemma {:induction false} FallbackExactlyWhenBlank(env: Option<string>)
    ensures ValidApiKeys(env) == [FALLBACK_API_KEY] <==>
            (ParseApiKeys(env.GetOr("")) == [] || ParseApiKeys(env.GetOr("")) == [FALLBACK_API_KEY])
    ensures ParseApiKeys(env.GetOr("")) == [] <==> RemoveSeparators(env.GetOr("")) == []
  {
    KeysKeepRawOrder(env.GetOr(""));
    ParsedKeysAreTokens(env.GetOr(""));
    var p := ParseApiKeys(env.GetOr(""));
    if p != [] {
      assert p[0] != [];
      assert Concat(p) == p[0] + Concat(p[1..]);
    }
  }
}
