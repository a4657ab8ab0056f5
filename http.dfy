/**
 * The parts of Go's net/http that the middleware relies on: header maps with
 * canonical keys, the request fields they read, and a response writer whose
 * status and headers are committed by the first WriteHeader or Write.
 */
module Http {
  import opened Text
  import opened Ctx

  const StatusOK := 200

  /** Header field names are tokens: letters, digits and these punctuation characters. */
  predicate IsTokenChar(c: char)
  {
    IsAlnum(c) || c in "!#$%&'*+-.^_`|~"
  }

  /**
   * Canonical form of a header key: the first letter and every letter after
   * a hyphen upper-case, all other letters lower-case. A key holding a
   * character that is not a token character is left as it is.
   */
  function CanonicalKey(key: string): (k: string)
    ensures |k| == |key|
  {
    if forall i :: 0 <= i < |key| ==> IsTokenChar(key[i]) then CanonicalWords(key, true) else key
  }

  function CanonicalWords(s: string, wordStart: bool): (t: string)
    ensures |t| == |s|
  {
    if s == [] then []
    else [if wordStart then UpperChar(s[0]) else LowerChar(s[0])] + CanonicalWords(s[1..], s[0] == '-')
  }

  /**
   * Header names (keys made of token characters) that differ only in the
   * letter case of ASCII letters have the same canonical form, so `Get`,
   * `Add` and `Set` treat them as one key. A key with any other character is
   * kept as it is, and then case matters.
   */
  lemma CanonicalKeyCaseInsensitive(a: string, b: string)
    requires forall i :: 0 <= i < |a| ==> IsTokenChar(a[i])
    requires ToLower(a) == ToLower(b)
    ensures CanonicalKey(a) == CanonicalKey(b)
  {
    assert |a| == |ToLower(a)|;
    forall i | 0 <= i < |a|
      ensures IsTokenChar(a[i]) <==> IsTokenChar(b[i])
    {
      assert ToLower(a)[i] == LowerChar(a[i]) && ToLower(b)[i] == LowerChar(b[i]);
      SameLowerChar(a[i], b[i]);
    }
    CanonicalWordsCaseInsensitive(a, b, true);
  }

  lemma {:induction false} CanonicalWordsCaseInsensitive(a: string, b: string, wordStart: bool)
    requires ToLower(a) == ToLower(b)
    ensures CanonicalWords(a, wordStart) == CanonicalWords(b, wordStart)
    decreases |a|
  {
    assert |a| == |ToLower(a)|;
    if a != [] {
      assert ToLower(a)[0] == LowerChar(a[0]) && ToLower(b)[0] == LowerChar(b[0]);
      SameLowerChar(a[0], b[0]);
      assert ToLower(a[1..]) == ToLower(a)[1..] && ToLower(b[1..]) == ToLower(b)[1..];
      CanonicalWordsCaseInsensitive(a[1..], b[1..], a[0] == '-');
    }
  }

  /** Two characters with the same lower-case form agree on everything canonicalisation looks at. */
  lemma SameLowerChar(x: char, y: char)
    requires LowerChar(x) == LowerChar(y)
    ensures UpperChar(x) == UpperChar(y) && LowerChar(x) == LowerChar(y)
    ensures (x == '-' <==> y == '-') && (IsTokenChar(x) <==> IsTokenChar(y))
  {
  }

  /** How the correlation-ID header name is canonicalised: "X-Request-ID" becomes "X-Request-Id". */
  lemma CanonicalRequestIdKey()
    ensures CanonicalKey("X-Request-ID") == "X-Request-Id"
  {
    RequestIdTokens();
    RequestIdWords();
  }

  lemma RequestIdTokens()
    ensures forall i :: 0 <= i < |"X-Request-ID"| ==> IsTokenChar("X-Request-ID"[i])
  {
  }

  lemma RequestIdWords()
    ensures CanonicalWords("X-Request-ID", true) == "X-Request-Id"
  {
    RequestWords();
    CanonicalWordsConcat("X-", "Request-ID", true);
    assert CanonicalWords("X-", true) == "X-";
    assert "X-" + "Request-ID" == "X-Request-ID";
    assert "X-" + "Request-Id" == "X-Request-Id";
  }

  /** Canonicalising a concatenation: the second part starts a word when the first ends with a hyphen. */
  lemma {:induction false} CanonicalWordsConcat(a: string, b: string, wordStart: bool)
    requires a != []
    ensures CanonicalWords(a + b, wordStart) == CanonicalWords(a, wordStart) + CanonicalWords(b, a[|a| - 1] == '-')
    decreases |a|
  {
    assert (a + b)[1..] == a[1..] + b;
    if |a| > 1 {
      CanonicalWordsConcat(a[1..], b, a[0] == '-');
    }
  }

  lemma RequestWords()
    ensures CanonicalWords("Request-ID", true) == "Request-Id"
  {
    assert CanonicalWords("D", false) == "d";
    assert CanonicalWords("ID", true) == "Id";
    assert CanonicalWords("-ID", false) == "-Id";
    assert CanonicalWords("t-ID", false) == "t-Id";
    assert CanonicalWords("st-ID", false) == "st-Id";
    assert CanonicalWords("est-ID", false) == "est-Id";
    assert CanonicalWords("uest-ID", false) == "uest-Id";
    assert CanonicalWords("quest-ID", false) == "quest-Id";
    assert CanonicalWords("equest-ID", false) == "equest-Id";
  }

  /** Header values by canonical key, in the order they were added. */
  type Header = map<string, seq<string>>

  /** `Header.Get`: the first value under the key, or "" when there is none. */
  function Get(h: Header, key: string): string
  {
    var k := CanonicalKey(key);
    if k in h && |h[k]| > 0 then h[k][0] else ""
  }

  /** `Header.Add`: appends a value under the key. */
  function Add(h: Header, key: string, value: string): Header
  {
    var k := CanonicalKey(key);
    h[k := (if k in h then h[k] else []) + [value]]
  }

  /** `Header.Set`: replaces all values under the key by one. */
  function Set(h: Header, key: string, value: string): Header
  {
    h[CanonicalKey(key) := [value]]
  }

  /** A value added or set under one spelling of a key is read back under any other. */
  lemma GetCaseInsensitive(h: Header, a: string, b: string, value: string)
    requires forall i :: 0 <= i < |a| ==> IsTokenChar(a[i])
    requires ToLower(a) == ToLower(b)
    ensures Get(Add(map[], a, value), b) == value
    ensures Get(Set(h, a, value), b) == value
  {
    CanonicalKeyCaseInsensitive(a, b);
  }

  datatype Request = Request(
    verb: string,      // Method
    path: string,      // URL.Path
    rawQuery: string,  // URL.RawQuery
    header: Header,
    ctx: Context)

  function UserAgent(r: Request): string
  {
    Get(r.header, "User-Agent")
  }

  /** The status a response has after WriteHeader(code): the first status written wins; 0 is "none yet". */
  function WriteStatus(current: int, code: int): int
  {
    if current == 0 then code else current
  }

  /**
   * A response writer. `header` is the map returned by Header(); `sentHeader`
   * is the header as it stood when the response was committed, because
   * changing the map afterwards has no effect on the response.
   */
  class ResponseWriter {
    var header: Header
    var status: int
    var sentHeader: Header
    var body: string

    constructor ()
      ensures header == map[] && status == 0 && sentHeader == map[] && body == []
    {
      header, status, sentHeader, body := map[], 0, map[], [];
    }

    /** Commits `code` and the current header, unless a status was already written. */
    method WriteHeader(code: int)
      requires 100 <= code <= 999
      modifies this
      ensures status == WriteStatus(old(status), code)
      ensures sentHeader == if old(status) == 0 then header else old(sentHeader)
      ensures header == old(header) && body == old(body)
    {
      if status == 0 {
        status, sentHeader := code, header;
      }
    }

    /** Appends to the body, committing status 200 first if nothing was written yet. */
    method Write(data: string)
      modifies this
      ensures status == WriteStatus(old(status), StatusOK)
      ensures sentHeader == if old(status) == 0 then header else old(sentHeader)
      ensures header == old(header) && body == old(body) + data
    {
      WriteHeader(StatusOK);
      body := body + data;
    }

    method SetHeader(key: string, value: string)
      modifies this
      ensures header == Set(old(header), key, value)
      ensures status == old(status) && sentHeader == old(sentHeader) && body == old(body)
    {
      header := Set(header, key, value);
    }

    method AddHeader(key: string, value: string)
      modifies this
      ensures header == Add(old(header), key, value)
      ensures status == old(status) && sentHeader == old(sentHeader) && body == old(body)
    {
      header := Add(header, key, value);
    }
  }
}
