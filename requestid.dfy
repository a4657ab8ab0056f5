/**
 * The correlation-ID middleware: it reuses the ID an inbound request carries
 * in the configured header, or generates one from a process-wide prefix and
 * counter, adds it to the response header and publishes it in the request's
 * context for downstream handlers.
 */
module RequestId {
  import Wrappers
  import opened Text
  import Decimal
  import Base64
  import opened Ctx
  import opened Http

  const DefaultHeader := "X-Request-ID"
  const DefaultHostname := "localhost"
  /** Random bytes read per attempt at building the salt. */
  const SaltDrawBytes := 20
  /** An attempt is kept once its stripped base64 text has at least this many characters. */
  const MinStrippedLength := 16
  const SaltLength := 10
  /** The counter is printed with `%012d`. */
  const SequenceWidth := 12
  /** The counter is a uint64 and wraps around. */
  const Uint64Modulus := 0x1_0000_0000_0000_0000

  /** The default header is stored under its canonical spelling "X-Request-Id". */
  lemma DefaultHeaderCanonical()
    ensures CanonicalKey(DefaultHeader) == "X-Request-Id"
  {
    CanonicalRequestIdKey();
  }

  /** An inbound header spelled "x-request-id" is found under the default name. */
  lemma DefaultHeaderAnySpelling(value: string)
    ensures Get(Add(map[], "x-request-id", value), DefaultHeader) == value
  {
    assert ToLower("x-request-id") == ToLower(DefaultHeader);
    GetCaseInsensitive(map[], "x-request-id", DefaultHeader, value);
  }

  // ---------------------------------------------------------------------------
  // Process prefix: {hostname}-{pid}-{salt}-

  /** The host name, falling back to "localhost" when the lookup fails or yields "". */
  function Hostname(lookedUp: string, failed: bool): (h: string)
    ensures h != ""
  {
    if lookedUp == "" || failed then DefaultHostname else lookedUp
  }

  /** One attempt's base64 text with every '+' and '/' removed. */
  function Stripped(draw: seq<bv8>): (t: string)
    ensures |t| <= 4 * ((|draw| + 2) / 3)
    ensures forall i :: 0 <= i < |t| ==> t[i] != '+' && t[i] != '/'
  {
    Base64.EncodeShape(draw);
    RemoveAll(Base64.Encode(draw), {'+', '/'})
  }

  /** The first attempt in `draws` that is long enough is the one at `j`. */
  predicate FirstLongDraw(draws: seq<seq<bv8>>, j: nat)
  {
    && j < |draws|
    && |Stripped(draws[j])| >= MinStrippedLength
    && forall k :: 0 <= k < j ==> |Stripped(draws[k])| < MinStrippedLength
  }

  function MakePrefix(hostname: string, pid: nat, salt: string): (p: string)
    ensures |p| == |hostname| + |Decimal.Format(pid)| + |salt| + 3
    ensures p[..|hostname| + 1] == hostname + "-" && p[|p| - 1] == '-'
    ensures var digits := p[|hostname| + 1..|hostname| + 1 + |Decimal.Format(pid)|];
      Decimal.AllDigits(digits) && Decimal.Parse(digits) == pid
  {
    var p := hostname + "-" + Decimal.Format(pid) + "-" + salt + "-";
    Decimal.ParseFormat(pid);
    assert p[|hostname| + 1..|hostname| + 1 + |Decimal.Format(pid)|] == Decimal.Format(pid);
    p
  }

  /**
   * A long enough attempt yields a salt of base62 symbols only: the stripped
   * text has no '+' or '/', and the at most two '=' characters of base64
   * padding sit at its end, beyond the first ten characters.
   */
  lemma SaltIsAlphanumeric(draw: seq<bv8>)
    requires |Stripped(draw)| >= MinStrippedLength
    ensures forall i :: 0 <= i < SaltLength ==> IsAlnum(Stripped(draw)[i])
  {
    var e := Base64.Encode(draw);
    Base64.EncodeShape(draw);
    var p := Base64.PadCount(|draw|);
    var body, pad := e[..|e| - p], e[|e| - p..];
    assert e == body + pad;
    RemoveAllConcat(body, pad, {'+', '/'});
    var kept := RemoveAll(body, {'+', '/'});
    assert Stripped(draw) == kept + RemoveAll(pad, {'+', '/'});
    assert |kept| >= SaltLength;
    forall i | 0 <= i < SaltLength
      ensures IsAlnum(Stripped(draw)[i])
    {
      assert Stripped(draw)[i] == kept[i];
      var j :| 0 <= j < |body| && body[j] == kept[i];
      assert body[j] == e[j];
    }
  }

  lemma PrefixShape(hostname: string, pid: nat, salt: string)
    requires |salt| == SaltLength && forall i :: 0 <= i < |salt| ==> IsAlnum(salt[i])
    ensures var p := MakePrefix(hostname, pid, salt);
      && |p| >= |hostname| + SaltLength + 4
      && p[..|hostname| + 1] == hostname + "-"
      && p[|p| - 1] == '-' && p[|p| - SaltLength - 2] == '-'
      && forall i :: |p| - SaltLength - 1 <= i < |p| - 1 ==> IsAlnum(p[i])
  {
    var p := MakePrefix(hostname, pid, salt);
    assert p == (hostname + "-") + (Decimal.Format(pid) + "-" + salt + "-");
    assert p[|p| - SaltLength - 1..|p| - 1] == salt;
  }

  /**
   * Package initialisation: picks the host name, then draws random bytes
   * until the stripped base64 text has at least 16 characters, and keeps its
   * first 10 as the salt. The random source is the sequence `draws`; None
   * means it ran out before an attempt was long enough.
   */
  method Init(lookedUp: string, failed: bool, pid: nat, draws: seq<seq<bv8>>)
    returns (prefix: Wrappers.Option<string>)
    requires forall k :: 0 <= k < |draws| ==> |draws[k]| == SaltDrawBytes
    ensures prefix.Some? <==> exists j :: 0 <= j < |draws| && |Stripped(draws[j])| >= MinStrippedLength
    ensures prefix.Some? ==>
      exists j: nat :: FirstLongDraw(draws, j)
        && prefix.value == MakePrefix(Hostname(lookedUp, failed), pid, Stripped(draws[j])[..SaltLength])
    ensures prefix.Some? ==>
      var p, h := prefix.value, Hostname(lookedUp, failed);
      && |p| >= |h| + SaltLength + 4
      && p[..|h| + 1] == h + "-"
      && p[|p| - 1] == '-' && p[|p| - SaltLength - 2] == '-'
      && forall i :: |p| - SaltLength - 1 <= i < |p| - 1 ==> IsAlnum(p[i])
  {
    var hostname := lookedUp;
    if hostname == "" || failed {
      hostname := DefaultHostname;
    }
    var b64 := "";
    var i := 0;
    while |b64| < MinStrippedLength
      invariant 0 <= i <= |draws|
      invariant i == 0 ==> b64 == ""
      invariant i > 0 ==> b64 == Stripped(draws[i - 1])
      invariant forall k :: 0 <= k < i - 1 ==> |Stripped(draws[k])| < MinStrippedLength
      decreases |draws| - i
    {
      if i == |draws| {
        return Wrappers.None;
      }
      b64 := Stripped(draws[i]);
      i := i + 1;
    }
    assert FirstLongDraw(draws, i - 1);
    SaltIsAlphanumeric(draws[i - 1]);
    PrefixShape(hostname, pid, b64[..SaltLength]);
    prefix := Wrappers.Some(MakePrefix(hostname, pid, b64[..SaltLength]));
  }

  // ---------------------------------------------------------------------------
  // NextRequestID: {prefix}{counter:012d}

  function FormatId(prefix: string, sequence: nat): (id: string)
    ensures |id| >= |prefix| + SequenceWidth
    ensures id[..|prefix|] == prefix
  {
    Decimal.PadZeroRoundTrip(sequence, SequenceWidth);
    prefix + Decimal.PadZero(sequence, SequenceWidth)
  }

  /**
   * An ID is the prefix followed by at least 12 decimal digits that read back
   * as the counter value; exactly 12 while the counter is below 10^12.
   */
  lemma IdShape(prefix: string, n: nat)
    ensures |FormatId(prefix, n)| >= |prefix| + SequenceWidth
    ensures FormatId(prefix, n)[..|prefix|] == prefix
    ensures Decimal.AllDigits(FormatId(prefix, n)[|prefix|..])
    ensures Decimal.Parse(FormatId(prefix, n)[|prefix|..]) == n
    ensures n < Decimal.Pow10(SequenceWidth) ==> |FormatId(prefix, n)| == |prefix| + SequenceWidth
  {
    var id := FormatId(prefix, n);
    assert id[|prefix|..] == Decimal.PadZero(n, SequenceWidth);
    Decimal.PadZeroRoundTrip(n, SequenceWidth);
    if n < Decimal.Pow10(SequenceWidth) {
      Decimal.FormatLength(n, SequenceWidth);
    }
  }

  /** For one prefix, distinct counter values give distinct IDs. */
  lemma IdsDistinct(prefix: string, a: nat, b: nat)
    requires a != b
    ensures FormatId(prefix, a) != FormatId(prefix, b)
  {
    IdShape(prefix, a);
    IdShape(prefix, b);
  }

  /**
   * The i-th and j-th increments after counter value `start` give distinct
   * IDs as long as fewer than 2^64 increments separate them.
   */
  lemma SuccessiveIdsDistinct(prefix: string, start: nat, i: nat, j: nat)
    requires 0 < i < j <= Uint64Modulus
    ensures FormatId(prefix, (start + i) % Uint64Modulus) != FormatId(prefix, (start + j) % Uint64Modulus)
  {
    IdsDistinct(prefix, (start + i) % Uint64Modulus, (start + j) % Uint64Modulus);
  }

  /** The process-wide generator: the prefix built at start-up and the request counter. */
  class Generator {
    const prefix: string
    var sequence: nat

    ghost predicate Valid()
      reads this
    {
      sequence < Uint64Modulus
    }

    constructor (prefix: string)
      ensures this.prefix == prefix && sequence == 0 && Valid()
    {
      this.prefix := prefix;
      sequence := 0;
    }

    /** NextRequestID: increments the counter (modulo 2^64) and formats the new value. */
    method Next() returns (id: string)
      requires Valid()
      modifies this
      ensures Valid()
      ensures sequence == (old(sequence) + 1) % Uint64Modulus
      ensures id == FormatId(prefix, sequence)
    {
      sequence := (sequence + 1) % Uint64Modulus;
      id := prefix + Decimal.PadZero(sequence, SequenceWidth);
    }
  }

  // ---------------------------------------------------------------------------
  // Configuration by options

  datatype Option =
    | WithRequestIdHeader(header: string)
    | WithNextRequestId(generator: Generator)

  datatype Settings = Settings(header: string, generator: Generator)

  function ApplyOption(s: Settings, o: Option): Settings
  {
    match o
    case WithRequestIdHeader(h) => s.(header := h)
    case WithNextRequestId(g) => s.(generator := g)
  }

  /** The settings after applying `opts` in order. */
  function Applied(s: Settings, opts: seq<Option>): Settings
  {
    if opts == [] then s else ApplyOption(Applied(s, opts[..|opts| - 1]), opts[|opts| - 1])
  }

  /**
   * Each field takes the value of the last option that sets it, and keeps its
   * starting value when no option does.
   */
  lemma {:induction false} AppliedLastWins(s: Settings, opts: seq<Option>)
    ensures (forall k :: 0 <= k < |opts| ==> !opts[k].WithRequestIdHeader?) ==> Applied(s, opts).header == s.header
    ensures forall k ::
      (0 <= k < |opts| && opts[k].WithRequestIdHeader? && forall j :: k < j < |opts| ==> !opts[j].WithRequestIdHeader?)
      ==> Applied(s, opts).header == opts[k].header
    ensures (forall k :: 0 <= k < |opts| ==> !opts[k].WithNextRequestId?) ==> Applied(s, opts).generator == s.generator
    ensures forall k ::
      (0 <= k < |opts| && opts[k].WithNextRequestId? && forall j :: k < j < |opts| ==> !opts[j].WithNextRequestId?)
      ==> Applied(s, opts).generator == opts[k].generator
    decreases |opts|
  {
    if opts != [] {
      var init := opts[..|opts| - 1];
      AppliedLastWins(s, init);
      assert forall k :: 0 <= k < |init| ==> init[k] == opts[k];
    }
  }

  /** The middleware's configuration: the header to read and write, and the ID generator. */
  class Config {
    var requestIdHeader: string
    var nextRequestId: Generator

    function Current(): Settings
      reads this
    {
      Settings(requestIdHeader, nextRequestId)
    }

    /** RequestID(opts...): the defaults, then every option in argument order. */
    constructor (defaultGenerator: Generator, opts: seq<Option>)
      ensures Current() == Applied(Settings(DefaultHeader, defaultGenerator), opts)
    {
      requestIdHeader := DefaultHeader;
      nextRequestId := defaultGenerator;
      new;
      Apply(opts);
    }

    method Apply(opts: seq<Option>)
      modifies this
      ensures Current() == Applied(old(Current()), opts)
    {
      var i := 0;
      while i < |opts|
        invariant 0 <= i <= |opts|
        invariant Current() == Applied(old(Current()), opts[..i])
        decreases |opts| - i
      {
        assert opts[..i + 1][..i] == opts[..i];
        match opts[i] {
          case WithRequestIdHeader(h) => requestIdHeader := h;
          case WithNextRequestId(g) => nextRequestId := g;
        }
        i := i + 1;
      }
      assert opts[..|opts|] == opts;
    }

    /**
     * Handles one request: returns the request handed to `next`. An inbound ID
     * is reused verbatim and nothing else happens; otherwise exactly one ID is
     * generated and added to the response header. Either way the ID is
     * published under the private context key.
     */
    method Serve(w: ResponseWriter, r: Request) returns (forwarded: Request)
      requires nextRequestId.Valid()
      modifies w, nextRequestId
      ensures nextRequestId.Valid()
      ensures Get(r.header, requestIdHeader) != "" ==>
        && forwarded == r.(ctx := WithValue(r.ctx, RequestIdKey, Text(Get(r.header, requestIdHeader))))
        && nextRequestId.sequence == old(nextRequestId.sequence)
        && w.header == old(w.header)
      ensures Get(r.header, requestIdHeader) == "" ==>
        && nextRequestId.sequence == (old(nextRequestId.sequence) + 1) % Uint64Modulus
        && var id := FormatId(nextRequestId.prefix, nextRequestId.sequence);
        && w.header == Add(old(w.header), requestIdHeader, id)
        && forwarded == r.(ctx := WithValue(r.ctx, RequestIdKey, Text(id)))
      ensures w.status == old(w.status) && w.sentHeader == old(w.sentHeader) && w.body == old(w.body)
    {
      var requestId := Get(r.header, requestIdHeader);
      if requestId == "" {
        requestId := nextRequestId.Next();
        w.AddHeader(requestIdHeader, requestId);
      }
      forwarded := r.(ctx := WithValue(r.ctx, RequestIdKey, Text(requestId)));
    }
  }

  // ---------------------------------------------------------------------------
  // Reading the published ID

  /** FromRequestID: the string published under the private key, or "". */
  function FromRequestId(c: Context): (id: string)
    ensures Lookup(c, RequestIdKey).None? ==> id == ""
    ensures id != "" ==> Lookup(c, RequestIdKey) == Wrappers.Some(Text(id))
  {
    var v := Lookup(c, RequestIdKey);
    if v.Some? && v.value.Text? then v.value.s else ""
  }

  /**
   * A handler further down the chain reads back exactly the published ID,
   * whatever other keys were added to the context in between; a context in
   * which nothing was published reads as "".
   */
  lemma FromRequestIdDownstream(c: Context, id: string, kvs: seq<(Key, Value)>)
    requires forall i :: 0 <= i < |kvs| ==> kvs[i].0 != RequestIdKey
    ensures FromRequestId(Extend(WithValue(c, RequestIdKey, Text(id)), kvs)) == id
    ensures Lookup(c, RequestIdKey).None? ==> FromRequestId(Extend(c, kvs)) == ""
  {
    LastForAbsent(kvs, RequestIdKey);
    LookupExtend(WithValue(c, RequestIdKey, Text(id)), kvs, RequestIdKey);
    LookupExtend(c, kvs, RequestIdKey);
  }
}
