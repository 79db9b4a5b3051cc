/** `TraceContext` (src/main/kotlin/com/re100io/common/TraceContext.kt): the trace id
    of the current request, kept in the logging MDC under two keys. The MDC is one
    map held by a `TraceContext` object; `UUID.randomUUID()` is the parameter
    `uuid`, the random UUID the generator would have drawn. */
module TraceContexts {
  import opened Wrappers
  import opened Text

  const TraceIdKey: string := "traceId"
  const RequestIdKey: string := "requestId"

  // ---------------------------------------------------------------------------
  // Trace id generation

  type Nibble = n: int | 0 <= n < 16

  /** A UUID as its 128 bits, four at a time, most significant first. */
  type Uuid = s: seq<Nibble> | |s| == 32 witness seq(32, _ => 0)

  /** The lower-case hexadecimal digit `UUID.toString()` writes for a nibble. */
  function HexDigit(n: Nibble): (c: char)
    ensures IsHexDigit(c)
  {
    if n < 10 then ('0' as int + n) as char else ('a' as int + n - 10) as char
  }

  predicate IsHexDigit(c: char) {
    '0' <= c <= '9' || 'a' <= c <= 'f'
  }

  function HexValue(c: char): Nibble
    requires IsHexDigit(c)
  {
    if c <= '9' then c as int - '0' as int else c as int - 'a' as int + 10
  }

  function Hex(ns: seq<Nibble>): (s: string)
    ensures |s| == |ns|
  {
    seq(|ns|, i requires 0 <= i < |ns| => HexDigit(ns[i]))
  }

  /** Reads hexadecimal digits back into nibbles. */
  function ParseHex(s: string): (ns: seq<Nibble>)
    requires forall i :: 0 <= i < |s| ==> IsHexDigit(s[i])
    ensures |ns| == |s|
  {
    seq(|s|, i requires 0 <= i < |s| => HexValue(s[i]))
  }

  /** `UUID.toString()`: 8-4-4-4-12 hexadecimal digits separated by dashes. */
  function UuidString(u: Uuid): (s: string)
    ensures |s| == 36
    ensures forall i :: 0 <= i < |s| ==> (s[i] == '-' <==> i == 8 || i == 13 || i == 18 || i == 23)
    ensures forall i :: 0 <= i < |s| && s[i] != '-' ==> IsHexDigit(s[i])
  {
    Hex(u[..8]) + "-" + Hex(u[8..12]) + "-" + Hex(u[12..16]) + "-" + Hex(u[16..20]) + "-" + Hex(u[20..])
  }

  /** `replace("-", "")`: every dash dropped, every other character kept in order. */
  function RemoveDashes(s: string): (r: string)
    ensures |r| <= |s|
    ensures forall i :: 0 <= i < |r| ==> r[i] != '-'
    decreases |s|
  {
    if |s| == 0 then ""
    else (if s[0] == '-' then "" else [s[0]]) + RemoveDashes(s[1..])
  }

  lemma {:induction false} RemoveDashesAppend(a: string, b: string)
    ensures RemoveDashes(a + b) == RemoveDashes(a) + RemoveDashes(b)
    decreases |a|
  {
    if |a| > 0 {
      assert (a + b)[0] == a[0];
      assert (a + b)[1..] == a[1..] + b;
      RemoveDashesAppend(a[1..], b);
    } else {
      assert a + b == b;
    }
  }

  lemma {:induction false} RemoveDashesKeepsDashFree(s: string)
    requires forall i :: 0 <= i < |s| ==> s[i] != '-'
    ensures RemoveDashes(s) == s
    decreases |s|
  {
    if |s| > 0 {
      RemoveDashesKeepsDashFree(s[1..]);
    }
  }

  lemma HexIsDashFree(ns: seq<Nibble>)
    ensures RemoveDashes(Hex(ns)) == Hex(ns)
  {
    RemoveDashesKeepsDashFree(Hex(ns));
  }

  /** Dropping the dashes after a group of hex digits keeps the group. */
  lemma DashedGroup(ns: seq<Nibble>, rest: string)
    ensures RemoveDashes(Hex(ns) + ("-" + rest)) == Hex(ns) + RemoveDashes(rest)
  {
    RemoveDashesAppend(Hex(ns), "-" + rest);
    HexIsDashFree(ns);
    assert ("-" + rest)[1..] == rest;
  }

  lemma HexAppend(x: seq<Nibble>, y: seq<Nibble>)
    ensures Hex(x + y) == Hex(x) + Hex(y)
  {
  }

  /** The hex digits of a UUID are those of its five groups, in order. */
  lemma HexOfGroups(u: Uuid)
    ensures Hex(u) == Hex(u[..8]) + Hex(u[8..12]) + Hex(u[12..16]) + Hex(u[16..20]) + Hex(u[20..])
  {
    assert u == u[..8] + u[8..12] + u[12..16] + u[16..20] + u[20..];
    HexAppend(u[..8], u[8..12]);
    HexAppend(u[..8] + u[8..12], u[12..16]);
    HexAppend(u[..8] + u[8..12] + u[12..16], u[16..20]);
    HexAppend(u[..8] + u[8..12] + u[12..16] + u[16..20], u[20..]);
  }

  /** The dashes of `UUID.toString()` are exactly its four separators. */
  lemma UuidStringWithoutDashes(u: Uuid)
    ensures RemoveDashes(UuidString(u)) == Hex(u)
  {
    var a, b, c, d, e := Hex(u[..8]), Hex(u[8..12]), Hex(u[12..16]), Hex(u[16..20]), Hex(u[20..]);
    var r4 := d + ("-" + e);
    var r3 := c + ("-" + r4);
    var r2 := b + ("-" + r3);
    assert UuidString(u) == a + ("-" + r2);
    DashedGroup(u[16..20], e);
    HexIsDashFree(u[20..]);
    DashedGroup(u[12..16], r4);
    DashedGroup(u[8..12], r3);
    DashedGroup(u[..8], r2);
    HexOfGroups(u);
  }

  /** `generateTraceId()`: the random UUID's text with its dashes removed, which
      is its 32 hexadecimal digits. */
  function GenerateTraceId(uuid: Uuid): (r: string)
    ensures r == Hex(uuid)
    ensures |r| == 32
    ensures forall i :: 0 <= i < |r| ==> IsHexDigit(r[i]) && r[i] != '-'
  {
    UuidStringWithoutDashes(uuid);
    RemoveDashes(UuidString(uuid))
  }

  /** The trace id loses none of the UUID's 128 bits: the UUID can be read back
      from it, so distinct UUIDs give distinct trace ids. */
  lemma TraceIdRoundTrip(uuid: Uuid)
    ensures ParseHex(GenerateTraceId(uuid)) == uuid
  {
    var r := GenerateTraceId(uuid);
    forall i | 0 <= i < 32
      ensures HexValue(r[i]) == uuid[i]
    {
      assert r[i] == HexDigit(uuid[i]);
    }
  }

  /** `extractOrGenerateTraceId(headerTraceId)`: a usable header value is kept
      verbatim; a missing, empty or whitespace-only one is replaced by a freshly generated id. */
  function ExtractOrGenerateTraceId(headerTraceId: Option<string>, uuid: Uuid): (r: string)
    ensures !IsNullOrBlank(headerTraceId) ==> r == headerTraceId.value
    ensures IsNullOrBlank(headerTraceId) ==> r == GenerateTraceId(uuid)
  {
    if !IsNullOrBlank(headerTraceId) then headerTraceId.value else GenerateTraceId(uuid)
  }

  /** Whatever the header, the trace id in use is never blank. */
  lemma TraceIdNeverBlank(headerTraceId: Option<string>, uuid: Uuid)
    ensures !IsBlank(ExtractOrGenerateTraceId(headerTraceId, uuid))
  {
    if IsNullOrBlank(headerTraceId) {
      var r := GenerateTraceId(uuid);
      assert IsHexDigit(r[0]);
      assert !IsWhitespace(r[0]);
    }
  }

  // ---------------------------------------------------------------------------
  // The MDC

  /** The request's MDC: a map from key to value that the operations update in place. */
  class TraceContext {
    var mdc: map<string, string>

    constructor ()
      ensures mdc == map[]
    {
      mdc := map[];
    }

    /** `setTraceId(traceId)`: the same value under both keys, other keys untouched. */
    method SetTraceId(traceId: string)
      modifies this
      ensures mdc == old(mdc)[TraceIdKey := traceId][RequestIdKey := traceId]
      ensures GetTraceId() == Some(traceId) && mdc[RequestIdKey] == traceId
    {
      mdc := mdc[TraceIdKey := traceId];
      mdc := mdc[RequestIdKey := traceId];
    }

    /** `getTraceId()`: the value under the trace id key, if any. */
    function GetTraceId(): (r: Option<string>)
      reads this
      ensures r.Some? <==> TraceIdKey in mdc
      ensures r.Some? ==> r.value == mdc[TraceIdKey]
    {
      if TraceIdKey in mdc then Some(mdc[TraceIdKey]) else None
    }

    /** `clearTraceId()`: removes exactly the two trace keys. */
    method ClearTraceId()
      modifies this
      ensures mdc == old(mdc) - {TraceIdKey, RequestIdKey}
      ensures GetTraceId().None? && RequestIdKey !in mdc
      ensures forall k :: k in old(mdc) && k != TraceIdKey && k != RequestIdKey ==> k in mdc && mdc[k] == old(mdc)[k]
    {
      mdc := mdc - {TraceIdKey};
      mdc := mdc - {RequestIdKey};
    }

    /** `clear()`: empties the whole MDC. */
    method Clear()
      modifies this
      ensures mdc == map[]
      ensures GetTraceId().None?
    {
      mdc := map[];
    }
  }
}
