/** Envelope metadata as message headers: built as strings, parsed back on the other side. */
module Headers {
  import opened Contracts

  /** Numbers are exact below this bound. */
  const SAFE := 0x20_0000_0000_0000

  datatype Meta = Meta(
    eventType: string,
    tenantId: TenantId,
    eventId: EventId,
    version: nat,
    occurredAt: string,
    correlationId: string)

  // ---- Decimal printing and parsing ----

  predicate IsDigits(s: string) {
    s != [] && forall i :: 0 <= i < |s| ==> '0' <= s[i] <= '9'
  }

  function PrintNat(n: nat): string {
    if n < 10 then [('0' as int + n) as char] else PrintNat(n / 10) + [('0' as int + n % 10) as char]
  }

  function ParseDigits(s: string): nat
    requires forall i :: 0 <= i < |s| ==> '0' <= s[i] <= '9'
  {
    if s == [] then 0 else ParseDigits(s[..|s| - 1]) * 10 + (s[|s| - 1] as int - '0' as int)
  }

  lemma {:induction false} PrintParse(n: nat)
    ensures IsDigits(PrintNat(n)) && ParseDigits(PrintNat(n)) == n
  {
    if n >= 10 {
      PrintParse(n / 10);
      assert PrintNat(n)[..|PrintNat(n)| - 1] == PrintNat(n / 10);
    } else {
      assert PrintNat(n)[..0] == [];
    }
  }

  /** Conversion of a header to a number: an absent or empty one counts as zero. Strings other than
      plain digits, and digits beyond the exact range, give some number that is not modelled. */
  function NumberOf(s: string): Option<nat> {
    if s == "" then Some(0)
    else if IsDigits(s) && ParseDigits(s) < SAFE then Some(ParseDigits(s))
    else None
  }

  // ---- Headers ----

  /** The header names the service reads; any other header is ignored. */
  datatype Key = EVENT_TYPE | TENANT_ID | EVENT_ID | VERSION | OCCURRED_AT | CORRELATION_ID

  type Headers = map<Key, string>

  const REQUIRED := [EVENT_TYPE, TENANT_ID, EVENT_ID]

  function BuildHeaders(m: Meta): Headers {
    map[EVENT_TYPE := m.eventType, TENANT_ID := m.tenantId, EVENT_ID := m.eventId,
        VERSION := PrintNat(m.version), OCCURRED_AT := m.occurredAt, CORRELATION_ID := m.correlationId]
  }

  /** An absent header reads as the empty string. */
  function Header(headers: Option<Headers>, k: Key): string {
    if headers.Some? && k in headers.value then headers.value[k] else ""
  }

  function Missing(headers: Option<Headers>, keys: seq<Key>): seq<Key> {
    if keys == [] then []
    else (if Header(headers, keys[0]) == "" then [keys[0]] else []) + Missing(headers, keys[1..])
  }

  datatype Parsed = Parsed(eventType: string, tenantId: string, eventId: string, version: Option<nat>,
                           occurredAt: string, correlationId: string)

  /** `minted` is the random id that stands in for an absent correlation id. */
  function ParseHeaders(headers: Option<Headers>, minted: string): Result<Parsed, seq<Key>> {
    var missing := Missing(headers, REQUIRED);
    if missing != [] then Err(missing)
    else Ok(Parsed(
      Header(headers, EVENT_TYPE), Header(headers, TENANT_ID), Header(headers, EVENT_ID),
      NumberOf(Header(headers, VERSION)), Header(headers, OCCURRED_AT),
      if Header(headers, CORRELATION_ID) != "" then Header(headers, CORRELATION_ID) else minted))
  }

  lemma {:induction false} MissingIs(headers: Option<Headers>, keys: seq<Key>)
    ensures forall k :: k in Missing(headers, keys) <==> k in keys && Header(headers, k) == ""
    ensures |Missing(headers, keys)| <= |keys|
  {
    if keys != [] {
      MissingIs(headers, keys[1..]);
    }
  }

  /** Fails closed: a message parses exactly when event type, tenant and event id are all present
      and non-empty; otherwise the error names exactly the ones that are not. */
  lemma ParsesIff(headers: Option<Headers>, minted: string)
    ensures ParseHeaders(headers, minted).Ok? <==>
      Header(headers, EVENT_TYPE) != "" && Header(headers, TENANT_ID) != "" && Header(headers, EVENT_ID) != ""
    ensures ParseHeaders(headers, minted).Err? ==>
      forall k :: k in ParseHeaders(headers, minted).error <==> k in REQUIRED && Header(headers, k) == ""
  {
    MissingIs(headers, REQUIRED);
    assert REQUIRED[0] in REQUIRED && REQUIRED[1] in REQUIRED && REQUIRED[2] in REQUIRED;
    if Missing(headers, REQUIRED) != [] {
      assert Missing(headers, REQUIRED)[0] in Missing(headers, REQUIRED);
    }
  }

  /** A message that parses keeps every header it has; an absent correlation id is replaced by the minted
      one, an absent version counts as zero, an absent time stays empty. */
  lemma ParsedFields(headers: Headers, minted: string)
    requires ParseHeaders(Some(headers), minted).Ok?
    ensures EVENT_TYPE in headers && TENANT_ID in headers && EVENT_ID in headers
    ensures var p := ParseHeaders(Some(headers), minted).value;
      && p.eventType == headers[EVENT_TYPE] && p.tenantId == headers[TENANT_ID] && p.eventId == headers[EVENT_ID]
      && p.occurredAt == (if OCCURRED_AT in headers then headers[OCCURRED_AT] else "")
      && p.correlationId == (if CORRELATION_ID in headers && headers[CORRELATION_ID] != "" then headers[CORRELATION_ID]
                             else minted)
      && (VERSION !in headers || headers[VERSION] == "" ==> p.version == Some(0))
      && (forall n: nat :: VERSION in headers && headers[VERSION] == PrintNat(n) && n < 0x20_0000_0000_0000 ==>
            p.version == Some(n))
  {
    ParsesIff(Some(headers), minted);
    forall n: nat | VERSION in headers && headers[VERSION] == PrintNat(n) && n < 0x20_0000_0000_0000
      ensures NumberOf(PrintNat(n)) == Some(n)
    {
      PrintParse(n);
    }
  }

  /** Round trip, for every metadata with an exact version: what is parsed is what was built exactly
      when the three required fields and the correlation id are non-empty. */
  lemma RoundTripIff(m: Meta, minted: string)
    requires m.version < SAFE && minted != ""
    ensures ParseHeaders(Some(BuildHeaders(m)), minted)
            == Ok(Parsed(m.eventType, m.tenantId, m.eventId, Some(m.version), m.occurredAt, m.correlationId))
      <==> m.eventType != "" && m.tenantId != "" && m.eventId != "" && m.correlationId != ""
  {
    var h := Some(BuildHeaders(m));
    PrintParse(m.version);
    ParsesIff(h, minted);
    assert Header(h, EVENT_TYPE) == m.eventType && Header(h, TENANT_ID) == m.tenantId
           && Header(h, EVENT_ID) == m.eventId;
    assert Header(h, VERSION) == PrintNat(m.version) && Header(h, OCCURRED_AT) == m.occurredAt
           && Header(h, CORRELATION_ID) == m.correlationId;
  }
}
