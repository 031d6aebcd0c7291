/**
  The SQL tables with their unique indexes and foreign keys, and the Redis keyspace with expiry times. Each function
  is the effect of one statement or command; None is a constraint violation.
 */
module Tables {
  import opened Options
  import opened Bytes
  import opened Envelope

  datatype TenantRow = TenantRow(name: string, active: bool, keyARN: string)

  datatype TokenRow = TokenRow(tenant: string, blindIndex: string, active: bool, lastUsed: Option<int>)

  datatype VaultRow = VaultRow(tenant: string, sealed: SealedPAN, keyID: string)

  /** `tenants`, `tokens` and `vault` are keyed by their unique id; `byBlind` is the index on (tenant, blind index). */
  datatype Tables = Tables(
    tenants: map<string, TenantRow>,
    tokens: map<string, TokenRow>,
    byBlind: map<(string, string), string>,
    vault: map<string, VaultRow>)

  const NAME_WIDTH: nat := 256

  /** How many characters the UTF-8 text `s` has: its bytes without the continuation bytes. */
  function Characters(s: string): (n: nat)
    ensures n <= |s|
  {
    if s == "" then 0
    else Characters(s[..|s| - 1]) + if 0x80 <= s[|s| - 1] as int < 0xC0 then 0 else 1
  }

  /** Text counts part by part, one for each ASCII byte, and one for each leading byte with its continuation bytes. */
  lemma {:induction false} CharactersCount(a: string, b: string)
    ensures Characters(a + b) == Characters(a) + Characters(b)
    ensures (forall i :: 0 <= i < |b| ==> b[i] as int < 128) ==> Characters(b) == |b|
    ensures (forall i :: 0 <= i < |b| ==> b[i] as int / 64 == 2) ==> Characters(b) == 0
    ensures b != "" && b[0] as int >= 192 && (forall i :: 1 <= i < |b| ==> b[i] as int / 64 == 2) ==> Characters(b) == 1
    decreases |b|
  {
    if b == "" {
      assert a + b == a;
    } else {
      var n := |b| - 1;
      assert (a + b)[..|a| + n] == a + b[..n];
      CharactersCount(a, b[..n]);
    }
  }

  function InsertTenant(tb: Tables, id: string, row: TenantRow): Option<Tables> {
    if id in tb.tenants || Characters(row.name) > NAME_WIDTH || Characters(row.keyARN) > NAME_WIDTH then None
    else Some(tb.(tenants := tb.tenants[id := row]))
  }

  function FindTenant(tb: Tables, id: string): Option<TenantRow> {
    if id in tb.tenants then Some(tb.tenants[id]) else None
  }

  function SetTenantInactive(tb: Tables, id: string): Tables {
    if id in tb.tenants then tb.(tenants := tb.tenants[id := tb.tenants[id].(active := false)]) else tb
  }

  function InsertToken(tb: Tables, id: string, row: TokenRow): Option<Tables> {
    if row.tenant !in tb.tenants || id in tb.tokens || (row.tenant, row.blindIndex) in tb.byBlind then None
    else Some(tb.(tokens := tb.tokens[id := row], byBlind := tb.byBlind[(row.tenant, row.blindIndex) := id]))
  }

  function FindByBlindIndex(tb: Tables, tenant: string, blindIndex: string): Option<string> {
    if (tenant, blindIndex) in tb.byBlind then Some(tb.byBlind[(tenant, blindIndex)]) else None
  }

  function FindToken(tb: Tables, tenant: string, id: string): Option<TokenRow> {
    if id in tb.tokens && tb.tokens[id].tenant == tenant then Some(tb.tokens[id]) else None
  }

  function SetTokenInactive(tb: Tables, tenant: string, id: string): Tables {
    if FindToken(tb, tenant, id).None? then tb
    else tb.(tokens := tb.tokens[id := tb.tokens[id].(active := false)])
  }

  function SetLastUsed(tb: Tables, tenant: string, id: string, now: int): Tables {
    if FindToken(tb, tenant, id).None? then tb
    else tb.(tokens := tb.tokens[id := tb.tokens[id].(lastUsed := Some(now))])
  }

  function InsertVaultRow(tb: Tables, id: string, row: VaultRow): Option<Tables> {
    if id !in tb.tokens || id in tb.vault then None
    else Some(tb.(vault := tb.vault[id := row]))
  }

  function FindVaultRow(tb: Tables, tenant: string, id: string): Option<VaultRow> {
    if id in tb.vault && tb.vault[id].tenant == tenant then Some(tb.vault[id]) else None
  }

  /** A Redis key with its time of expiry; None is a key that stays. */
  datatype Entry = Entry(value: Bytes, expires: Option<int>)

  /** The client sends a lifetime only when it is positive. */
  function ExpiryAfter(now: int, ttl: int): Option<int> {
    if ttl > 0 then Some(now + ttl) else None
  }

  predicate Alive(now: int, expires: Option<int>) {
    expires.None? || now < expires.value
  }

  type Keyspace = map<string, Entry>

  function RedisSet(ks: Keyspace, now: int, key: string, value: Bytes, ttl: int): Keyspace {
    ks[key := Entry(value, ExpiryAfter(now, ttl))]
  }

  function RedisGet(ks: Keyspace, now: int, key: string): Option<Bytes> {
    if key in ks && Alive(now, ks[key].expires) then Some(ks[key].value) else None
  }

  /** Whether TTL answers with a time; for a missing key and for one that stays it answers with a negative number. */
  predicate RedisHasTTL(ks: Keyspace, now: int, key: string) {
    key in ks && ks[key].expires.Some? && now < ks[key].expires.value
  }

  function RedisDel(ks: Keyspace, key: string): Keyspace {
    ks - {key}
  }
}
