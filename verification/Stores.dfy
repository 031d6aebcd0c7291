/**
  Two stores with one interface. `Sealed` is what the service runs on: SQL rows with blind indexes and sealed PANs,
  and Redis strings holding framed ciphertexts. `Plain` is what it stands for: PANs and CVVs in maps keyed by tenant
  and token. `Exec` runs one statement or command on either.
 */
module Stores {
  import opened Options
  import opened Bytes
  import opened Identifiers
  import opened Envelope
  import T = Tables

  /** The CVV lifetime, the crypto in use, and every text hashed into a blind index. */
  datatype Env = Env(crypto: Crypto, ttl: int, used: set<string>)

  datatype SealedStore = SealedStore(now: int, tables: T.Tables, keys: T.Keyspace)

  datatype PlainToken = PlainToken(tenant: string, pan: string, active: bool, lastUsed: Option<int>)

  datatype PlainPAN = PlainPAN(tenant: string, pan: string, keyID: string)

  datatype Timed = Timed(value: string, expires: Option<int>)

  /** `cvvs` is keyed by tenant and CVV token, `owners` by tenant and PAN token. */
  datatype PlainStore = PlainStore(
    now: int,
    tenants: map<string, T.TenantRow>,
    tokens: map<string, PlainToken>,
    byPan: map<(string, string), string>,
    vault: map<string, PlainPAN>,
    cvvs: map<(string, string), Timed>,
    owners: map<(string, string), Timed>)

  datatype Store = Sealed(sealed: SealedStore) | Plain(plain: PlainStore)

  /** One call to a repository, together with the pure encoding work around it. */
  datatype Call =
    | FindTenant(tenant: string)
    | InsertTenant(tenant: string, name: string, arn: string)
    | StopTenant(tenant: string)
    | FindByPAN(tenant: string, pan: string)
    | InsertToken(tenant: string, token: string, pan: string)
    | InsertPAN(tenant: string, token: string, pan: string, arn: string, sealing: Sealing)
    | FindToken(tenant: string, token: string)
    | StopToken(tenant: string, token: string)
    | Touch(tenant: string, token: string)
    | ReadPAN(tenant: string, token: string)
    | PutCVV(tenant: string, token: string, cvv: string, sealing: Sealing)
    | TakeCVV(tenant: string, token: string)
    | ProbeCVV(tenant: string, token: string)
    | GetOwner(tenant: string, panToken: string)
    | DropCVV(tenant: string, token: string)
    | SetOwner(tenant: string, panToken: string, token: string)

  datatype Answer =
    | Failed
    | KeyFailed
    | Ack
    | TenantIs(row: Option<T.TenantRow>)
    | TokenFor(token: Option<string>)
    | TokenIs(facts: Option<TokenFacts>)
    | Value(value: string)
    | Present(yes: bool)
    | OwnerIs(owner: Option<string>)

  datatype TokenFacts = TokenFacts(active: bool, lastUsed: Option<int>)

  /**
    What goes wrong with one call: nothing; it never takes effect; it takes effect but the reply is an error; or the
    key service or the random source fails in its place.
   */
  datatype Fault = Fine | Lost | LostReply | NoKey

  function Now(s: Store): int {
    match s
    case Sealed(c) => c.now
    case Plain(p) => p.now
  }

  function Exec(env: Env, s: Store, call: Call, fault: Fault): (Store, Answer) {
    if fault == Lost then (s, Failed)
    else if fault == NoKey then (s, KeyFailed)
    else
      var (s', answer) := Apply(env, s, call);
      (s', if fault == LostReply then Failed else answer)
  }

  function Apply(env: Env, s: Store, call: Call): (Store, Answer) {
    match s
    case Sealed(c) => var (c', answer) := ApplySealed(env, c, call); (Sealed(c'), answer)
    case Plain(p) => var (p', answer) := ApplyPlain(env, p, call); (Plain(p'), answer)
  }

  function Wait(s: Store, d: nat): Store {
    match s
    case Sealed(c) => Sealed(c.(now := c.now + d))
    case Plain(p) => Plain(p.(now := p.now + d))
  }

  function Inserted(c: SealedStore, tb: Option<T.Tables>): (SealedStore, Answer) {
    match tb
    case None => (c, Failed)
    case Some(tb) => (c.(tables := tb), Ack)
  }

  function Facts(row: Option<T.TokenRow>): Option<TokenFacts> {
    match row
    case None => None
    case Some(row) => Some(TokenFacts(row.active, row.lastUsed))
  }

  function ApplySealed(env: Env, c: SealedStore, call: Call): (SealedStore, Answer) {
    var tb := c.tables;
    match call
    case FindTenant(t) => (c, TenantIs(T.FindTenant(tb, t)))
    case InsertTenant(t, name, arn) => Inserted(c, T.InsertTenant(tb, t, T.TenantRow(name, true, arn)))
    case StopTenant(t) => (c.(tables := T.SetTenantInactive(tb, t)), Ack)
    case FindByPAN(t, pan) => (c, TokenFor(T.FindByBlindIndex(tb, t, BlindIndex(env.crypto, t, pan))))
    case InsertToken(t, token, pan) =>
      Inserted(c, T.InsertToken(tb, token, T.TokenRow(t, BlindIndex(env.crypto, t, pan), true, None)))
    case InsertPAN(t, token, pan, arn, sealing) =>
      Inserted(c, T.InsertVaultRow(tb, token, T.VaultRow(t, SealPAN(env.crypto, pan, arn, sealing), arn)))
    case FindToken(t, token) => (c, TokenIs(Facts(T.FindToken(tb, t, token))))
    case StopToken(t, token) => (c.(tables := T.SetTokenInactive(tb, t, token)), Ack)
    case Touch(t, token) => (c.(tables := T.SetLastUsed(tb, t, token, c.now)), Ack)
    case ReadPAN(t, token) => (c, PANAnswer(env, T.FindVaultRow(tb, t, token)))
    case PutCVV(t, token, cvv, sealing) =>
      var value := SealCVV(env.crypto, cvv, sealing);
      (c.(keys := T.RedisSet(c.keys, c.now, CvvTokenKey(t, token), value, env.ttl)), Ack)
    case TakeCVV(t, token) =>
      var key := CvvTokenKey(t, token);
      (match T.RedisGet(c.keys, c.now, key)
       case None => (c, Value(""))
       case Some(combined) => (c.(keys := T.RedisDel(c.keys, key)), Value(OpenCVV(env.crypto, combined))))
    case ProbeCVV(t, token) => (c, Present(T.RedisHasTTL(c.keys, c.now, CvvTokenKey(t, token))))
    case GetOwner(t, panToken) =>
      (match T.RedisGet(c.keys, c.now, CvvOwnerKey(t, panToken))
       case None => (c, OwnerIs(None))
       case Some(id) => (c, OwnerIs(Some(Decode(id)))))
    case DropCVV(t, token) => (c.(keys := T.RedisDel(c.keys, CvvTokenKey(t, token))), Ack)
    case SetOwner(t, panToken, token) =>
      (c.(keys := T.RedisSet(c.keys, c.now, CvvOwnerKey(t, panToken), Encode(token), env.ttl)), Ack)
  }

  function PANAnswer(env: Env, row: Option<T.VaultRow>): Answer {
    match row
    case None => Value("")
    case Some(row) =>
      match OpenPAN(env.crypto, row.sealed)
      case None => Failed
      case Some(pan) => Value(pan)
  }

  predicate HasToken(p: PlainStore, t: string, token: string) {
    token in p.tokens && p.tokens[token].tenant == t
  }

  predicate LiveCVV(p: PlainStore, t: string, token: string) {
    (t, token) in p.cvvs && T.Alive(p.now, p.cvvs[(t, token)].expires)
  }

  predicate LiveOwner(p: PlainStore, t: string, panToken: string) {
    (t, panToken) in p.owners && T.Alive(p.now, p.owners[(t, panToken)].expires)
  }

  function ApplyPlain(env: Env, p: PlainStore, call: Call): (PlainStore, Answer) {
    match call
    case FindTenant(t) => (p, TenantIs(if t in p.tenants then Some(p.tenants[t]) else None))
    case InsertTenant(t, name, arn) =>
      if t in p.tenants || T.Characters(name) > T.NAME_WIDTH || T.Characters(arn) > T.NAME_WIDTH then (p, Failed)
      else (p.(tenants := p.tenants[t := T.TenantRow(name, true, arn)]), Ack)
    case StopTenant(t) =>
      (if t in p.tenants then p.(tenants := p.tenants[t := p.tenants[t].(active := false)]) else p, Ack)
    case FindByPAN(t, pan) => (p, TokenFor(if (t, pan) in p.byPan then Some(p.byPan[(t, pan)]) else None))
    case InsertToken(t, token, pan) =>
      if t !in p.tenants || token in p.tokens || (t, pan) in p.byPan then (p, Failed)
      else (p.(tokens := p.tokens[token := PlainToken(t, pan, true, None)], byPan := p.byPan[(t, pan) := token]), Ack)
    case InsertPAN(t, token, pan, arn, _) =>
      if token !in p.tokens || token in p.vault then (p, Failed)
      else (p.(vault := p.vault[token := PlainPAN(t, pan, arn)]), Ack)
    case FindToken(t, token) =>
      (p, TokenIs(if HasToken(p, t, token)
                  then Some(TokenFacts(p.tokens[token].active, p.tokens[token].lastUsed)) else None))
    case StopToken(t, token) =>
      (if HasToken(p, t, token) then p.(tokens := p.tokens[token := p.tokens[token].(active := false)]) else p, Ack)
    case Touch(t, token) =>
      (if HasToken(p, t, token) then p.(tokens := p.tokens[token := p.tokens[token].(lastUsed := Some(p.now))]) else p,
       Ack)
    case ReadPAN(t, token) =>
      (p, Value(if token in p.vault && p.vault[token].tenant == t then p.vault[token].pan else ""))
    case PutCVV(t, token, cvv, _) => (p.(cvvs := p.cvvs[(t, token) := Timed(cvv, T.ExpiryAfter(p.now, env.ttl))]), Ack)
    case TakeCVV(t, token) =>
      if LiveCVV(p, t, token) then (p.(cvvs := p.cvvs - {(t, token)}), Value(p.cvvs[(t, token)].value))
      else (p, Value(""))
    case ProbeCVV(t, token) => (p, Present(LiveCVV(p, t, token) && p.cvvs[(t, token)].expires.Some?))
    case GetOwner(t, panToken) =>
      (p, OwnerIs(if LiveOwner(p, t, panToken) then Some(p.owners[(t, panToken)].value) else None))
    case DropCVV(t, token) => (p.(cvvs := p.cvvs - {(t, token)}), Ack)
    case SetOwner(t, panToken, token) =>
      (p.(owners := p.owners[(t, panToken) := Timed(token, T.ExpiryAfter(p.now, env.ttl))]), Ack)
  }
}
