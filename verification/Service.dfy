/**
  The remaining handlers of the tokenizer, the tenant gate in front of them, and the service that ties them together.
 */
module Service {
  import opened Options
  import opened Bytes
  import opened Identifiers
  import opened Envelope
  import opened Stores
  import opened Requests
  import opened Storage
  import opened Lookups
  import opened Handlers
  import T = Tables

  class DetokenizeHandler {
    const tokenRepo: TokenRepo
    const vaultRepo: VaultRepo
    const cvvStore: CVVStore
    const env: Env

    ghost predicate Valid() {
      vaultRepo.pool == tokenRepo.pool
    }

    constructor (tokenRepo: TokenRepo, vaultRepo: VaultRepo, cvvStore: CVVStore, env: Env)
      requires vaultRepo.pool == tokenRepo.pool
      ensures Valid() && this.tokenRepo == tokenRepo && this.cvvStore == cvvStore && this.env == env
    {
      this.tokenRepo, this.vaultRepo, this.cvvStore, this.env := tokenRepo, vaultRepo, cvvStore, env;
    }

    function View(): Store
      reads tokenRepo.pool, cvvStore.client
    {
      ViewOf(tokenRepo.pool, cvvStore.client)
    }

    /** The PAN, "" when there is no vault row, None when the row cannot be read or opened; the key is wiped on the way out. */
    method DecryptPAN(tenant: string, token: string, fault: Fault) returns (pan: Option<string>)
      requires Valid()
      ensures var answer := Exec(env, View(), ReadPAN(tenant, token), fault).1;
        pan == if answer.Value? then Some(answer.value) else None
    {
      if fault == NoKey {
        return None;
      }
      var ok, found := vaultRepo.FindByTokenID(tenant, token, fault);
      if !ok {
        return None;
      }
      match found
      case None => return Some("");
      case Some(row) =>
        var unwrapped := env.crypto.unwrap(row.sealed.wrapped);
        match unwrapped
        case None => return None;
        case Some(key) =>
          var dek := new byte[|key|](i requires 0 <= i < |key| => key[i]);
          assert dek[..] == key;
          var fullCiphertext := row.sealed.ciphertext + row.sealed.tag;
          var plain := env.crypto.open(dek[..], row.sealed.iv, fullCiphertext);
          ClearBytes(dek);
          return if plain.None? then None else Some(Decode(plain.value));
    }

    /** Takes the CVV token; "" when it is missing, expired, unreadable or the command failed. */
    method RetrieveCVVToken(tenant: string, token: string, fault: Fault) returns (cvv: string)
      modifies cvvStore.client`keys
      ensures View() == Exec(env, old(View()), TakeCVV(tenant, token), fault).0
      ensures var answer := Exec(env, old(View()), TakeCVV(tenant, token), fault).1;
        cvv == if answer.Value? then answer.value else ""
    {
      var ok, stored := cvvStore.RetrieveCVVToken(tenant, token, fault);
      if !ok || stored.None? {
        return "";
      }
      var combined := new byte[|stored.value|](i requires 0 <= i < |stored.value| => stored.value[i]);
      assert combined[..] == stored.value;
      cvv := OpenCVVInPlace(env.crypto, combined);
    }

    /** The PAN token is active: decrypt, note the use, answer. */
    method RevealPAN(r: Request, script: Script) returns (reply: Reply)
      requires Valid() && r.Detokenize?
      modifies tokenRepo.pool
      ensures Complete(env, old(View()), r, AtReadPAN, script) == (View(), reply)
    {
      ghost var s0 := View();
      var pan := DecryptPAN(r.tenant, r.token, script.read.fault);
      if pan.None? {
        assert Step(env, s0, r, AtReadPAN, script.read) == (s0, Done(INTERNAL, Now(s0)));
        return INTERNAL;
      }
      assert Step(env, s0, r, AtReadPAN, script.read) == (s0, AtTouch(pan.value));
      StepThenComplete(env, s0, r, AtReadPAN, script, s0, AtTouch(pan.value));
      tokenRepo.UpdateLastUsed(r.tenant, r.token, cvvStore.client.now, script.touch.fault);
      assert Step(env, s0, r, AtTouch(pan.value), script.touch) == (View(), Done(Revealed(pan.value), Now(s0)));
      return Revealed(pan.value);
    }

    method ServeHTTP(r: Request, script: Script) returns (reply: Reply)
      requires Valid() && r.Detokenize?
      modifies tokenRepo.pool, cvvStore.client`keys
      ensures Complete(env, old(View()), r, AtFindToken, script) == (View(), reply)
    {
      ghost var s0 := View();
      var ok, token := tokenRepo.FindByTokenID(r.tenant, r.token, script.find.fault);
      if !ok {
        assert Step(env, s0, r, AtFindToken, script.find) == (s0, Done(INTERNAL, Now(s0)));
        return INTERNAL;
      }
      if token.Some? {
        if !token.value.active {
          assert Step(env, s0, r, AtFindToken, script.find) == (s0, Done(Refused(404, "TOKEN_INACTIVE"), Now(s0)));
          return Refused(404, "TOKEN_INACTIVE");
        }
        assert Step(env, s0, r, AtFindToken, script.find) == (s0, AtReadPAN);
        StepThenComplete(env, s0, r, AtFindToken, script, s0, AtReadPAN);
        reply := RevealPAN(r, script);
        return;
      }
      assert Step(env, s0, r, AtFindToken, script.find) == (s0, AtTakeCVV);
      StepThenComplete(env, s0, r, AtFindToken, script, s0, AtTakeCVV);
      var cvv := RetrieveCVVToken(r.tenant, r.token, script.take.fault);
      reply := if cvv != "" then Revealed(cvv) else TOKEN_NOT_FOUND;
      assert Step(env, s0, r, AtTakeCVV, script.take) == (View(), Done(reply, Now(s0)));
    }
  }

  class TokenManageHandler {
    const tokenRepo: TokenRepo
    const cvvStore: CVVStore
    const env: Env

    constructor (tokenRepo: TokenRepo, cvvStore: CVVStore, env: Env)
      ensures this.tokenRepo == tokenRepo && this.cvvStore == cvvStore && this.env == env
    {
      this.tokenRepo, this.cvvStore, this.env := tokenRepo, cvvStore, env;
    }

    function View(): Store
      reads tokenRepo.pool, cvvStore.client
    {
      ViewOf(tokenRepo.pool, cvvStore.client)
    }

    /** Has no `modifies` clause: asking for a status writes nothing. */
    method GetStatus(r: Request, script: Script) returns (reply: Reply)
      requires r.GetStatus?
      ensures Complete(env, View(), r, AtFindToken, script) == (View(), reply)
    {
      ghost var s := View();
      var ok, token := tokenRepo.FindByTokenID(r.tenant, r.token, script.find.fault);
      if !ok {
        reply := INTERNAL;
        assert Step(env, s, r, AtFindToken, script.find) == (s, Done(reply, Now(s)));
        return;
      }
      if token.Some? {
        reply := PANStatus(TokenFacts(token.value.active, token.value.lastUsed));
        assert Step(env, s, r, AtFindToken, script.find) == (s, Done(reply, Now(s)));
        return;
      }
      assert Step(env, s, r, AtFindToken, script.find) == (s, AtProbeCVV);
      StepThenComplete(env, s, r, AtFindToken, script, s, AtProbeCVV);
      var exists_ := cvvStore.ExistsCVVToken(r.tenant, r.token, script.take.fault);
      reply := if exists_ then CVVActive else TOKEN_NOT_FOUND;
      assert Step(env, s, r, AtProbeCVV, script.take) == (s, Done(reply, Now(s)));
    }

    method Deactivate(r: Request, script: Script) returns (reply: Reply)
      requires r.Deactivate?
      modifies tokenRepo.pool
      ensures Complete(env, old(View()), r, AtFindToken, script) == (View(), reply)
    {
      ghost var s0 := View();
      var ok, token := tokenRepo.FindByTokenID(r.tenant, r.token, script.find.fault);
      if !ok || token.None? {
        reply := if ok then TOKEN_NOT_FOUND else INTERNAL;
        assert Step(env, s0, r, AtFindToken, script.find) == (s0, Done(reply, Now(s0)));
        return;
      }
      assert Step(env, s0, r, AtFindToken, script.find) == (s0, AtStopToken);
      StepThenComplete(env, s0, r, AtFindToken, script, s0, AtStopToken);
      var stopped := tokenRepo.UpdateStatusInactive(r.tenant, r.token, script.update.fault);
      reply := if stopped then Deactivated else INTERNAL;
      assert Step(env, s0, r, AtStopToken, script.update) == (View(), Done(reply, Now(s0)));
    }
  }

  class TenantHandler {
    const tenantRepo: TenantRepo
    const client: RedisServer
    const env: Env

    /** `client` only shows the clock: tenant rows are all this handler writes. */
    constructor (tenantRepo: TenantRepo, client: RedisServer, env: Env)
      ensures this.tenantRepo == tenantRepo && this.client == client && this.env == env
    {
      this.tenantRepo, this.client, this.env := tenantRepo, client, env;
    }

    function View(): Store
      reads tenantRepo.pool, client
    {
      ViewOf(tenantRepo.pool, client)
    }

    /** Check the request, look for the tenant, make its key, insert its row. */
    method Create(r: Request, script: Script) returns (reply: Reply)
      requires r.CreateTenant?
      modifies tenantRepo.pool
      ensures Serve(env, old(View()), r, script) == (View(), reply)
    {
      ghost var s0 := View();
      if !ValidTenantID(r.tenant) {
        return Refused(400, "INVALID_TENANT_ID");
      }
      if r.name == "" {
        return Refused(400, "MISSING_NAME");
      }
      var ok, existing := tenantRepo.FindByTenantID(r.tenant, script.find.fault);
      if !ok || existing.Some? {
        reply := if ok then Refused(409, "TENANT_EXISTS") else INTERNAL;
        assert Step(env, s0, r, AtFindTenant, script.find) == (s0, Done(reply, Now(s0)));
        return;
      }
      assert Step(env, s0, r, AtFindTenant, script.find) == (s0, AtInsertTenant);
      StepThenComplete(env, s0, r, AtFindTenant, script, s0, AtInsertTenant);
      reply := InsertTenantRow(r, script);
    }

    method InsertTenantRow(r: Request, script: Script) returns (reply: Reply)
      requires r.CreateTenant?
      modifies tenantRepo.pool
      ensures Complete(env, old(View()), r, AtInsertTenant, script) == (View(), reply)
    {
      ghost var s0 := View();
      if script.update.fault == NoKey {
        assert Step(env, s0, r, AtInsertTenant, script.update) == (s0, Done(UNAVAILABLE, Now(s0)));
        return UNAVAILABLE;
      }
      var ok := tenantRepo.Create(r.tenant, T.TenantRow(r.name, true, script.update.arn), script.update.fault);
      reply := if ok then TenantCreated(script.update.arn) else INTERNAL;
      assert Step(env, s0, r, AtInsertTenant, script.update) == (View(), Done(reply, Now(s0)));
    }

    method Deactivate(r: Request, script: Script) returns (reply: Reply)
      requires r.DeactivateTenant?
      modifies tenantRepo.pool
      ensures Serve(env, old(View()), r, script) == (View(), reply)
    {
      ghost var s0 := View();
      var ok, tenant := tenantRepo.FindByTenantID(r.tenant, script.find.fault);
      if !ok || tenant.None? {
        reply := if ok then TENANT_NOT_FOUND else INTERNAL;
        assert Step(env, s0, r, AtFindTenant, script.find) == (s0, Done(reply, Now(s0)));
        return;
      }
      assert Step(env, s0, r, AtFindTenant, script.find) == (s0, AtStopTenant);
      StepThenComplete(env, s0, r, AtFindTenant, script, s0, AtStopTenant);
      var stopped := tenantRepo.UpdateStatusInactive(r.tenant, script.update.fault);
      reply := if stopped then TenantDeactivated else INTERNAL;
      assert Step(env, s0, r, AtStopTenant, script.update) == (View(), Done(reply, Now(s0)));
    }
  }

  /** The tokenizer: one database, one Redis server, and the handlers over them. */
  class Tokenizer {
    const db: Postgres
    const redis: RedisServer
    const env: Env
    const tenantRepo: TenantRepo
    const tokenize: TokenizeHandler
    const detokenize: DetokenizeHandler
    const manage: TokenManageHandler
    const tenants: TenantHandler

    ghost predicate Valid() {
      && tenantRepo.pool == tokenize.tokenRepo.pool == detokenize.tokenRepo.pool == manage.tokenRepo.pool == db
      && tenants.tenantRepo.pool == db && tenants.client == redis
      && tokenize.cvvStore.client == detokenize.cvvStore.client == manage.cvvStore.client == redis
      && tokenize.env == detokenize.env == manage.env == tenants.env == env
      && tokenize.Valid() && detokenize.Valid()
    }

    constructor (db: Postgres, redis: RedisServer, env: Env)
      requires Lawful(env.crypto, env.used)
      ensures Valid() && this.db == db && this.redis == redis && this.env == env
    {
      var tenantRepo := new TenantRepo(db);
      var tokenRepo := new TokenRepo(db);
      var vaultRepo := new VaultRepo(db);
      var cvvStore := new CVVStore(redis);
      this.db, this.redis, this.env, this.tenantRepo := db, redis, env, tenantRepo;
      tokenize := new TokenizeHandler(tokenRepo, vaultRepo, cvvStore, env);
      detokenize := new DetokenizeHandler(tokenRepo, vaultRepo, cvvStore, env);
      manage := new TokenManageHandler(tokenRepo, cvvStore, env);
      tenants := new TenantHandler(tenantRepo, redis, env);
    }

    function View(): Store
      reads db, redis
    {
      ViewOf(db, redis)
    }

    /** The gate: a tenant-scoped request goes on only for a well-formed id of an active tenant, whose key ARN it gets. */
    method RequireTenant(r: Request, script: Script) returns (refusal: Option<Reply>, arn: string)
      requires Valid() && !r.CreateTenant? && !r.DeactivateTenant?
      ensures Serve(env, View(), r, script) == (match refusal
        case Some(reply) => (View(), reply)
        case None => Complete(env, View(), r, AfterGate(r, arn, redis.now), script))
      ensures refusal.None? ==> ValidTenantID(r.tenant) && r.tenant in db.tenants && db.tenants[r.tenant].active
    {
      ghost var s := View();
      arn := "";
      if r.tenant == "" {
        return Some(Refused(400, "MISSING_TENANT")), arn;
      }
      if !ValidTenantID(r.tenant) {
        return Some(Refused(400, "INVALID_TENANT")), arn;
      }
      var ok, tenant := tenantRepo.FindByTenantID(r.tenant, script.gate.fault);
      GateProgram(env, s.sealed, r, script);
      if !ok {
        return Some(INTERNAL), arn;
      }
      if tenant.None? {
        return Some(TENANT_NOT_FOUND), arn;
      }
      if !tenant.value.active {
        return Some(Refused(403, "FORBIDDEN")), arn;
      }
      return None, tenant.value.keyARN;
    }

    /** A request served alone leaves the store and gets the reply that the step program gives. */
    method ServeHTTP(r: Request, script: Script) returns (reply: Reply)
      requires Valid()
      requires r.Tokenize? ==> ValidSealing(script.insert.sealing) && |script.put.sealing.dek| == DEK_SIZE
      modifies db, redis`keys
      ensures Serve(env, old(View()), r, script) == (View(), reply)
    {
      match r
      case CreateTenant(_, _) => reply := tenants.Create(r, script);
      case DeactivateTenant(_) => reply := tenants.Deactivate(r, script);
      case _ => reply := ServeScoped(r, script);
    }

    method ServeScoped(r: Request, script: Script) returns (reply: Reply)
      requires Valid() && !r.CreateTenant? && !r.DeactivateTenant?
      requires r.Tokenize? ==> ValidSealing(script.insert.sealing) && |script.put.sealing.dek| == DEK_SIZE
      modifies db, redis`keys
      ensures Serve(env, old(View()), r, script) == (View(), reply)
    {
      var refusal, arn := RequireTenant(r, script);
      if refusal.Some? {
        return refusal.value;
      }
      match r
      case Tokenize(_, _) => reply := tokenize.ServeHTTP(r, arn, script);
      case Detokenize(_, _) => reply := detokenize.ServeHTTP(r, script);
      case GetStatus(_, _) => reply := manage.GetStatus(r, script);
      case Deactivate(_, _) => reply := manage.Deactivate(r, script);
    }
  }

  /** What the program does at the gate. */
  lemma GateProgram(env: Env, c: SealedStore, r: Request, script: Script)
    ensures var s := Sealed(c);
      Complete(env, s, r, AtGate, script)
        == if script.gate.fault != Fine then (s, INTERNAL)
           else match T.FindTenant(c.tables, r.tenant)
                case None => (s, TENANT_NOT_FOUND)
                case Some(row) =>
                  if row.active then Complete(env, s, r, AfterGate(r, row.keyARN, c.now), script)
                  else (s, Refused(403, "FORBIDDEN"))
  {
    var s, row := Sealed(c), T.FindTenant(c.tables, r.tenant);
    var pc' := if script.gate.fault != Fine then Done(INTERNAL, c.now)
               else if row.None? then Done(TENANT_NOT_FOUND, c.now)
               else if row.value.active then AfterGate(r, row.value.keyARN, c.now)
               else Done(Refused(403, "FORBIDDEN"), c.now);
    assert Step(env, s, r, AtGate, script.gate) == (s, pc');
    StepThenComplete(env, s, r, AtGate, script, s, pc');
  }
}
