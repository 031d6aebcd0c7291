/**
  Every request served alone, on any store and with any of its calls failing: the reply, code by code, and the store it
  leaves, row by row and key by key. `LostReply` is a call that took effect although its reply was an error.
 */
module Outcomes {
  import opened Options
  import opened Bytes
  import opened Card
  import opened Identifiers
  import opened Envelope
  import opened Stores
  import opened Requests
  import T = Tables

  /** A step that ends a request. */
  lemma LastStep(env: Env, s: Store, r: Request, pc: Pc, script: Script, s': Store, reply: Reply, at: int)
    requires !pc.Done? && Step(env, s, r, pc, ChoiceAt(script, pc)) == (s', Done(reply, at))
    ensures Complete(env, s, r, pc, script) == (s', reply)
  {
    StepThenComplete(env, s, r, pc, script, s', Done(reply, at));
  }

  // The gate

  /** Requests that pass the tenant gate. */
  predicate Scoped(r: Request) {
    r.Tokenize? || r.Detokenize? || r.GetStatus? || r.Deactivate?
  }

  /** A request of a missing, malformed, unknown or inactive tenant is refused, and so is one whose tenant cannot be read. */
  lemma GateRefuses(env: Env, c: SealedStore, r: Request, script: Script)
    requires Scoped(r)
    ensures var served, tenants := Serve(env, Sealed(c), r, script), c.tables.tenants;
      && (r.tenant == "" ==> served == (Sealed(c), Refused(400, "MISSING_TENANT")))
      && (r.tenant != "" && !ValidTenantID(r.tenant) ==> served == (Sealed(c), Refused(400, "INVALID_TENANT")))
      && (ValidTenantID(r.tenant) && script.gate.fault != Fine ==> served == (Sealed(c), Refused(500, "INTERNAL_ERROR")))
      && (ValidTenantID(r.tenant) && script.gate.fault == Fine && r.tenant !in tenants ==>
            served == (Sealed(c), Refused(404, "TENANT_NOT_FOUND")))
      && (ValidTenantID(r.tenant) && script.gate.fault == Fine && r.tenant in tenants && !tenants[r.tenant].active ==>
            served == (Sealed(c), Refused(403, "FORBIDDEN")))
  {
    var s := Sealed(c);
    if ValidTenantID(r.tenant) {
      GateStep(env, c, r, script.gate);
      var pc' := Step(env, s, r, AtGate, script.gate).1;
      StepThenComplete(env, s, r, AtGate, script, s, pc');
    }
  }

  lemma GateStep(env: Env, c: SealedStore, r: Request, choice: Choice)
    ensures Step(env, Sealed(c), r, AtGate, choice) == (Sealed(c),
      if choice.fault != Fine then Done(Refused(500, "INTERNAL_ERROR"), c.now)
      else if r.tenant !in c.tables.tenants then Done(Refused(404, "TENANT_NOT_FOUND"), c.now)
      else if c.tables.tenants[r.tenant].active then AfterGate(r, c.tables.tenants[r.tenant].keyARN, c.now)
      else Done(Refused(403, "FORBIDDEN"), c.now))
  {
  }

  /** The tenant is known and active, and the gate sees it. */
  predicate Open(c: SealedStore, t: string, script: Script) {
    ValidTenantID(t) && t in c.tables.tenants && c.tables.tenants[t].active && script.gate.fault == Fine
  }

  lemma PastGate(env: Env, c: SealedStore, r: Request, script: Script)
    requires Scoped(r) && Open(c, r.tenant, script)
    ensures Serve(env, Sealed(c), r, script)
         == Complete(env, Sealed(c), r, AfterGate(r, c.tables.tenants[r.tenant].keyARN, c.now), script)
  {
    var pc' := AfterGate(r, c.tables.tenants[r.tenant].keyARN, c.now);
    GateStep(env, c, r, script.gate);
    StepThenComplete(env, Sealed(c), r, AtGate, script, Sealed(c), pc');
  }

  // Detokenize, status and deactivation of a token

  predicate OwnsToken(c: SealedStore, t: string, token: string) {
    token in c.tables.tokens && c.tables.tokens[token].tenant == t
  }

  lemma LookupStep(env: Env, c: SealedStore, r: Request, choice: Choice)
    requires (r.Detokenize? || r.GetStatus? || r.Deactivate?) && choice.fault == Fine
    ensures Step(env, Sealed(c), r, AtFindToken, choice) == (Sealed(c),
      if OwnsToken(c, r.tenant, r.token) then
        var row := c.tables.tokens[r.token];
        if r.Deactivate? then AtStopToken
        else if r.GetStatus? then Done(PANStatus(TokenFacts(row.active, row.lastUsed)), c.now)
        else if row.active then AtReadPAN else Done(Refused(404, "TOKEN_INACTIVE"), c.now)
      else if r.Deactivate? then Done(Refused(404, "TOKEN_NOT_FOUND"), c.now)
      else if r.GetStatus? then AtProbeCVV else AtTakeCVV)
  {
  }

  lemma FailedLookup(env: Env, c: SealedStore, r: Request, choice: Choice)
    requires choice.fault != Fine
    ensures Step(env, Sealed(c), r, AtFindToken, choice) == (Sealed(c), Done(Refused(500, "INTERNAL_ERROR"), c.now))
  {
  }

  lemma LookupFails(env: Env, c: SealedStore, r: Request, script: Script)
    requires Open(c, r.tenant, script) && (r.Detokenize? || r.GetStatus? || r.Deactivate?) && script.find.fault != Fine
    ensures Serve(env, Sealed(c), r, script) == (Sealed(c), Refused(500, "INTERNAL_ERROR"))
  {
    PastGate(env, c, r, script);
    FailedLookup(env, c, r, script.find);
    LastStep(env, Sealed(c), r, AtFindToken, script, Sealed(c), Refused(500, "INTERNAL_ERROR"), c.now);
  }

  /** The PAN in the vault row of a token, "" without a row, None when its key or the record does not open. */
  function StoredIn(env: Env, c: SealedStore, t: string, token: string): Option<string> {
    if token !in c.tables.vault || c.tables.vault[token].tenant != t then Some("")
    else
      var row := c.tables.vault[token].sealed;
      match env.crypto.unwrap(row.wrapped)
      case None => None
      case Some(dek) =>
        match env.crypto.open(dek, row.iv, row.ciphertext + row.tag)
        case None => None
        case Some(plain) => Some(Decode(plain))
  }

  /** The row with the time of its last use. */
  function Used(c: SealedStore, token: string): T.Tables
    requires token in c.tables.tokens
  {
    c.tables.(tokens := c.tables.tokens[token := c.tables.tokens[token].(lastUsed := Some(c.now))])
  }

  lemma ReadStep(env: Env, c: SealedStore, t: string, token: string, choice: Choice)
    ensures var pan := StoredIn(env, c, t, token);
      Step(env, Sealed(c), Detokenize(t, token), AtReadPAN, choice)
        == (Sealed(c), if choice.fault != Fine || pan.None? then Done(Refused(500, "INTERNAL_ERROR"), c.now)
                       else AtTouch(pan.value))
  {
  }

  lemma TouchStep(env: Env, c: SealedStore, t: string, token: string, pan: string, choice: Choice)
    requires OwnsToken(c, t, token)
    ensures Step(env, Sealed(c), Detokenize(t, token), AtTouch(pan), choice)
         == (Sealed(if choice.fault == Fine || choice.fault == LostReply then c.(tables := Used(c, token)) else c),
             Done(Revealed(pan), c.now))
  {
  }

  lemma TouchOutcome(env: Env, c: SealedStore, t: string, token: string, pan: string, script: Script)
    requires OwnsToken(c, t, token)
    ensures Complete(env, Sealed(c), Detokenize(t, token), AtTouch(pan), script)
         == (Sealed(if script.touch.fault == Fine || script.touch.fault == LostReply then c.(tables := Used(c, token)) else c),
             Revealed(pan))
  {
    TouchStep(env, c, t, token, pan, script.touch);
    var s' := Step(env, Sealed(c), Detokenize(t, token), AtTouch(pan), script.touch).0;
    LastStep(env, Sealed(c), Detokenize(t, token), AtTouch(pan), script, s', Revealed(pan), c.now);
  }

  lemma ReadOutcome(env: Env, c: SealedStore, t: string, token: string, script: Script)
    requires OwnsToken(c, t, token)
    ensures var pan, served := StoredIn(env, c, t, token), Complete(env, Sealed(c), Detokenize(t, token), AtReadPAN, script);
      if script.read.fault != Fine || pan.None? then served == (Sealed(c), Refused(500, "INTERNAL_ERROR"))
      else && served.1 == Revealed(pan.value)
           && served.0 == Sealed(if script.touch.fault == Fine || script.touch.fault == LostReply
                                 then c.(tables := Used(c, token)) else c)
  {
    var s, r, pan := Sealed(c), Detokenize(t, token), StoredIn(env, c, t, token);
    ReadStep(env, c, t, token, script.read);
    if script.read.fault != Fine || pan.None? {
      LastStep(env, s, r, AtReadPAN, script, s, Refused(500, "INTERNAL_ERROR"), c.now);
    } else {
      StepThenComplete(env, s, r, AtReadPAN, script, s, AtTouch(pan.value));
      TouchOutcome(env, c, t, token, pan.value, script);
    }
  }

  /**
    Detokenizing a PAN token of the tenant. An inactive one is refused. An active one reveals the PAN that is stored, or ""
    if none is; its last use is noted if that statement is sent, and it does not matter whether it fails.
   */
  lemma DetokenizePANOutcome(env: Env, c: SealedStore, t: string, token: string, script: Script)
    requires Open(c, t, script) && OwnsToken(c, t, token) && script.find.fault == Fine
    ensures var pan, served := StoredIn(env, c, t, token), Serve(env, Sealed(c), Detokenize(t, token), script);
      if !c.tables.tokens[token].active then served == (Sealed(c), Refused(404, "TOKEN_INACTIVE"))
      else if script.read.fault != Fine || pan.None? then served == (Sealed(c), Refused(500, "INTERNAL_ERROR"))
      else && served.1 == Revealed(pan.value)
           && served.0 == Sealed(if script.touch.fault == Fine || script.touch.fault == LostReply
                                 then c.(tables := Used(c, token)) else c)
  {
    var s, r := Sealed(c), Detokenize(t, token);
    PastGate(env, c, r, script);
    LookupStep(env, c, r, script.find);
    var pc' := Step(env, s, r, AtFindToken, script.find).1;
    StepThenComplete(env, s, r, AtFindToken, script, s, pc');
    ReadOutcome(env, c, t, token, script);
  }

  /** The Redis key is there and its time has not come. */
  predicate LiveKey(c: SealedStore, key: string) {
    key in c.keys && (c.keys[key].expires.Some? ==> c.now < c.keys[key].expires.value)
  }

  /** The CVV in a record of a 32-byte key, a 12-byte IV and the ciphertext; "" when it is shorter or does not open. */
  function CVVIn(env: Env, record: Bytes): string {
    if |record| < 44 then ""
    else
      match env.crypto.open(record[..32], record[32..44], record[44..])
      case None => ""
      case Some(plain) => Decode(plain)
  }

  lemma OpensAsCVVIn(env: Env, record: Bytes)
    ensures OpenCVV(env.crypto, record) == CVVIn(env, record)
  {
    if |record| >= 44 {
      assert record[32..][..12] == record[32..44] && record[32..][12..] == record[44..];
    }
  }

  lemma TakeStep(env: Env, c: SealedStore, t: string, token: string, choice: Choice)
    ensures var key, fault := "cvvtok:" + t + ":" + token, choice.fault;
      Step(env, Sealed(c), Detokenize(t, token), AtTakeCVV, choice)
        == (Sealed(if LiveKey(c, key) && (fault == Fine || fault == LostReply) then c.(keys := c.keys - {key}) else c),
            Done(if LiveKey(c, key) && fault == Fine && CVVIn(env, c.keys[key].value) != ""
                 then Revealed(CVVIn(env, c.keys[key].value)) else Refused(404, "TOKEN_NOT_FOUND"), c.now))
  {
    var key := "cvvtok:" + t + ":" + token;
    if key in c.keys {
      OpensAsCVVIn(env, c.keys[key].value);
    }
  }

  /**
    Detokenizing anything else. The CVV under the tenant's key is revealed if the key is alive, the command succeeds and the
    record opens; otherwise the token is not found. A live key is gone whenever the command was sent.
   */
  lemma DetokenizeCVVOutcome(env: Env, c: SealedStore, t: string, token: string, script: Script)
    requires Open(c, t, script) && !OwnsToken(c, t, token) && script.find.fault == Fine
    ensures var served := Serve(env, Sealed(c), Detokenize(t, token), script);
      var key, fault := "cvvtok:" + t + ":" + token, script.take.fault;
      && served.1 == (if LiveKey(c, key) && fault == Fine && CVVIn(env, c.keys[key].value) != ""
                      then Revealed(CVVIn(env, c.keys[key].value)) else Refused(404, "TOKEN_NOT_FOUND"))
      && served.0 == Sealed(if LiveKey(c, key) && (fault == Fine || fault == LostReply) then c.(keys := c.keys - {key}) else c)
  {
    var s, r := Sealed(c), Detokenize(t, token);
    PastGate(env, c, r, script);
    LookupStep(env, c, r, script.find);
    StepThenComplete(env, s, r, AtFindToken, script, s, AtTakeCVV);
    TakeStep(env, c, t, token, script.take);
    var (s', pc') := Step(env, s, r, AtTakeCVV, script.take);
    StepThenComplete(env, s, r, AtTakeCVV, script, s', pc');
  }

  lemma ProbeStep(env: Env, c: SealedStore, t: string, token: string, choice: Choice)
    ensures var key := "cvvtok:" + t + ":" + token;
      Step(env, Sealed(c), GetStatus(t, token), AtProbeCVV, choice)
        == (Sealed(c), Done(if choice.fault == Fine && LiveKey(c, key) && c.keys[key].expires.Some? then CVVActive
                            else Refused(404, "TOKEN_NOT_FOUND"), c.now))
  {
  }

  lemma ProbeOutcome(env: Env, c: SealedStore, t: string, token: string, script: Script)
    ensures var key := "cvvtok:" + t + ":" + token;
      Complete(env, Sealed(c), GetStatus(t, token), AtProbeCVV, script)
        == (Sealed(c), if script.take.fault == Fine && LiveKey(c, key) && c.keys[key].expires.Some? then CVVActive
                       else Refused(404, "TOKEN_NOT_FOUND"))
  {
    ProbeStep(env, c, t, token, script.take);
    var pc' := Step(env, Sealed(c), GetStatus(t, token), AtProbeCVV, script.take).1;
    LastStep(env, Sealed(c), GetStatus(t, token), AtProbeCVV, script, Sealed(c), pc'.reply, c.now);
  }

  /**
    The status of a PAN token of the tenant is its row's; the status of anything else is that of a CVV token if TTL gives a
    time for its key, and otherwise the token is not found.
   */
  lemma StatusOutcome(env: Env, c: SealedStore, t: string, token: string, script: Script)
    requires Open(c, t, script) && script.find.fault == Fine
    ensures var served, key := Serve(env, Sealed(c), GetStatus(t, token), script), "cvvtok:" + t + ":" + token;
      && served.0 == Sealed(c)
      && served.1 == if OwnsToken(c, t, token)
           then PANStatus(TokenFacts(c.tables.tokens[token].active, c.tables.tokens[token].lastUsed))
           else if script.take.fault == Fine && LiveKey(c, key) && c.keys[key].expires.Some? then CVVActive
           else Refused(404, "TOKEN_NOT_FOUND")
  {
    var s, r := Sealed(c), GetStatus(t, token);
    PastGate(env, c, r, script);
    LookupStep(env, c, r, script.find);
    if OwnsToken(c, t, token) {
      var row := c.tables.tokens[token];
      LastStep(env, s, r, AtFindToken, script, s, PANStatus(TokenFacts(row.active, row.lastUsed)), c.now);
    } else {
      StepThenComplete(env, s, r, AtFindToken, script, s, AtProbeCVV);
      ProbeOutcome(env, c, t, token, script);
    }
  }

  /**
    Deactivating a token of the tenant turns its row off, and no other, whenever the update is sent; the caller is told so
    when it succeeds. Any other token is not found.
   */
  lemma DeactivateOutcome(env: Env, c: SealedStore, t: string, token: string, script: Script)
    requires Open(c, t, script) && script.find.fault == Fine
    ensures var served, fault := Serve(env, Sealed(c), Deactivate(t, token), script), script.update.fault;
      if !OwnsToken(c, t, token) then served == (Sealed(c), Refused(404, "TOKEN_NOT_FOUND"))
      else && served.1 == (if fault == Fine then Deactivated else Refused(500, "INTERNAL_ERROR"))
           && served.0 == Sealed(if fault == Fine || fault == LostReply
                then c.(tables := c.tables.(tokens := c.tables.tokens[token := c.tables.tokens[token].(active := false)]))
                else c)
  {
    var s, r := Sealed(c), Deactivate(t, token);
    PastGate(env, c, r, script);
    LookupStep(env, c, r, script.find);
    var pc' := Step(env, s, r, AtFindToken, script.find).1;
    StepThenComplete(env, s, r, AtFindToken, script, s, pc');
    if OwnsToken(c, t, token) {
      StopStep(env, c, t, token, script.update);
      var (s', pc'') := Step(env, s, r, AtStopToken, script.update);
      StepThenComplete(env, s, r, AtStopToken, script, s', pc'');
    }
  }

  lemma StopStep(env: Env, c: SealedStore, t: string, token: string, choice: Choice)
    requires OwnsToken(c, t, token)
    ensures Step(env, Sealed(c), Deactivate(t, token), AtStopToken, choice)
         == (Sealed(if choice.fault == Fine || choice.fault == LostReply
               then c.(tables := c.tables.(tokens := c.tables.tokens[token := c.tables.tokens[token].(active := false)])) else c),
             Done(if choice.fault == Fine then Deactivated else Refused(500, "INTERNAL_ERROR"), c.now))
  {
  }

  // Tenants

  /** Creating a tenant: what is refused before anything is written. */
  lemma CreateTenantRefuses(env: Env, c: SealedStore, t: string, name: string, script: Script)
    ensures var served := Serve(env, Sealed(c), CreateTenant(t, name), script);
      && (!ValidTenantID(t) ==> served == (Sealed(c), Refused(400, "INVALID_TENANT_ID")))
      && (ValidTenantID(t) && name == "" ==> served == (Sealed(c), Refused(400, "MISSING_NAME")))
      && (ValidTenantID(t) && name != "" && script.find.fault != Fine ==> served == (Sealed(c), Refused(500, "INTERNAL_ERROR")))
      && (ValidTenantID(t) && name != "" && script.find.fault == Fine && t in c.tables.tenants ==>
            served == (Sealed(c), Refused(409, "TENANT_EXISTS")))
  {
    var s, r := Sealed(c), CreateTenant(t, name);
    if ValidTenantID(t) && name != "" {
      FindTenantStep(env, c, r, script.find);
      var pc' := Step(env, s, r, AtFindTenant, script.find).1;
      StepThenComplete(env, s, r, AtFindTenant, script, s, pc');
    }
  }

  lemma FindTenantStep(env: Env, c: SealedStore, r: Request, choice: Choice)
    requires r.CreateTenant? || r.DeactivateTenant?
    ensures Step(env, Sealed(c), r, AtFindTenant, choice) == (Sealed(c),
      if choice.fault != Fine then Done(Refused(500, "INTERNAL_ERROR"), c.now)
      else if r.CreateTenant? then
        if r.tenant in c.tables.tenants then Done(Refused(409, "TENANT_EXISTS"), c.now) else AtInsertTenant
      else if r.tenant in c.tables.tenants then AtStopTenant else Done(Refused(404, "TENANT_NOT_FOUND"), c.now))
  {
  }

  /** `c` with an active tenant of that name and key. */
  function NewTenant(c: SealedStore, t: string, name: string, arn: string): SealedStore {
    c.(tables := c.tables.(tenants := c.tables.tenants[t := T.TenantRow(name, true, arn)]))
  }

  /** The insert of a tenant row; a request that lost the race for the id ends with status 500 and writes nothing. */
  lemma InsertTenantStep(env: Env, c: SealedStore, t: string, name: string, choice: Choice)
    ensures var fault, arn := choice.fault, choice.arn;
      var fits := t !in c.tables.tenants && T.Characters(name) <= 256 && T.Characters(arn) <= 256;
      Step(env, Sealed(c), CreateTenant(t, name), AtInsertTenant, choice)
        == (Sealed(if (fault == Fine || fault == LostReply) && fits then NewTenant(c, t, name, arn) else c),
            Done(if fault == NoKey then Refused(503, "SERVICE_UNAVAILABLE")
                 else if fault == Fine && fits then TenantCreated(arn) else Refused(500, "INTERNAL_ERROR"), c.now))
  {
  }

  lemma InsertTenantOutcome(env: Env, c: SealedStore, t: string, name: string, script: Script)
    ensures var fault, arn := script.update.fault, script.update.arn;
      var fits := t !in c.tables.tenants && T.Characters(name) <= 256 && T.Characters(arn) <= 256;
      Complete(env, Sealed(c), CreateTenant(t, name), AtInsertTenant, script)
        == (Sealed(if (fault == Fine || fault == LostReply) && fits then NewTenant(c, t, name, arn) else c),
            if fault == NoKey then Refused(503, "SERVICE_UNAVAILABLE")
            else if fault == Fine && fits then TenantCreated(arn) else Refused(500, "INTERNAL_ERROR"))
  {
    InsertTenantStep(env, c, t, name, script.update);
    var (s', pc') := Step(env, Sealed(c), CreateTenant(t, name), AtInsertTenant, script.update);
    LastStep(env, Sealed(c), CreateTenant(t, name), AtInsertTenant, script, s', pc'.reply, c.now);
  }

  /**
    A new tenant gets an active row with its name and the ARN of its new key, unless the key cannot be made, a text is too
    long or the insert is not sent.
   */
  lemma CreateTenantOutcome(env: Env, c: SealedStore, t: string, name: string, script: Script)
    requires ValidTenantID(t) && name != "" && t !in c.tables.tenants && script.find.fault == Fine
    ensures var served := Serve(env, Sealed(c), CreateTenant(t, name), script);
      var arn, fault := script.update.arn, script.update.fault;
      var fits := T.Characters(name) <= 256 && T.Characters(arn) <= 256;
      && served.1 == (if fault == NoKey then Refused(503, "SERVICE_UNAVAILABLE")
                      else if fault == Fine && fits then TenantCreated(arn) else Refused(500, "INTERNAL_ERROR"))
      && served.0 == Sealed(if (fault == Fine || fault == LostReply) && fits then NewTenant(c, t, name, arn) else c)
  {
    var s, r := Sealed(c), CreateTenant(t, name);
    FindTenantStep(env, c, r, script.find);
    StepThenComplete(env, s, r, AtFindTenant, script, s, AtInsertTenant);
    InsertTenantOutcome(env, c, t, name, script);
  }

  /** `c` with the tenant turned off. */
  function TenantOff(c: SealedStore, t: string): SealedStore
    requires t in c.tables.tenants
  {
    c.(tables := c.tables.(tenants := c.tables.tenants[t := c.tables.tenants[t].(active := false)]))
  }

  lemma StopTenantOutcome(env: Env, c: SealedStore, t: string, script: Script)
    requires t in c.tables.tenants
    ensures var fault := script.update.fault;
      Complete(env, Sealed(c), DeactivateTenant(t), AtStopTenant, script)
        == (Sealed(if fault == Fine || fault == LostReply then TenantOff(c, t) else c),
            if fault == Fine then TenantDeactivated else Refused(500, "INTERNAL_ERROR"))
  {
    var (s', pc') := Step(env, Sealed(c), DeactivateTenant(t), AtStopTenant, script.update);
    LastStep(env, Sealed(c), DeactivateTenant(t), AtStopTenant, script, s', pc'.reply, c.now);
  }

  /** Deactivating a tenant turns its row off, and no other, whenever the update is sent. */
  lemma DeactivateTenantOutcome(env: Env, c: SealedStore, t: string, script: Script)
    ensures var served, fault := Serve(env, Sealed(c), DeactivateTenant(t), script), script.update.fault;
      if script.find.fault != Fine then served == (Sealed(c), Refused(500, "INTERNAL_ERROR"))
      else if t !in c.tables.tenants then served == (Sealed(c), Refused(404, "TENANT_NOT_FOUND"))
      else && served.1 == (if fault == Fine then TenantDeactivated else Refused(500, "INTERNAL_ERROR"))
           && served.0 == Sealed(if fault == Fine || fault == LostReply then TenantOff(c, t) else c)
  {
    var s, r := Sealed(c), DeactivateTenant(t);
    FindTenantStep(env, c, r, script.find);
    if script.find.fault == Fine && t in c.tables.tenants {
      StepThenComplete(env, s, r, AtFindTenant, script, s, AtStopTenant);
      StopTenantOutcome(env, c, t, script);
    } else {
      LastStep(env, s, r, AtFindTenant, script, s,
               Refused(if script.find.fault != Fine then 500 else 404,
                       if script.find.fault != Fine then "INTERNAL_ERROR" else "TENANT_NOT_FOUND"), c.now);
    }
  }

  // One request after another

  /** `c` with the token's row turned off, `d` later. */
  function TokenOffLater(c: SealedStore, token: string, d: nat): SealedStore
    requires token in c.tables.tokens
  {
    c.(tables := c.tables.(tokens := c.tables.tokens[token := c.tables.tokens[token].(active := false)]), now := c.now + d)
  }

  lemma DeactivateSmoothly(env: Env, c: SealedStore, t: string, token: string, d: nat, script: Script)
    requires Open(c, t, script) && OwnsToken(c, t, token) && script.find.fault == Fine && script.update.fault == Fine
    ensures var (s', reply) := Serve(env, Sealed(c), Deactivate(t, token), script);
      reply == Deactivated && Wait(s', d) == Sealed(TokenOffLater(c, token, d))
  {
    DeactivateOutcome(env, c, t, token, script);
  }

  /** Once a token is deactivated, detokenizing it is refused any time later. */
  lemma DeactivateThenDetokenize(env: Env, c: SealedStore, t: string, token: string, d: nat, script: Script, later: Script)
    requires Open(c, t, script) && OwnsToken(c, t, token) && script.find.fault == Fine && script.update.fault == Fine
    requires later.gate.fault == Fine && later.find.fault == Fine
    ensures var (s', reply) := Serve(env, Sealed(c), Deactivate(t, token), script);
      && reply == Deactivated
      && Serve(env, Wait(s', d), Detokenize(t, token), later) == (Wait(s', d), Refused(404, "TOKEN_INACTIVE"))
  {
    DeactivateSmoothly(env, c, t, token, d, script);
    DetokenizePANOutcome(env, TokenOffLater(c, token, d), t, token, later);
  }

  lemma DeactivateTenantSmoothly(env: Env, c: SealedStore, t: string, d: nat, script: Script) returns (after: SealedStore)
    requires t in c.tables.tenants && script.find.fault == Fine && script.update.fault == Fine
    ensures var (s', reply) := Serve(env, Sealed(c), DeactivateTenant(t), script);
      reply == TenantDeactivated && Wait(s', d) == Sealed(after)
    ensures t in after.tables.tenants && !after.tables.tenants[t].active
  {
    DeactivateTenantOutcome(env, c, t, script);
    after := TenantOff(c, t).(now := c.now + d);
  }

  /** Once a tenant is deactivated, all its requests are turned away any time later and change nothing. */
  lemma DeactivateTenantThenAsk(env: Env, c: SealedStore, t: string, r: Request, d: nat, script: Script, later: Script)
    requires ValidTenantID(t) && t in c.tables.tenants && script.find.fault == Fine && script.update.fault == Fine
    requires Scoped(r) && r.tenant == t && later.gate.fault == Fine
    ensures var (s', reply) := Serve(env, Sealed(c), DeactivateTenant(t), script);
      && reply == TenantDeactivated
      && Serve(env, Wait(s', d), r, later) == (Wait(s', d), Refused(403, "FORBIDDEN"))
  {
    var after := DeactivateTenantSmoothly(env, c, t, d, script);
    GateRefuses(env, after, r, later);
  }
}
