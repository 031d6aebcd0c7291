/** Detokenize and status requests that run alone: what they find, in terms of the plain store. */
module Lookups {
  import opened Options
  import opened Identifiers
  import opened Envelope
  import opened Stores
  import opened Refinement
  import opened Requests
  import opened Machine
  import opened Lockstep
  import opened Invariants
  import opened Guarantees
  import T = Tables

  predicate AllFine(script: Script) {
    && script.gate.fault == Fine && script.find.fault == Fine && script.insert.fault == Fine
    && script.insertPAN.fault == Fine && script.put.fault == Fine && script.getOwner.fault == Fine
    && script.drop.fault == Fine && script.setOwner.fault == Fine && script.read.fault == Fine
    && script.touch.fault == Fine && script.take.fault == Fine && script.update.fault == Fine
  }

  predicate Admitted(p: PlainStore, t: string) {
    ValidTenantID(t) && t in p.tenants && p.tenants[t].active
  }

  predicate ActivePAN(p: PlainStore, t: string, token: string) {
    HasToken(p, t, token) && p.tokens[token].active
  }

  /** No CVV on store is the empty string. */
  ghost predicate NoEmptyCVV(p: PlainStore) {
    forall k :: k in p.cvvs ==> p.cvvs[k].value != ""
  }

  /** What a detokenize request finds: the store it leaves and the value, if any. */
  function Resolve(p: PlainStore, t: string, token: string): (PlainStore, Option<string>) {
    if !Admitted(p, t) then (p, None)
    else if HasToken(p, t, token) then
      if p.tokens[token].active
      then (p.(tokens := p.tokens[token := p.tokens[token].(lastUsed := Some(p.now))]), Some(StoredPAN(p, t, token)))
      else (p, None)
    else if LiveCVV(p, t, token) then (p.(cvvs := p.cvvs - {(t, token)}), Some(p.cvvs[(t, token)].value))
    else (p, None)
  }

  function StoredPAN(p: PlainStore, t: string, token: string): string {
    if token in p.vault && p.vault[token].tenant == t then p.vault[token].pan else ""
  }

  predicate Gives(reply: Reply, value: Option<string>) {
    if value.Some? then reply == Revealed(value.value) else reply.Refused?
  }

  /** The request that found its active row goes on to the PAN. */
  lemma ReadsPAN(env: Env, p: PlainStore, t: string, token: string, script: Script)
    requires AllFine(script) && ActivePAN(p, t, token)
    ensures Complete(env, Plain(p), Detokenize(t, token), AtReadPAN, script)
         == (Plain(p.(tokens := p.tokens[token := p.tokens[token].(lastUsed := Some(p.now))])), Revealed(StoredPAN(p, t, token)))
  {
    var r, v := Detokenize(t, token), StoredPAN(p, t, token);
    assert Step(env, Plain(p), r, AtReadPAN, script.read) == (Plain(p), AtTouch(v));
    var touched := p.(tokens := p.tokens[token := p.tokens[token].(lastUsed := Some(p.now))]);
    assert Step(env, Plain(p), r, AtTouch(v), script.touch) == (Plain(touched), Done(Revealed(v), p.now));
  }

  lemma TakesCVV(env: Env, p: PlainStore, t: string, token: string, script: Script)
    requires AllFine(script) && NoEmptyCVV(p)
    ensures var (s', reply) := Complete(env, Plain(p), Detokenize(t, token), AtTakeCVV, script);
      if LiveCVV(p, t, token)
      then s' == Plain(p.(cvvs := p.cvvs - {(t, token)})) && reply == Revealed(p.cvvs[(t, token)].value)
      else s' == Plain(p) && reply == TOKEN_NOT_FOUND
  {
    var r, s := Detokenize(t, token), Plain(p);
    var (s', pc') := if LiveCVV(p, t, token)
      then (Plain(p.(cvvs := p.cvvs - {(t, token)})), Done(Revealed(p.cvvs[(t, token)].value), p.now))
      else (s, Done(TOKEN_NOT_FOUND, p.now));
    assert Step(env, s, r, AtTakeCVV, script.take) == (s', pc');
    StepThenComplete(env, s, r, AtTakeCVV, script, s', pc');
  }

  lemma LooksUpToken(env: Env, p: PlainStore, t: string, token: string, c: Choice)
    requires c.fault == Fine
    ensures Step(env, Plain(p), Detokenize(t, token), AtFindToken, c)
         == (Plain(p), if ActivePAN(p, t, token) then AtReadPAN
                       else if HasToken(p, t, token) then Done(Refused(404, "TOKEN_INACTIVE"), p.now)
                       else AtTakeCVV)
  {
  }

  lemma FindsToken(env: Env, p: PlainStore, t: string, token: string, script: Script)
    requires AllFine(script) && NoEmptyCVV(p) && Admitted(p, t)
    ensures Complete(env, Plain(p), Detokenize(t, token), AtFindToken, script).0 == Plain(Resolve(p, t, token).0)
    ensures Gives(Complete(env, Plain(p), Detokenize(t, token), AtFindToken, script).1, Resolve(p, t, token).1)
  {
    var r, s := Detokenize(t, token), Plain(p);
    LooksUpToken(env, p, t, token, script.find);
    var pc' := Step(env, s, r, AtFindToken, script.find).1;
    StepThenComplete(env, s, r, AtFindToken, script, s, pc');
    AfterLookup(env, p, t, token, script, pc');
  }

  lemma AfterLookup(env: Env, p: PlainStore, t: string, token: string, script: Script, pc: Pc)
    requires AllFine(script) && NoEmptyCVV(p) && Admitted(p, t)
    requires pc == if ActivePAN(p, t, token) then AtReadPAN
                   else if HasToken(p, t, token) then Done(Refused(404, "TOKEN_INACTIVE"), p.now) else AtTakeCVV
    ensures Complete(env, Plain(p), Detokenize(t, token), pc, script).0 == Plain(Resolve(p, t, token).0)
    ensures Gives(Complete(env, Plain(p), Detokenize(t, token), pc, script).1, Resolve(p, t, token).1)
  {
    if ActivePAN(p, t, token) {
      ReadsPAN(env, p, t, token, script);
    } else if !HasToken(p, t, token) {
      TakesCVV(env, p, t, token, script);
    }
  }

  /** Past the gate every tenant-scoped lookup goes on to the token; otherwise it is refused. */
  lemma PassesTheGate(env: Env, p: PlainStore, r: Request, script: Script)
    requires AllFine(script) && (r.Detokenize? || r.GetStatus?)
    ensures Serve(env, Plain(p), r, script) == if Admitted(p, r.tenant)
      then Complete(env, Plain(p), r, AtFindToken, script) else (Plain(p), Serve(env, Plain(p), r, script).1)
    ensures !Admitted(p, r.tenant) ==> Serve(env, Plain(p), r, script).1.Refused?
  {
    if ValidTenantID(r.tenant) && r.tenant in p.tenants && p.tenants[r.tenant].active {
      assert Step(env, Plain(p), r, AtGate, script.gate) == (Plain(p), AtFindToken);
    } else if ValidTenantID(r.tenant) && r.tenant in p.tenants {
      assert Step(env, Plain(p), r, AtGate, script.gate) == (Plain(p), Done(Refused(403, "FORBIDDEN"), p.now));
    } else if ValidTenantID(r.tenant) {
      assert Step(env, Plain(p), r, AtGate, script.gate) == (Plain(p), Done(TENANT_NOT_FOUND, p.now));
    }
  }

  /** A detokenize request that runs alone does what `Resolve` says. */
  lemma DetokenizeResolves(env: Env, p: PlainStore, t: string, token: string, script: Script)
    requires AllFine(script) && NoEmptyCVV(p)
    ensures var (s', reply) := Serve(env, Plain(p), Detokenize(t, token), script);
      s' == Plain(Resolve(p, t, token).0) && Gives(reply, Resolve(p, t, token).1)
  {
    PassesTheGate(env, p, Detokenize(t, token), script);
    if Admitted(p, t) {
      FindsToken(env, p, t, token, script);
    }
  }

  /** A live CVV that will expire: TTL answers with a negative number for any other key. */
  predicate TimedCVV(p: PlainStore, t: string, token: string) {
    LiveCVV(p, t, token) && p.cvvs[(t, token)].expires.Some?
  }

  predicate SaysActive(reply: Reply) {
    reply == CVVActive || (reply.PANStatus? && reply.facts.active)
  }

  lemma StatusPastGate(env: Env, p: PlainStore, t: string, token: string, script: Script)
    requires AllFine(script)
    ensures var (s', reply) := Complete(env, Plain(p), GetStatus(t, token), AtFindToken, script);
      && s' == Plain(p)
      && (SaysActive(reply) <==> if HasToken(p, t, token) then p.tokens[token].active else TimedCVV(p, t, token))
  {
    var r, s := GetStatus(t, token), Plain(p);
    if HasToken(p, t, token) {
      assert Step(env, s, r, AtFindToken, script.find)
          == (s, Done(PANStatus(TokenFacts(p.tokens[token].active, p.tokens[token].lastUsed)), p.now));
    } else {
      assert Step(env, s, r, AtFindToken, script.find) == (s, AtProbeCVV);
      StepThenComplete(env, s, r, AtFindToken, script, s, AtProbeCVV);
      assert Step(env, s, r, AtProbeCVV, script.take)
          == (s, Done(if TimedCVV(p, t, token) then CVVActive else TOKEN_NOT_FOUND, p.now));
    }
  }

  lemma StatusLooksOnly(env: Env, p: PlainStore, t: string, token: string, script: Script)
    requires AllFine(script)
    ensures var (s', reply) := Serve(env, Plain(p), GetStatus(t, token), script);
      && s' == Plain(p)
      && (SaysActive(reply) <==>
            Admitted(p, t) && (if HasToken(p, t, token) then p.tokens[token].active else TimedCVV(p, t, token)))
  {
    PassesTheGate(env, p, GetStatus(t, token), script);
    if Admitted(p, t) {
      StatusPastGate(env, p, t, token, script);
    }
  }

  /** Whatever fails, asking for a status writes nothing. */
  lemma {:induction false} StatusWritesNothing(env: Env, s: Store, r: Request, pc: Pc, script: Script)
    requires r.GetStatus? && (pc.AtGate? || pc.AtFindToken? || pc.AtProbeCVV? || pc.Done?)
    ensures Complete(env, s, r, pc, script).0 == s
    decreases Rank(pc)
  {
    if !pc.Done? {
      var (s', pc') := Step(env, s, r, pc, ChoiceAt(script, pc));
      StatusWritesNothing(env, s', r, pc', script);
    }
  }

  lemma StoredCVVsAreNotEmpty(env: Env, v: World)
    requires Inv(env, v)
    ensures NoEmptyCVV(v.store.plain)
  {
    forall k | k in v.store.plain.cvvs
      ensures v.store.plain.cvvs[k].value != ""
    {
      assert (k.0, k.1) == k;
    }
  }

  lemma CVVsAreTimed(env: Env, v: World, t: string, token: string)
    requires Inv(env, v)
    ensures TimedCVV(v.store.plain, t, token) <==> LiveCVV(v.store.plain, t, token) && env.ttl > 0
  {
  }

  lemma StatusAgreesInTwin(env: Env, v: World, t: string, token: string, script: Script)
    requires Inv(env, v) && AllFine(script)
    ensures SaysActive(Serve(env, v.store, GetStatus(t, token), script).1)
       <==> Serve(env, v.store, Detokenize(t, token), script).1.Revealed? && (HasToken(v.store.plain, t, token) || env.ttl > 0)
  {
    StoredCVVsAreNotEmpty(env, v);
    CVVsAreTimed(env, v, t, token);
    StatusLooksOnly(env, v.store.plain, t, token, script);
    DetokenizeResolves(env, v.store.plain, t, token, script);
  }

  lemma SameTokenRow(env: Env, w: World, v: World, t: string, token: string)
    requires SameStore(env, w.store, v.store)
    ensures T.FindToken(w.store.sealed.tables, t, token).Some? <==> HasToken(v.store.plain, t, token)
  {
    if token in v.store.plain.tokens {
      assert RowMatches(env, w.store.sealed.tables.tokens[token], v.store.plain.tokens[token]);
    }
  }

  /**
    At every point of every run, the status of a token says "active" exactly when a detokenize request made at that
    moment would get a value and the token is a PAN token or CVVs are stored with a positive lifetime. (Without one they
    never expire, and TTL then answers as for a missing key.) Asking for the status changes nothing and consumes nothing.
   */
  lemma StatusAgreesWithDetokenize(env: Env, now: int, ls: seq<Label>, t: string, token: string, script: Script)
    requires Reached(env, now, ls) && AllFine(script) && ScriptFits(env, script)
    ensures var s := WorldAt(env, now, ls).store;
      && (SaysActive(Serve(env, s, GetStatus(t, token), script).1)
          <==> Serve(env, s, Detokenize(t, token), script).1.Revealed?
               && (T.FindToken(s.sealed.tables, t, token).Some? || env.ttl > 0))
      && Serve(env, s, GetStatus(t, token), script).0 == s
  {
    TwinHolds(env, now, ls);
    var s, v := WorldAt(env, now, ls).store, TwinAt(env, now, ls);
    StatusAgreesInTwin(env, v, t, token, script);
    SameTokenRow(env, WorldAt(env, now, ls), v, t, token);
    StatusWritesNothing(env, s, GetStatus(t, token), Start(GetStatus(t, token), Now(s)), script);
    ServeAgrees(env, s, v.store, GetStatus(t, token), script);
    ServeAgrees(env, s, v.store, Detokenize(t, token), script);
  }
}
