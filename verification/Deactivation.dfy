/** Deactivated tokens and tenants: what stays refused, over every run; and the keys of the tenants. */
module Deactivation {
  import opened Options
  import opened Identifiers
  import opened Stores
  import opened Refinement
  import opened Requests
  import opened Machine
  import opened Lockstep
  import opened Invariants
  import opened Guarantees
  import T = Tables

  ghost predicate TokenOff(w: World, token: string)
    requires w.store.Sealed?
  {
    token in w.store.sealed.tables.tokens && !w.store.sealed.tables.tokens[token].active
  }

  /** The tokenize request that generated a PAN token. */
  function SourceOf(w: World, x: string): Request
    requires x in w.issued && w.issued[x].rid in w.reqs
  {
    w.reqs[w.issued[x].rid].req
  }

  lemma CardOfToken(env: Env, v: World, x: string, b: nat, y: string)
    requires Inv(env, v) && x in v.store.plain.tokens
    ensures x in v.issued && v.issued[x].rid in v.reqs && HasPAN(SourceOf(v, x))
    ensures GotPANToken(v, b, y) && SameCard(SourceOf(v, x), v.reqs[b].req) ==> y == x
  {
    var token := v.store.plain.tokens[x];
    assert BornPAN(v, x, token.tenant, token.pan);
    if GotPANToken(v, b, y) && SameCard(SourceOf(v, x), v.reqs[b].req) {
      TokenIsBound(env, v, b, y);
    }
  }

  /**
    A deactivated token never becomes active again; and whoever tokenizes the PAN again, which was sent with the request
    that generated the token, gets that same, inactive token.
   */
  lemma DeactivationIsPermanent(env: Env, now: int, ls: seq<Label>, more: seq<Label>, x: string, b: nat, y: string)
    requires Reached(env, now, ls + more) && TokenOff(WorldAt(env, now, ls), x)
    ensures TokenOff(WorldAt(env, now, ls + more), x)
    ensures var w := WorldAt(env, now, ls + more);
      && x in w.issued && w.issued[x].rid in w.reqs && HasPAN(SourceOf(w, x))
      && (GotPANToken(w, b, y) && SameCard(SourceOf(w, x), w.reqs[b].req) ==> y == x)
  {
    TwinGoesOn(env, now, ls, more);
    TwinHolds(env, now, ls);
    TwinHolds(env, now, ls + more);
    var v, v' := TwinAt(env, now, ls), TwinAt(env, now, ls + more);
    assert RowMatches(env, WorldAt(env, now, ls).store.sealed.tables.tokens[x], v.store.plain.tokens[x]);
    assert RowMatches(env, WorldAt(env, now, ls + more).store.sealed.tables.tokens[x], v'.store.plain.tokens[x]);
    CardOfToken(env, v', x, b, y);
  }

  /** Whoever was told that a token is deactivated named an existing token of its own tenant, and that token is off. */
  lemma DeactivatedMeansOff(env: Env, now: int, ls: seq<Label>, rid: nat, r: Request)
    requires Reached(env, now, ls) && Answered(WorldAt(env, now, ls), rid, r, Deactivated)
    ensures r.Deactivate? && TokenOff(WorldAt(env, now, ls), r.token)
    ensures WorldAt(env, now, ls).store.sealed.tables.tokens[r.token].tenant == r.tenant
  {
    TwinHolds(env, now, ls);
    var w, v := WorldAt(env, now, ls), TwinAt(env, now, ls);
    assert RequestOK(env, v, rid, r, w.reqs[rid].pc);
    assert RowMatches(env, w.store.sealed.tables.tokens[r.token], v.store.plain.tokens[r.token]);
  }

  /** The request `r` was made. */
  ghost predicate AskedFor(w: World, r: Request) {
    exists rid :: rid in w.reqs && w.reqs[rid].req == r
  }

  /** Every inactive token or tenant was asked to be deactivated. */
  ghost predicate OffByRequest(v: World) {
    && v.store.Plain?
    && (forall x :: x in v.store.plain.tokens && !v.store.plain.tokens[x].active ==>
          AskedFor(v, Deactivate(v.store.plain.tokens[x].tenant, x)))
    && (forall t :: t in v.store.plain.tenants && !v.store.plain.tenants[t].active ==> AskedFor(v, DeactivateTenant(t)))
  }

  lemma NewlyOff(env: Env, p: PlainStore, call: Call, fault: Fault, x: string)
    ensures var p' := Exec(env, Plain(p), call, fault).0.plain;
      && (x in p'.tokens && !p'.tokens[x].active ==>
            || (x in p.tokens && !p.tokens[x].active && p'.tokens[x].tenant == p.tokens[x].tenant)
            || call == StopToken(p'.tokens[x].tenant, x))
      && (x in p'.tenants && !p'.tenants[x].active ==> (x in p.tenants && !p.tenants[x].active) || call == StopTenant(x))
  {
  }

  lemma StopsWhatWasAsked(env: Env, v: World, rid: nat, c: Choice)
    requires Inv(env, v) && InProgress(v, rid)
    ensures var Progress(r, pc) := v.reqs[rid]; var call := CallOf(r, pc, c);
      && (call.StopToken? ==> r == Deactivate(call.tenant, call.token))
      && (call.StopTenant? ==> r == DeactivateTenant(call.tenant))
  {
    assert RequestOK(env, v, rid, v.reqs[rid].req, v.reqs[rid].pc);
  }

  lemma StaysAsked(v: World, v': World, r: Request)
    requires Grows(v, v') && AskedFor(v, r)
    ensures AskedFor(v', r)
  {
    var rid :| rid in v.reqs && v.reqs[rid].req == r;
    assert v'.reqs[rid].req == r;
  }

  lemma OffAfterAdvance(env: Env, v: World, rid: nat, c: Choice)
    requires Inv(env, v) && OffByRequest(v) && InProgress(v, rid) && Grows(v, AdvanceOne(env, v, rid, c))
    ensures OffByRequest(AdvanceOne(env, v, rid, c))
  {
    var v' := AdvanceOne(env, v, rid, c);
    var p, p', call := v.store.plain, v'.store.plain, CallOf(v.reqs[rid].req, v.reqs[rid].pc, c);
    StopsWhatWasAsked(env, v, rid, c);
    assert v'.reqs[rid].req == v.reqs[rid].req;
    forall x | x in p'.tokens && !p'.tokens[x].active
      ensures AskedFor(v', Deactivate(p'.tokens[x].tenant, x))
    {
      NewlyOff(env, p, call, c.fault, x);
      if x in p.tokens && !p.tokens[x].active {
        StaysAsked(v, v', Deactivate(p.tokens[x].tenant, x));
      }
    }
    forall t | t in p'.tenants && !p'.tenants[t].active
      ensures AskedFor(v', DeactivateTenant(t))
    {
      NewlyOff(env, p, call, c.fault, t);
      if t in p.tenants && !p.tenants[t].active {
        StaysAsked(v, v', DeactivateTenant(t));
      }
    }
  }

  lemma OffAfterOther(env: Env, v: World, l: Label)
    requires OffByRequest(v) && !l.Advance? && Grows(v, Next(env, v, l))
    ensures OffByRequest(Next(env, v, l))
  {
    var v' := Next(env, v, l);
    forall r | AskedFor(v, r)
      ensures AskedFor(v', r)
    {
      StaysAsked(v, v', r);
    }
  }

  lemma {:induction false} OffAfterRun(env: Env, v: World, ls: seq<Label>)
    requires Inv(env, v) && OffByRequest(v) && ValidRun(env, v, ls)
    ensures OffByRequest(Run(env, v, ls))
    decreases |ls|
  {
    if ls != [] {
      NextGrows(env, v, ls[0]);
      if ls[0].Advance? {
        OffAfterAdvance(env, v, ls[0].rid, ls[0].choice);
      } else {
        OffAfterOther(env, v, ls[0]);
      }
      InvAfterNext(env, v, ls[0]);
      OffAfterRun(env, Next(env, v, ls[0]), ls[1..]);
    }
  }

  /** Nothing but a request to deactivate it, from its own tenant for a token, ever makes a token or a tenant inactive. */
  lemma OffOnlyByRequest(env: Env, now: int, ls: seq<Label>, x: string, t: string)
    requires Reached(env, now, ls)
    ensures var w := WorldAt(env, now, ls);
      && (TokenOff(w, x) ==> AskedFor(w, Deactivate(w.store.sealed.tables.tokens[x].tenant, x)))
      && (TenantOff(w, t) ==> AskedFor(w, DeactivateTenant(t)))
  {
    TwinHolds(env, now, ls);
    StartOK(env, now);
    SealedRefinesPlain(env, now, ls);
    OffAfterRun(env, PlainStart(now), ls);
    var w, v := WorldAt(env, now, ls), TwinAt(env, now, ls);
    if TokenOff(w, x) {
      assert RowMatches(env, w.store.sealed.tables.tokens[x], v.store.plain.tokens[x]);
      assert AskedFor(v, Deactivate(v.store.plain.tokens[x].tenant, x));
      SameRequests(w, v, Deactivate(v.store.plain.tokens[x].tenant, x));
    }
    if TenantOff(w, t) {
      assert AskedFor(v, DeactivateTenant(t));
      SameRequests(w, v, DeactivateTenant(t));
    }
  }

  lemma SameRequests(w: World, v: World, r: Request)
    requires w.reqs == v.reqs && AskedFor(v, r)
    ensures AskedFor(w, r)
  {
    var rid :| rid in v.reqs && v.reqs[rid].req == r;
    assert w.reqs[rid].req == r;
  }

  /** A request that has not looked its token up. */
  ghost predicate BeforeLookup(w: World, rid: nat) {
    rid in w.reqs ==> w.reqs[rid].pc.AtGate? || w.reqs[rid].pc.AtFindToken?
  }

  /** `rid` has not got hold of a value for `token` and is not about to. */
  ghost predicate WithoutValue(w: World, rid: nat, token: string) {
    rid in w.reqs && w.reqs[rid].req.Detokenize? && w.reqs[rid].req.token == token ==>
      var pc := w.reqs[rid].pc;
      !pc.AtReadPAN? && !pc.AtTouch? && !(pc.Done? && pc.reply.Revealed?)
  }

  ghost predicate OffInTwin(v: World, token: string)
    requires v.store.Plain?
  {
    token in v.store.plain.tokens && !v.store.plain.tokens[token].active
  }

  lemma FindsItOff(env: Env, s: Store, r: Request, c: Choice)
    requires s.Plain? && r.Detokenize?
    requires r.token in s.plain.tokens && !s.plain.tokens[r.token].active
    ensures var pc := Step(env, s, r, AtFindToken, c).1; pc.AtTakeCVV? || (pc.Done? && pc.reply.Refused?)
  {
  }

  lemma TakesNothing(env: Env, s: Store, r: Request, c: Choice)
    requires s.Plain? && r.Detokenize? && (r.tenant, r.token) !in s.plain.cvvs
    ensures Step(env, s, r, AtTakeCVV, c).1 == Done(TOKEN_NOT_FOUND, Now(s))
  {
  }

  lemma PANTokensAreNoCVVTokens(env: Env, v: World, t: string, token: string)
    requires StoreOK(env, v) && token in v.store.plain.tokens
    ensures (t, token) !in v.store.plain.cvvs
  {
    assert BornPAN(v, token, v.store.plain.tokens[token].tenant, v.store.plain.tokens[token].pan);
  }

  lemma OtherStepsGetNoValue(r: Request, pc: Pc, c: Choice, answer: Answer, now: int)
    requires !pc.Done? && !pc.AtFindToken? && !pc.AtReadPAN? && !pc.AtTouch? && !pc.AtTakeCVV?
    ensures var pc' := Resume(r, pc, c, answer, now);
      !pc'.AtReadPAN? && !pc'.AtTouch? && !(pc'.Done? && pc'.reply.Revealed?)
  {
  }

  lemma StepWithoutValue(env: Env, v: World, r: Request, pc: Pc, c: Choice)
    requires r.Detokenize? && StoreOK(env, v) && OffInTwin(v, r.token)
    requires !pc.Done? && !pc.AtReadPAN? && !pc.AtTouch?
    ensures var pc' := Step(env, v.store, r, pc, c).1;
      !pc'.AtReadPAN? && !pc'.AtTouch? && !(pc'.Done? && pc'.reply.Revealed?)
  {
    if pc.AtFindToken? {
      FindsItOff(env, v.store, r, c);
    } else if pc.AtTakeCVV? {
      PANTokensAreNoCVVTokens(env, v, r.tenant, r.token);
      TakesNothing(env, v.store, r, c);
    } else {
      OtherStepsGetNoValue(r, pc, c, Exec(env, v.store, CallOf(r, pc, c), c.fault).1, Now(v.store));
    }
  }

  lemma StaysWithoutValue(env: Env, v: World, l: Label, rid: nat, token: string)
    requires Inv(env, v) && Enabled(env, v, l) && OffInTwin(v, token) && WithoutValue(v, rid, token)
    ensures WithoutValue(Next(env, v, l), rid, token)
  {
    if l.Advance? && l.rid == rid && v.reqs[rid].req.Detokenize? && v.reqs[rid].req.token == token {
      StepWithoutValue(env, v, v.reqs[rid].req, v.reqs[rid].pc, l.choice);
    }
  }

  lemma {:induction false} RunWithoutValue(env: Env, v: World, ls: seq<Label>, rid: nat, token: string)
    requires Inv(env, v) && ValidRun(env, v, ls) && OffInTwin(v, token) && WithoutValue(v, rid, token)
    ensures WithoutValue(Run(env, v, ls), rid, token)
    decreases |ls|
  {
    if ls != [] {
      StaysWithoutValue(env, v, ls[0], rid, token);
      InvAfterNext(env, v, ls[0]);
      NextGrows(env, v, ls[0]);
      RunWithoutValue(env, Next(env, v, ls[0]), ls[1..], rid, token);
    }
  }

  /** Once the status update is in, every detokenize request that has not looked the token up yet gets no value. */
  lemma LateDetokenizeIsRefused(env: Env, now: int, ls: seq<Label>, more: seq<Label>, rid: nat, token: string)
    requires Reached(env, now, ls + more)
    requires TokenOff(WorldAt(env, now, ls), token) && BeforeLookup(WorldAt(env, now, ls), rid)
    ensures WithoutValue(WorldAt(env, now, ls + more), rid, token)
  {
    TwinGoesOn(env, now, ls, more);
    TwinHolds(env, now, ls);
    var v := TwinAt(env, now, ls);
    assert RowMatches(env, WorldAt(env, now, ls).store.sealed.tables.tokens[token], v.store.plain.tokens[token]);
    RunWithoutValue(env, v, more, rid, token);
  }

  /** Once somebody was told that a token is deactivated, no request that has not looked it up yet gets a value for it. */
  lemma DeactivatedMeansRefused(env: Env, now: int, ls: seq<Label>, more: seq<Label>, a: nat, r: Request, rid: nat)
    requires Reached(env, now, ls + more)
    requires Answered(WorldAt(env, now, ls), a, r, Deactivated) && BeforeLookup(WorldAt(env, now, ls), rid)
    ensures r.Deactivate? && WithoutValue(WorldAt(env, now, ls + more), rid, r.token)
  {
    TwinGoesOn(env, now, ls, more);
    DeactivatedMeansOff(env, now, ls, a, r);
    LateDetokenizeIsRefused(env, now, ls, more, rid, r.token);
  }

  // Tenants

  ghost predicate TenantOff(w: World, t: string)
    requires w.store.Sealed?
  {
    t in w.store.sealed.tables.tenants && !w.store.sealed.tables.tenants[t].active
  }

  predicate PassesGate(r: Request) {
    !r.CreateTenant? && !r.DeactivateTenant?
  }

  /** A request of tenant `t` that is still outside, or was sent away. */
  ghost predicate Outside(w: World, rid: nat, t: string) {
    rid in w.reqs && PassesGate(w.reqs[rid].req) && w.reqs[rid].req.tenant == t ==>
      w.reqs[rid].pc.AtGate? || (w.reqs[rid].pc.Done? && w.reqs[rid].pc.reply.Refused?)
  }

  lemma {:induction false} StaysOutside(env: Env, v: World, ls: seq<Label>, rid: nat, t: string)
    requires v.store.Plain? && ValidRun(env, v, ls) && Outside(v, rid, t)
    requires t in v.store.plain.tenants && !v.store.plain.tenants[t].active
    ensures Outside(Run(env, v, ls), rid, t)
    decreases |ls|
  {
    if ls != [] {
      NextGrows(env, v, ls[0]);
      assert Outside(Next(env, v, ls[0]), rid, t);
      StaysOutside(env, Next(env, v, ls[0]), ls[1..], rid, t);
    }
  }

  /** Requests whose tenant lookup comes after the tenant's deactivation are turned away and change nothing. */
  lemma LateRequestsChangeNothing(env: Env, now: int, ls: seq<Label>, more: seq<Label>, rid: nat, t: string, c: Choice)
    requires Reached(env, now, ls + more) && TenantOff(WorldAt(env, now, ls), t)
    requires rid in WorldAt(env, now, ls).reqs ==> WorldAt(env, now, ls).reqs[rid].pc.AtGate?
    ensures var w := WorldAt(env, now, ls + more);
      && Outside(w, rid, t)
      && (rid in w.reqs && PassesGate(w.reqs[rid].req) && w.reqs[rid].req.tenant == t ==>
            Next(env, w, Advance(rid, c)).store == w.store)
  {
    TwinGoesOn(env, now, ls, more);
    TwinHolds(env, now, ls);
    StaysOutside(env, TwinAt(env, now, ls), more, rid, t);
  }

  /** Whoever was told that a tenant is deactivated named an existing tenant, and that tenant is off. */
  lemma TenantDeactivatedMeansOff(env: Env, now: int, ls: seq<Label>, rid: nat, r: Request)
    requires Reached(env, now, ls) && Answered(WorldAt(env, now, ls), rid, r, TenantDeactivated)
    ensures r.DeactivateTenant? && TenantOff(WorldAt(env, now, ls), r.tenant)
  {
    TwinHolds(env, now, ls);
    assert RequestOK(env, TwinAt(env, now, ls), rid, r, WorldAt(env, now, ls).reqs[rid].pc);
  }

  /** Once somebody was told that a tenant is deactivated, its requests that come later are turned away and change nothing. */
  lemma TenantDeactivatedMeansClosed(
    env: Env, now: int, ls: seq<Label>, more: seq<Label>, a: nat, r: Request, rid: nat, c: Choice)
    requires Reached(env, now, ls + more) && Answered(WorldAt(env, now, ls), a, r, TenantDeactivated)
    requires rid in WorldAt(env, now, ls).reqs ==> WorldAt(env, now, ls).reqs[rid].pc.AtGate?
    ensures var w := WorldAt(env, now, ls + more);
      && Outside(w, rid, r.tenant)
      && (rid in w.reqs && PassesGate(w.reqs[rid].req) && w.reqs[rid].req.tenant == r.tenant ==>
            Next(env, w, Advance(rid, c)).store == w.store)
  {
    TwinGoesOn(env, now, ls, more);
    TenantDeactivatedMeansOff(env, now, ls, a, r);
    LateRequestsChangeNothing(env, now, ls, more, rid, r.tenant, c);
  }

  /** No two tenants share a key, and the data key of every stored PAN is wrapped under its own tenant's key. */
  lemma KeysArePerTenant(env: Env, now: int, ls: seq<Label>)
    requires Reached(env, now, ls)
    ensures var tb := WorldAt(env, now, ls).store.sealed.tables;
      && (forall t, t' :: t in tb.tenants && t' in tb.tenants && tb.tenants[t].keyARN == tb.tenants[t'].keyARN ==> t == t')
      && (forall token :: token in tb.vault ==>
            && tb.vault[token].sealed.wrapped.arn == tb.vault[token].keyID
            && token in tb.tokens && tb.vault[token].tenant == tb.tokens[token].tenant
            && tb.vault[token].tenant in tb.tenants
            && tb.vault[token].keyID == tb.tenants[tb.vault[token].tenant].keyARN)
  {
    TwinHolds(env, now, ls);
    var tb, p := WorldAt(env, now, ls).store.sealed.tables, TwinAt(env, now, ls).store.plain;
    forall token | token in tb.vault
      ensures token in tb.tokens && tb.vault[token].tenant == tb.tokens[token].tenant
      ensures tb.vault[token].sealed.wrapped.arn == tb.vault[token].keyID
      ensures TenantKey(p, tb.vault[token].tenant, tb.vault[token].keyID)
    {
      assert PANMatches(env, tb.vault[token], p.vault[token]);
      assert RowMatches(env, tb.tokens[token], p.tokens[token]);
    }
  }
}
