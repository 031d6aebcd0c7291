/** What holds at every point of every run on the plain store, and what one step can change. */
module Invariants {
  import opened Options
  import opened Card
  import opened Identifiers
  import opened Stores
  import opened Requests
  import opened Machine
  import J = Json
  import T = Tables

  // What a step can change

  /** Rows are never lost and never change hands; a token or tenant is never made active again; a CVV token whose id
      was generated before is never stored again. */
  ghost predicate StoreGrows(issued: map<string, Birth>, p: PlainStore, p': PlainStore) {
    && p.now <= p'.now
    && TokensGrow(p.tokens, p'.tokens)
    && MapGrows(p.byPan, p'.byPan)
    && MapGrows(p.vault, p'.vault)
    && TenantsGrow(p.tenants, p'.tenants)
    && NoneReturns(issued, p.cvvs, p'.cvvs)
  }

  ghost predicate TokensGrow(m: map<string, PlainToken>, m': map<string, PlainToken>) {
    forall tok :: tok in m ==>
      && tok in m' && m'[tok].tenant == m[tok].tenant && m'[tok].pan == m[tok].pan
      && (m'[tok].active ==> m[tok].active)
  }

  ghost predicate TenantsGrow(m: map<string, T.TenantRow>, m': map<string, T.TenantRow>) {
    forall t :: t in m ==>
      t in m' && m'[t].name == m[t].name && m'[t].keyARN == m[t].keyARN && (m'[t].active ==> m[t].active)
  }

  ghost predicate MapGrows<K(!new), V(!new)>(m: map<K, V>, m': map<K, V>) {
    forall k :: k in m ==> k in m' && m'[k] == m[k]
  }

  ghost predicate NoneReturns(
    issued: map<string, Birth>, m: map<(string, string), Timed>, m': map<(string, string), Timed>)
  {
    forall k :: k in m' && k.1 in issued ==> k in m && m'[k] == m[k]
  }

  ghost predicate Grows(w: World, w': World) {
    && w.store.Plain? && w'.store.Plain?
    && StoreGrows(w.issued, w.store.plain, w'.store.plain)
    && MapGrows(w.issued, w'.issued)
    && w.arns <= w'.arns
    && (forall rid :: rid in w.reqs ==>
          && rid in w'.reqs && w'.reqs[rid].req == w.reqs[rid].req
          && (w.reqs[rid].pc.Done? ==> w'.reqs[rid] == w.reqs[rid]))
  }

  lemma TokensGrowByCall(env: Env, p: PlainStore, call: Call)
    ensures TokensGrow(p.tokens, ApplyPlain(env, p, call).0.tokens)
  {
  }

  lemma IndexGrowsByCall(env: Env, p: PlainStore, call: Call)
    ensures MapGrows(p.byPan, ApplyPlain(env, p, call).0.byPan)
  {
  }

  lemma RowsGrowByCall(env: Env, p: PlainStore, call: Call)
    ensures MapGrows(p.vault, ApplyPlain(env, p, call).0.vault)
    ensures TenantsGrow(p.tenants, ApplyPlain(env, p, call).0.tenants)
  {
  }

  lemma NoneReturnsByCall(env: Env, issued: map<string, Birth>, p: PlainStore, call: Call)
    requires call.PutCVV? ==> call.token !in issued
    ensures NoneReturns(issued, p.cvvs, ApplyPlain(env, p, call).0.cvvs)
  {
  }

  lemma CallGrows(env: Env, issued: map<string, Birth>, p: PlainStore, call: Call)
    requires call.PutCVV? ==> call.token !in issued
    ensures StoreGrows(issued, p, ApplyPlain(env, p, call).0)
  {
    TokensGrowByCall(env, p, call);
    IndexGrowsByCall(env, p, call);
    RowsGrowByCall(env, p, call);
    NoneReturnsByCall(env, issued, p, call);
    CallFootprint(env, p, call, Fine);
  }

  lemma AdvanceGrows(env: Env, w: World, rid: nat, c: Choice)
    requires w.store.Plain? && Enabled(env, w, Advance(rid, c))
    ensures Grows(w, AdvanceOne(env, w, rid, c))
  {
    CallGrows(env, w.issued, w.store.plain, CallOf(w.reqs[rid].req, w.reqs[rid].pc, c));
  }

  lemma NextGrows(env: Env, w: World, l: Label)
    requires w.store.Plain? && Enabled(env, w, l)
    ensures Grows(w, Next(env, w, l))
  {
    match l
    case Begin(_, _) =>
    case Tick(_) =>
    case Advance(rid, c) => AdvanceGrows(env, w, rid, c);
  }

  lemma GrowsTransitive(a: World, b: World, c: World)
    requires Grows(a, b) && Grows(b, c)
    ensures Grows(a, c)
  {
  }

  lemma {:induction false} RunGrows(env: Env, w: World, ls: seq<Label>)
    requires w.store.Plain? && ValidRun(env, w, ls)
    ensures Grows(w, Run(env, w, ls))
    decreases |ls|
  {
    if ls != [] {
      NextGrows(env, w, ls[0]);
      RunGrows(env, Next(env, w, ls[0]), ls[1..]);
      GrowsTransitive(w, Next(env, w, ls[0]), Run(env, w, ls));
    }
  }

  /** Which part of the store each kind of call can touch. */
  lemma CallFootprint(env: Env, p: PlainStore, call: Call, fault: Fault)
    ensures Exec(env, Plain(p), call, fault).0.Plain?
    ensures var p' := Exec(env, Plain(p), call, fault).0.plain;
      && p'.now == p.now
      && (!call.InsertToken? ==> p'.byPan == p.byPan && p'.tokens.Keys == p.tokens.Keys)
      && (!call.InsertToken? && !call.StopToken? && !call.Touch? ==> p'.tokens == p.tokens)
      && (!call.InsertPAN? ==> p'.vault == p.vault)
      && (!call.PutCVV? && !call.TakeCVV? && !call.DropCVV? ==> p'.cvvs == p.cvvs)
      && (!call.SetOwner? ==> p'.owners == p.owners)
      && (!call.InsertTenant? && !call.StopTenant? ==> p'.tenants == p.tenants)
  {
  }

  // Where the stored data comes from

  /** `token` was generated by a tokenize request of tenant `t` with PAN `pan`. */
  ghost predicate BornPAN(w: World, token: string, t: string, pan: string) {
    && token in w.issued && w.issued[token].isPAN && w.issued[token].rid in w.reqs
    && var r := w.reqs[w.issued[token].rid].req;
       HasPAN(r) && r.tenant == t && PANOf(r) == pan
  }

  ghost predicate BornCVV(w: World, token: string, t: string, cvv: string) {
    && token in w.issued && !w.issued[token].isPAN && w.issued[token].rid in w.reqs
    && var r := w.reqs[w.issued[token].rid].req;
       HasCVV(r) && r.tenant == t && CVVOf(r) == cvv
  }

  ghost predicate Bound(p: PlainStore, t: string, pan: string, token: string) {
    (t, pan) in p.byPan && p.byPan[(t, pan)] == token
  }

  ghost predicate IssuedOK(w: World) {
    forall id :: id in w.issued ==>
      IsGeneratedID(id) && w.issued[id].rid in w.reqs && w.issued[id].at <= Now(w.store)
  }

  ghost predicate TokensOK(w: World)
    requires w.store.Plain?
  {
    var p := w.store.plain;
    && (forall tok :: tok in p.tokens ==>
          && BornPAN(w, tok, p.tokens[tok].tenant, p.tokens[tok].pan)
          && Bound(p, p.tokens[tok].tenant, p.tokens[tok].pan, tok)
          && p.tokens[tok].tenant in p.tenants)
    && (forall k :: k in p.byPan ==>
          && p.byPan[k] in p.tokens
          && k == (p.tokens[p.byPan[k]].tenant, p.tokens[p.byPan[k]].pan))
  }

  ghost predicate VaultOK(p: PlainStore) {
    forall tok :: tok in p.vault ==>
      && tok in p.tokens && p.vault[tok].tenant == p.tokens[tok].tenant && p.vault[tok].pan == p.tokens[tok].pan
      && p.vault[tok].tenant in p.tenants && p.vault[tok].keyID == p.tenants[p.vault[tok].tenant].keyARN
  }

  ghost predicate CVVsOK(env: Env, w: World)
    requires w.store.Plain?
  {
    forall t, tok :: (t, tok) in w.store.plain.cvvs ==>
      && BornCVV(w, tok, t, w.store.plain.cvvs[(t, tok)].value)
      && w.store.plain.cvvs[(t, tok)].expires == T.ExpiryAfter(w.issued[tok].at, env.ttl)
  }

  ghost predicate TenantsOK(w: World)
    requires w.store.Plain?
  {
    var tenants := w.store.plain.tenants;
    && (forall t :: t in tenants ==> tenants[t].keyARN in w.arns)
    && (forall t, t' :: t in tenants && t' in tenants && tenants[t].keyARN == tenants[t'].keyARN ==> t == t')
  }

  ghost predicate OwnersNamed(w: World)
    requires w.store.Plain?
  {
    forall k :: k in w.store.plain.owners ==> w.store.plain.owners[k].value in w.issued
  }

  ghost predicate StoreOK(env: Env, w: World) {
    && w.store.Plain?
    && IssuedOK(w)
    && TokensOK(w)
    && VaultOK(w.store.plain)
    && CVVsOK(env, w)
    && TenantsOK(w)
    && OwnersNamed(w)
  }

  // What each request knows

  ghost predicate TenantKey(p: PlainStore, t: string, arn: string) {
    t in p.tenants && p.tenants[t].keyARN == arn
  }

  ghost predicate IssuedBy(w: World, id: string, rid: nat, isPAN: bool) {
    id in w.issued && w.issued[id].rid == rid && w.issued[id].isPAN == isPAN
  }

  /** The body to echo differs from the request's only in "pan", which holds the token bound to the PAN, and in "cvv";
      a PAN token is new only if this very request generated it and stored its PAN. */
  ghost predicate EchoOK(w: World, rid: nat, r: Request, created: bool, body: Body)
    requires w.store.Plain?
  {
    && r.Tokenize? && body.Keys == r.body.Keys
    && (forall k :: k in body && k != "pan" && k != "cvv" ==> body[k] == r.body[k])
    && (if "pan" in r.body
        then HasPAN(r) && body["pan"].Str? && Bound(w.store.plain, r.tenant, PANOf(r), body["pan"].text)
             && (created ==> IssuedBy(w, body["pan"].text, rid, true) && body["pan"].text in w.store.plain.vault)
        else !created)
  }

  ghost predicate DraftOK(w: World, rid: nat, r: Request, d: Draft)
    requires w.store.Plain?
  {
    && HasCVV(r) && EchoOK(w, rid, r, d.created, d.body) && d.body["cvv"] == r.body["cvv"]
    && d.panToken == if "pan" in r.body then d.body["pan"].text else ""
  }

  ghost predicate CVVEchoOK(w: World, rid: nat, r: Request, body: Body) {
    r.Tokenize? && "cvv" in r.body ==>
      HasCVV(r) && "cvv" in body && body["cvv"].Str? && IssuedBy(w, body["cvv"].text, rid, false)
  }

  /** A revealed value is the PAN of the token's row (or empty), or the CVV of a token that is gone for good. */
  ghost predicate RevealOK(env: Env, w: World, r: Request, v: string, at: int)
    requires w.store.Plain?
  {
    && r.Detokenize? && r.token in w.issued
    && if w.issued[r.token].isPAN
       then HasToken(w.store.plain, r.tenant, r.token) && (v == w.store.plain.tokens[r.token].pan || v == "")
       else BornCVV(w, r.token, r.tenant, v) && (r.tenant, r.token) !in w.store.plain.cvvs
            && T.Alive(at, T.ExpiryAfter(w.issued[r.token].at, env.ttl))
  }

  predicate CanCreate(r: Request) {
    r.CreateTenant? && ValidTenantID(r.tenant) && r.name != ""
  }

  /** What a reply says is so in the store, now and from then on. */
  ghost predicate ReplyOK(env: Env, w: World, rid: nat, r: Request, reply: Reply, at: int)
    requires w.store.Plain?
  {
    var p := w.store.plain;
    match reply
    case Refused(_, _) => true
    case Tokenized(created, body) => WellFormed(r) && EchoOK(w, rid, r, created, body) && CVVEchoOK(w, rid, r, body)
    case Revealed(v) => RevealOK(env, w, r, v, at)
    case PANStatus(facts) =>
      r.GetStatus? && HasToken(p, r.tenant, r.token) && (p.tokens[r.token].active ==> facts.active)
    case CVVActive => r.GetStatus? && r.token in w.issued && !w.issued[r.token].isPAN
    case Deactivated => r.Deactivate? && HasToken(p, r.tenant, r.token) && !p.tokens[r.token].active
    case TenantCreated(arn) => CanCreate(r) && TenantKey(p, r.tenant, arn) && p.tenants[r.tenant].name == r.name
    case TenantDeactivated => r.DeactivateTenant? && r.tenant in p.tenants && !p.tenants[r.tenant].active
  }

  ghost predicate RequestOK(env: Env, w: World, rid: nat, r: Request, pc: Pc)
    requires w.store.Plain?
  {
    var p := w.store.plain;
    match pc
    case AtGate => !r.CreateTenant? && !r.DeactivateTenant?
    case AtFindPAN(arn) => HasPAN(r) && TenantKey(p, r.tenant, arn)
    case AtInsertToken(arn) => HasPAN(r) && TenantKey(p, r.tenant, arn)
    case AtInsertPAN(arn, tok, _) =>
      HasPAN(r) && TenantKey(p, r.tenant, arn) && HasToken(p, r.tenant, tok) && p.tokens[tok].pan == PANOf(r)
      && IssuedBy(w, tok, rid, true)
    case AtPutCVV(d) => DraftOK(w, rid, r, d)
    case AtGetOwner(d, k) => DraftOK(w, rid, r, d) && IssuedBy(w, k, rid, false) && "pan" in r.body
    case AtDropPrevious(d, k, _) => DraftOK(w, rid, r, d) && IssuedBy(w, k, rid, false) && "pan" in r.body
    case AtSetOwner(d, k) => DraftOK(w, rid, r, d) && IssuedBy(w, k, rid, false) && "pan" in r.body
    case AtFindToken => r.Detokenize? || r.GetStatus? || r.Deactivate?
    case AtReadPAN => r.Detokenize? && HasToken(p, r.tenant, r.token)
    case AtTouch(v) => r.Detokenize? && HasToken(p, r.tenant, r.token) && (v == p.tokens[r.token].pan || v == "")
    case AtTakeCVV => r.Detokenize?
    case AtProbeCVV => r.GetStatus?
    case AtStopToken => r.Deactivate? && HasToken(p, r.tenant, r.token)
    case AtFindTenant => r.DeactivateTenant? || CanCreate(r)
    case AtInsertTenant => CanCreate(r)
    case AtStopTenant => r.DeactivateTenant? && r.tenant in p.tenants
    case Done(reply, at) => ReplyOK(env, w, rid, r, reply, at)
  }

  /** Two different requests never both reveal the same CVV token. */
  ghost predicate RevealedCVV(w: World, rid: nat) {
    && rid in w.reqs && w.reqs[rid].req.Detokenize?
    && w.reqs[rid].pc.Done? && w.reqs[rid].pc.reply.Revealed?
    && w.reqs[rid].req.token in w.issued && !w.issued[w.reqs[rid].req.token].isPAN
  }

  ghost predicate RevealsOK(w: World) {
    forall a, b ::
      (RevealedCVV(w, a) && RevealedCVV(w, b)
       && w.reqs[a].req.tenant == w.reqs[b].req.tenant && w.reqs[a].req.token == w.reqs[b].req.token) ==> a == b
  }

  ghost predicate RequestsOK(env: Env, w: World)
    requires w.store.Plain?
  {
    forall rid :: rid in w.reqs ==> RequestOK(env, w, rid, w.reqs[rid].req, w.reqs[rid].pc)
  }

  ghost predicate Inv(env: Env, w: World) {
    StoreOK(env, w) && RequestsOK(env, w) && RevealsOK(w)
  }

  // Preservation: facts about the past stay true

  lemma BirthsKept(w: World, w': World, tok: string, t: string, v: string)
    requires Grows(w, w')
    ensures BornPAN(w, tok, t, v) ==> BornPAN(w', tok, t, v)
    ensures BornCVV(w, tok, t, v) ==> BornCVV(w', tok, t, v)
  {
  }

  lemma EchoKept(w: World, w': World, rid: nat, r: Request, created: bool, body: Body)
    requires Grows(w, w') && EchoOK(w, rid, r, created, body)
    ensures EchoOK(w', rid, r, created, body)
  {
  }

  lemma RequestKept(env: Env, w: World, w': World, rid: nat, r: Request, pc: Pc)
    requires Grows(w, w') && RequestOK(env, w, rid, r, pc)
    ensures RequestOK(env, w', rid, r, pc)
  {
    match pc
    case AtPutCVV(d) => EchoKept(w, w', rid, r, d.created, d.body);
    case AtGetOwner(d, _) => EchoKept(w, w', rid, r, d.created, d.body);
    case AtDropPrevious(d, _, _) => EchoKept(w, w', rid, r, d.created, d.body);
    case AtSetOwner(d, _) => EchoKept(w, w', rid, r, d.created, d.body);
    case Done(Tokenized(created, body), _) => EchoKept(w, w', rid, r, created, body);
    case Done(Revealed(v), _) => BirthsKept(w, w', r.token, r.tenant, v);
    case _ =>
  }

  // Preservation: the store after one request advances

  lemma IssuedAfterAdvance(env: Env, w: World, rid: nat, c: Choice)
    requires IssuedOK(w) && InProgress(w, rid) && ChoiceFits(env, w, w.reqs[rid].pc, c)
    ensures IssuedOK(AdvanceOne(env, w, rid, c))
  {
  }

  /** Rows at `tok` after a call: either they were there, or this call inserted them. */
  lemma NewTokensOf(env: Env, p: PlainStore, call: Call, fault: Fault, tok: string)
    requires tok in Exec(env, Plain(p), call, fault).0.plain.tokens
    ensures var p' := Exec(env, Plain(p), call, fault).0.plain;
      || (tok in p.tokens && p'.tokens[tok].tenant == p.tokens[tok].tenant && p'.tokens[tok].pan == p.tokens[tok].pan)
      || (&& call.InsertToken? && tok == call.token && tok !in p.tokens && call.tenant in p.tenants
          && p'.tokens[tok].tenant == call.tenant && p'.tokens[tok].pan == call.pan
          && (call.tenant, call.pan) !in p.byPan && p'.byPan == p.byPan[(call.tenant, call.pan) := tok])
  {
  }

  lemma NewIndexOf(env: Env, p: PlainStore, call: Call, fault: Fault, k: (string, string))
    requires k in Exec(env, Plain(p), call, fault).0.plain.byPan
    ensures var p' := Exec(env, Plain(p), call, fault).0.plain;
      || (k in p.byPan && p'.byPan[k] == p.byPan[k])
      || (&& call.InsertToken? && k == (call.tenant, call.pan) && k !in p.byPan && p'.byPan[k] == call.token
          && call.token in p'.tokens && p'.tokens[call.token].tenant == k.0 && p'.tokens[call.token].pan == k.1)
  {
  }

  lemma TokensAfterAdvance(env: Env, w: World, rid: nat, c: Choice)
    requires StoreOK(env, w) && InProgress(w, rid) && ChoiceFits(env, w, w.reqs[rid].pc, c)
    requires RequestOK(env, w, rid, w.reqs[rid].req, w.reqs[rid].pc)
    requires Grows(w, AdvanceOne(env, w, rid, c))
    ensures TokensOK(AdvanceOne(env, w, rid, c))
  {
    var w' := AdvanceOne(env, w, rid, c);
    var p, p' := w.store.plain, w'.store.plain;
    var call := CallOf(w.reqs[rid].req, w.reqs[rid].pc, c);
    forall tok | tok in p'.tokens
      ensures BornPAN(w', tok, p'.tokens[tok].tenant, p'.tokens[tok].pan)
      ensures Bound(p', p'.tokens[tok].tenant, p'.tokens[tok].pan, tok)
      ensures p'.tokens[tok].tenant in p'.tenants
    {
      NewTokensOf(env, p, call, c.fault, tok);
      if tok in p.tokens {
        BirthsKept(w, w', tok, p.tokens[tok].tenant, p.tokens[tok].pan);
      }
    }
    forall k | k in p'.byPan
      ensures p'.byPan[k] in p'.tokens
      ensures k == (p'.tokens[p'.byPan[k]].tenant, p'.tokens[p'.byPan[k]].pan)
    {
      NewIndexOf(env, p, call, c.fault, k);
    }
  }

  lemma NewVaultRowsOf(env: Env, p: PlainStore, call: Call, fault: Fault, tok: string)
    requires tok in Exec(env, Plain(p), call, fault).0.plain.vault
    ensures var p' := Exec(env, Plain(p), call, fault).0.plain;
      || (tok in p.vault && p'.vault[tok] == p.vault[tok])
      || (call.InsertPAN? && tok == call.token && p'.vault[tok] == PlainPAN(call.tenant, call.pan, call.arn))
  {
  }

  lemma VaultAfterAdvance(env: Env, w: World, rid: nat, c: Choice)
    requires StoreOK(env, w) && InProgress(w, rid)
    requires RequestOK(env, w, rid, w.reqs[rid].req, w.reqs[rid].pc)
    requires Grows(w, AdvanceOne(env, w, rid, c))
    ensures VaultOK(AdvanceOne(env, w, rid, c).store.plain)
  {
    var p, p' := w.store.plain, AdvanceOne(env, w, rid, c).store.plain;
    forall tok | tok in p'.vault
      ensures tok in p'.tokens && p'.vault[tok].tenant == p'.tokens[tok].tenant && p'.vault[tok].pan == p'.tokens[tok].pan
      ensures TenantKey(p', p'.vault[tok].tenant, p'.vault[tok].keyID)
    {
      NewVaultRowsOf(env, p, CallOf(w.reqs[rid].req, w.reqs[rid].pc, c), c.fault, tok);
    }
  }

  lemma NewCVVsOf(env: Env, p: PlainStore, call: Call, fault: Fault, k: (string, string))
    requires k in Exec(env, Plain(p), call, fault).0.plain.cvvs
    ensures var p' := Exec(env, Plain(p), call, fault).0.plain;
      || (k in p.cvvs && p'.cvvs[k] == p.cvvs[k])
      || (call.PutCVV? && k == (call.tenant, call.token) && p'.cvvs[k] == Timed(call.cvv, T.ExpiryAfter(p.now, env.ttl)))
  {
  }

  lemma CVVsAfterAdvance(env: Env, w: World, rid: nat, c: Choice)
    requires StoreOK(env, w) && InProgress(w, rid) && ChoiceFits(env, w, w.reqs[rid].pc, c)
    requires RequestOK(env, w, rid, w.reqs[rid].req, w.reqs[rid].pc)
    requires Grows(w, AdvanceOne(env, w, rid, c))
    ensures CVVsOK(env, AdvanceOne(env, w, rid, c))
  {
    var w' := AdvanceOne(env, w, rid, c);
    var p, p' := w.store.plain, w'.store.plain;
    forall t, tok | (t, tok) in p'.cvvs
      ensures BornCVV(w', tok, t, p'.cvvs[(t, tok)].value)
      ensures p'.cvvs[(t, tok)].expires == T.ExpiryAfter(w'.issued[tok].at, env.ttl)
    {
      NewCVVsOf(env, p, CallOf(w.reqs[rid].req, w.reqs[rid].pc, c), c.fault, (t, tok));
      if (t, tok) in p.cvvs {
        BirthsKept(w, w', tok, t, p.cvvs[(t, tok)].value);
      }
    }
  }

  lemma NewTenantsOf(env: Env, p: PlainStore, call: Call, fault: Fault, t: string)
    requires t in Exec(env, Plain(p), call, fault).0.plain.tenants
    ensures var p' := Exec(env, Plain(p), call, fault).0.plain;
      || (t in p.tenants && p'.tenants[t].keyARN == p.tenants[t].keyARN)
      || (call.InsertTenant? && t == call.tenant && t !in p.tenants && p'.tenants[t].keyARN == call.arn)
  {
  }

  lemma TenantsAfterAdvance(env: Env, w: World, rid: nat, c: Choice)
    requires StoreOK(env, w) && InProgress(w, rid) && ChoiceFits(env, w, w.reqs[rid].pc, c)
    ensures AdvanceOne(env, w, rid, c).store.Plain? && TenantsOK(AdvanceOne(env, w, rid, c))
  {
    var w' := AdvanceOne(env, w, rid, c);
    var call := CallOf(w.reqs[rid].req, w.reqs[rid].pc, c);
    CallFootprint(env, w.store.plain, call, c.fault);
    var tenants' := w'.store.plain.tenants;
    forall t | t in tenants'
      ensures tenants'[t].keyARN in w'.arns
    {
      NewTenantsOf(env, w.store.plain, call, c.fault, t);
    }
    forall t, t' | t in tenants' && t' in tenants' && tenants'[t].keyARN == tenants'[t'].keyARN
      ensures t == t'
    {
      NewTenantsOf(env, w.store.plain, call, c.fault, t);
      NewTenantsOf(env, w.store.plain, call, c.fault, t');
    }
  }

  lemma NewOwnersOf(env: Env, p: PlainStore, call: Call, fault: Fault, k: (string, string))
    requires k in Exec(env, Plain(p), call, fault).0.plain.owners
    ensures var p' := Exec(env, Plain(p), call, fault).0.plain;
      || (k in p.owners && p'.owners[k] == p.owners[k])
      || (call.SetOwner? && p'.owners[k].value == call.token)
  {
  }

  lemma OwnersAfterAdvance(env: Env, w: World, rid: nat, c: Choice)
    requires StoreOK(env, w) && InProgress(w, rid) && Grows(w, AdvanceOne(env, w, rid, c))
    requires RequestOK(env, w, rid, w.reqs[rid].req, w.reqs[rid].pc)
    ensures OwnersNamed(AdvanceOne(env, w, rid, c))
  {
    var w' := AdvanceOne(env, w, rid, c);
    forall k | k in w'.store.plain.owners
      ensures w'.store.plain.owners[k].value in w'.issued
    {
      NewOwnersOf(env, w.store.plain, CallOf(w.reqs[rid].req, w.reqs[rid].pc, c), c.fault, k);
    }
  }

  // Preservation: what the advancing request knows

  ghost predicate AdvanceFits(env: Env, w: World, rid: nat, c: Choice) {
    && StoreOK(env, w) && InProgress(w, rid) && ChoiceFits(env, w, w.reqs[rid].pc, c)
    && RequestOK(env, w, rid, w.reqs[rid].req, w.reqs[rid].pc)
    && Grows(w, AdvanceOne(env, w, rid, c))
  }

  ghost predicate AdvancedOK(env: Env, w: World, rid: nat, c: Choice)
    requires InProgress(w, rid)
  {
    var w' := AdvanceOne(env, w, rid, c);
    w'.store.Plain? && RequestOK(env, w', rid, w'.reqs[rid].req, w'.reqs[rid].pc)
  }

  lemma CheckCVVOK(env: Env, w: World, rid: nat, r: Request, d: Draft, now: int)
    requires w.store.Plain? && r.Tokenize? && EchoOK(w, rid, r, d.created, d.body)
    requires "pan" in r.body || "cvv" in r.body
    requires "cvv" in r.body ==> d.body["cvv"] == r.body["cvv"]
    requires d.panToken == if "pan" in r.body then d.body["pan"].text else ""
    ensures RequestOK(env, w, rid, r, CheckCVV(r, d, now))
  {
  }

  lemma GateOK(env: Env, w: World, rid: nat, c: Choice)
    requires AdvanceFits(env, w, rid, c) && w.reqs[rid].pc.AtGate?
    ensures AdvancedOK(env, w, rid, c)
  {
    var w', r := AdvanceOne(env, w, rid, c), w.reqs[rid].req;
    if r.Tokenize? && "pan" !in r.body && "cvv" in r.body {
      CheckCVVOK(env, w', rid, r, Draft(false, "", r.body), Now(w.store));
    }
  }

  lemma AfterPANOK(env: Env, w: World, rid: nat, r: Request, created: bool, token: string, now: int)
    requires w.store.Plain? && HasPAN(r) && Bound(w.store.plain, r.tenant, PANOf(r), token)
    requires created ==> IssuedBy(w, token, rid, true) && token in w.store.plain.vault
    ensures RequestOK(env, w, rid, r, AfterPAN(r, created, token, now))
  {
    CheckCVVOK(env, w, rid, r, Draft(created, token, r.body["pan" := J.Str(token)]), now);
  }

  lemma FindPANOK(env: Env, w: World, rid: nat, c: Choice)
    requires AdvanceFits(env, w, rid, c) && w.reqs[rid].pc.AtFindPAN?
    ensures AdvancedOK(env, w, rid, c)
  {
    var w', r := AdvanceOne(env, w, rid, c), w.reqs[rid].req;
    var answer := Exec(env, w.store, CallOf(r, w.reqs[rid].pc, c), c.fault).1;
    if answer.TokenFor? && answer.token.Some? {
      AfterPANOK(env, w', rid, r, false, answer.token.value, Now(w.store));
    }
  }

  lemma InsertTokenOK(env: Env, w: World, rid: nat, c: Choice)
    requires AdvanceFits(env, w, rid, c) && w.reqs[rid].pc.AtInsertToken?
    ensures AdvancedOK(env, w, rid, c)
  {
  }

  lemma InsertPANStep(env: Env, p: PlainStore, r: Request, pc: Pc, c: Choice)
    requires pc.AtInsertPAN?
    ensures var (s', pc') := Step(env, Plain(p), r, pc, c);
      && s'.Plain? && s'.plain.byPan == p.byPan
      && ((pc.token in s'.plain.vault && pc' == AfterPAN(r, true, pc.token, p.now)) || pc' == Done(INTERNAL, p.now))
  {
  }

  lemma InsertPANOK(env: Env, w: World, rid: nat, c: Choice)
    requires AdvanceFits(env, w, rid, c) && w.reqs[rid].pc.AtInsertPAN?
    ensures AdvancedOK(env, w, rid, c)
  {
    var w', r, pc := AdvanceOne(env, w, rid, c), w.reqs[rid].req, w.reqs[rid].pc;
    InsertPANStep(env, w.store.plain, r, pc, c);
    if w'.reqs[rid].pc != Done(INTERNAL, Now(w.store)) {
      AfterPANOK(env, w', rid, r, true, pc.token, Now(w.store));
    }
  }

  lemma PutCVVOK(env: Env, w: World, rid: nat, c: Choice)
    requires AdvanceFits(env, w, rid, c) && w.reqs[rid].pc.AtPutCVV?
    ensures AdvancedOK(env, w, rid, c)
  {
    var w', r, pc := AdvanceOne(env, w, rid, c), w.reqs[rid].req, w.reqs[rid].pc;
    EchoKept(w, w', rid, r, pc.draft.created, pc.draft.body);
    if w'.reqs[rid].pc.Done? && w'.reqs[rid].pc.reply.Tokenized? {
      EchoWithCVV(w', rid, r, pc.draft, w'.reqs[rid].pc.reply.body["cvv"].text);
    }
  }

  lemma OwnerStepOK(env: Env, w: World, rid: nat, c: Choice)
    requires AdvanceFits(env, w, rid, c)
    requires w.reqs[rid].pc.AtGetOwner? || w.reqs[rid].pc.AtDropPrevious? || w.reqs[rid].pc.AtSetOwner?
    ensures AdvancedOK(env, w, rid, c)
  {
    var w', r, pc := AdvanceOne(env, w, rid, c), w.reqs[rid].req, w.reqs[rid].pc;
    EchoKept(w, w', rid, r, pc.draft.created, pc.draft.body);
    if w'.reqs[rid].pc.Done? && w'.reqs[rid].pc.reply.Tokenized? {
      EchoWithCVV(w', rid, r, pc.draft, w'.reqs[rid].pc.reply.body["cvv"].text);
    }
  }

  lemma EchoWithCVV(w: World, rid: nat, r: Request, d: Draft, k: string)
    requires w.store.Plain? && DraftOK(w, rid, r, d) && IssuedBy(w, k, rid, false)
    ensures EchoOK(w, rid, r, d.created, d.body["cvv" := J.Str(k)]) && CVVEchoOK(w, rid, r, d.body["cvv" := J.Str(k)])
  {
  }

  lemma FindTokenStep(env: Env, p: PlainStore, r: Request, c: Choice)
    requires r.Detokenize? || r.GetStatus? || r.Deactivate?
    ensures var (s', pc') := Step(env, Plain(p), r, AtFindToken, c);
      && s' == Plain(p)
      && (pc'.AtReadPAN? ==> r.Detokenize? && HasToken(p, r.tenant, r.token)) && (pc'.AtTakeCVV? ==> r.Detokenize?)
      && (pc'.AtProbeCVV? ==> r.GetStatus?) && (pc'.AtStopToken? ==> r.Deactivate? && HasToken(p, r.tenant, r.token))
      && (pc'.AtReadPAN? || pc'.AtTakeCVV? || pc'.AtProbeCVV? || pc'.AtStopToken?
          || (pc'.Done? && (pc'.reply.Refused? || (pc'.reply.PANStatus? && r.GetStatus? && HasToken(p, r.tenant, r.token)
                                                   && pc'.reply.facts.active == p.tokens[r.token].active))))
  {
  }

  lemma FindTokenOK(env: Env, w: World, rid: nat, c: Choice)
    requires AdvanceFits(env, w, rid, c) && w.reqs[rid].pc.AtFindToken?
    ensures AdvancedOK(env, w, rid, c)
  {
    FindTokenStep(env, w.store.plain, w.reqs[rid].req, c);
  }

  /** Reading gives back the PAN of the token's row, or nothing while its vault row is not there. */
  lemma ReadsRowPAN(env: Env, p: PlainStore, t: string, tok: string, fault: Fault)
    requires VaultOK(p) && HasToken(p, t, tok)
    ensures var (s', answer) := Exec(env, Plain(p), ReadPAN(t, tok), fault);
      s' == Plain(p) && (answer.Value? ==> answer.value == if tok in p.vault then p.tokens[tok].pan else "")
  {
  }

  lemma ReadPANOK(env: Env, w: World, rid: nat, c: Choice)
    requires AdvanceFits(env, w, rid, c) && w.reqs[rid].pc.AtReadPAN?
    ensures AdvancedOK(env, w, rid, c)
  {
    var r, p := w.reqs[rid].req, w.store.plain;
    ReadsRowPAN(env, p, r.tenant, r.token, c.fault);
    var w' := AdvanceOne(env, w, rid, c);
    assert w'.store == w.store;
    assert w'.reqs[rid].pc.AtTouch? || w'.reqs[rid].pc == Done(INTERNAL, Now(w.store));
  }

  lemma TouchOK(env: Env, w: World, rid: nat, c: Choice)
    requires AdvanceFits(env, w, rid, c) && w.reqs[rid].pc.AtTouch?
    ensures AdvancedOK(env, w, rid, c)
  {
    var r := w.reqs[rid].req;
    assert BornPAN(w, r.token, r.tenant, w.store.plain.tokens[r.token].pan);
  }

  lemma TakeCVVOK(env: Env, w: World, rid: nat, c: Choice)
    requires AdvanceFits(env, w, rid, c) && w.reqs[rid].pc.AtTakeCVV?
    ensures AdvancedOK(env, w, rid, c)
  {
    var w', r := AdvanceOne(env, w, rid, c), w.reqs[rid].req;
    var p := w.store.plain;
    if LiveCVV(p, r.tenant, r.token) {
      BirthsKept(w, w', r.token, r.tenant, p.cvvs[(r.tenant, r.token)].value);
    }
  }

  lemma ProbeStep(env: Env, p: PlainStore, r: Request, c: Choice)
    requires r.GetStatus?
    ensures var (s', pc') := Step(env, Plain(p), r, AtProbeCVV, c);
      s' == Plain(p) && pc'.Done? && (pc'.reply.Refused? || (pc'.reply.CVVActive? && (r.tenant, r.token) in p.cvvs))
  {
  }

  lemma ProbeOK(env: Env, w: World, rid: nat, c: Choice)
    requires AdvanceFits(env, w, rid, c) && w.reqs[rid].pc.AtProbeCVV?
    ensures AdvancedOK(env, w, rid, c)
  {
    ProbeStep(env, w.store.plain, w.reqs[rid].req, c);
  }

  lemma StopStep(env: Env, p: PlainStore, r: Request, c: Choice)
    requires r.Deactivate? && HasToken(p, r.tenant, r.token)
    ensures var (s', pc') := Step(env, Plain(p), r, AtStopToken, c);
      s'.Plain? && pc'.Done? && (pc'.reply.Refused? || (pc'.reply.Deactivated? && HasToken(s'.plain, r.tenant, r.token)
                                                        && !s'.plain.tokens[r.token].active))
  {
  }

  lemma StopOK(env: Env, w: World, rid: nat, c: Choice)
    requires AdvanceFits(env, w, rid, c) && w.reqs[rid].pc.AtStopToken?
    ensures AdvancedOK(env, w, rid, c)
  {
    StopStep(env, w.store.plain, w.reqs[rid].req, c);
  }

  lemma TenantStep(env: Env, p: PlainStore, r: Request, pc: Pc, c: Choice)
    requires pc.AtFindTenant? || pc.AtInsertTenant? || pc.AtStopTenant?
    requires if pc.AtInsertTenant? then CanCreate(r) else r.DeactivateTenant? || (pc.AtFindTenant? && CanCreate(r))
    requires pc.AtStopTenant? ==> r.tenant in p.tenants
    ensures var (s', pc') := Step(env, Plain(p), r, pc, c);
      && s'.Plain?
      && (pc'.AtInsertTenant? ==> CanCreate(r)) && (pc'.AtStopTenant? ==> r.DeactivateTenant? && r.tenant in s'.plain.tenants)
      && (pc'.AtInsertTenant? || pc'.AtStopTenant? || (pc'.Done? && match pc'.reply
            case Refused(_, _) => true
            case TenantCreated(arn) =>
              CanCreate(r) && TenantKey(s'.plain, r.tenant, arn) && s'.plain.tenants[r.tenant].name == r.name
            case TenantDeactivated => r.DeactivateTenant? && r.tenant in s'.plain.tenants && !s'.plain.tenants[r.tenant].active
            case _ => false))
  {
  }

  lemma TenantStepOK(env: Env, w: World, rid: nat, c: Choice)
    requires AdvanceFits(env, w, rid, c)
    requires w.reqs[rid].pc.AtFindTenant? || w.reqs[rid].pc.AtInsertTenant? || w.reqs[rid].pc.AtStopTenant?
    ensures AdvancedOK(env, w, rid, c)
  {
    TenantStep(env, w.store.plain, w.reqs[rid].req, w.reqs[rid].pc, c);
  }

  lemma InsertAfterAdvance(env: Env, w: World, rid: nat, c: Choice)
    requires AdvanceFits(env, w, rid, c)
    requires var pc := w.reqs[rid].pc; pc.AtFindPAN? || pc.AtInsertToken? || pc.AtInsertPAN?
    ensures AdvancedOK(env, w, rid, c)
  {
    if w.reqs[rid].pc.AtFindPAN? {
      FindPANOK(env, w, rid, c);
    } else if w.reqs[rid].pc.AtInsertToken? {
      InsertTokenOK(env, w, rid, c);
    } else {
      InsertPANOK(env, w, rid, c);
    }
  }

  lemma CVVAfterAdvance(env: Env, w: World, rid: nat, c: Choice)
    requires AdvanceFits(env, w, rid, c) && UsesOwnerKeys(w.reqs[rid].pc)
    ensures AdvancedOK(env, w, rid, c)
  {
    if w.reqs[rid].pc.AtPutCVV? {
      PutCVVOK(env, w, rid, c);
    } else {
      OwnerStepOK(env, w, rid, c);
    }
  }

  lemma LookupAfterAdvance(env: Env, w: World, rid: nat, c: Choice)
    requires AdvanceFits(env, w, rid, c)
    requires var pc := w.reqs[rid].pc; pc.AtFindToken? || pc.AtReadPAN? || pc.AtTouch? || pc.AtTakeCVV?
    ensures AdvancedOK(env, w, rid, c)
  {
    match w.reqs[rid].pc
    case AtFindToken => FindTokenOK(env, w, rid, c);
    case AtReadPAN => ReadPANOK(env, w, rid, c);
    case AtTouch(_) => TouchOK(env, w, rid, c);
    case AtTakeCVV => TakeCVVOK(env, w, rid, c);
  }

  lemma OtherAfterAdvance(env: Env, w: World, rid: nat, c: Choice)
    requires AdvanceFits(env, w, rid, c)
    requires var pc := w.reqs[rid].pc;
      pc.AtProbeCVV? || pc.AtStopToken? || pc.AtFindTenant? || pc.AtInsertTenant? || pc.AtStopTenant?
    ensures AdvancedOK(env, w, rid, c)
  {
    if w.reqs[rid].pc.AtProbeCVV? {
      ProbeOK(env, w, rid, c);
    } else if w.reqs[rid].pc.AtStopToken? {
      StopOK(env, w, rid, c);
    } else {
      TenantStepOK(env, w, rid, c);
    }
  }

  lemma RequestAfterAdvance(env: Env, w: World, rid: nat, c: Choice)
    requires AdvanceFits(env, w, rid, c)
    ensures AdvancedOK(env, w, rid, c)
  {
    var pc := w.reqs[rid].pc;
    if pc.AtGate? {
      GateOK(env, w, rid, c);
    } else if pc.AtFindPAN? || pc.AtInsertToken? || pc.AtInsertPAN? {
      InsertAfterAdvance(env, w, rid, c);
    } else if UsesOwnerKeys(pc) {
      CVVAfterAdvance(env, w, rid, c);
    } else if pc.AtFindToken? || pc.AtReadPAN? || pc.AtTouch? || pc.AtTakeCVV? {
      LookupAfterAdvance(env, w, rid, c);
    } else {
      OtherAfterAdvance(env, w, rid, c);
    }
  }

  lemma GoneOnceRevealed(env: Env, w: World, rid: nat)
    requires w.store.Plain? && RequestsOK(env, w) && RevealedCVV(w, rid)
    ensures (w.reqs[rid].req.tenant, w.reqs[rid].req.token) !in w.store.plain.cvvs
  {
    assert RequestOK(env, w, rid, w.reqs[rid].req, w.reqs[rid].pc);
  }

  lemma RevealTakesFromStore(env: Env, w: World, rid: nat, c: Choice)
    requires AdvanceFits(env, w, rid, c) && RevealedCVV(AdvanceOne(env, w, rid, c), rid)
    ensures (w.reqs[rid].req.tenant, w.reqs[rid].req.token) in w.store.plain.cvvs
  {
    assert w.reqs[rid].pc.AtTouch? || w.reqs[rid].pc.AtTakeCVV?;
  }

  lemma OthersRevealedBefore(env: Env, w: World, rid: nat, c: Choice, other: nat)
    requires w.store.Plain? && RequestsOK(env, w) && InProgress(w, rid) && other != rid
    requires RevealedCVV(AdvanceOne(env, w, rid, c), other)
    requires Grows(w, AdvanceOne(env, w, rid, c))
    ensures RevealedCVV(w, other)
  {
    assert RequestOK(env, w, other, w.reqs[other].req, w.reqs[other].pc);
  }

  lemma RevealsAfterAdvance(env: Env, w: World, rid: nat, c: Choice)
    requires AdvanceFits(env, w, rid, c) && RequestsOK(env, w) && RevealsOK(w)
    ensures RevealsOK(AdvanceOne(env, w, rid, c))
  {
    var w' := AdvanceOne(env, w, rid, c);
    forall a | RevealedCVV(w', a)
      ensures a != rid ==> RevealedCVV(w, a) && (w.reqs[a].req.tenant, w.reqs[a].req.token) !in w.store.plain.cvvs
      ensures a == rid ==> (w.reqs[a].req.tenant, w.reqs[a].req.token) in w.store.plain.cvvs
    {
      if a == rid {
        RevealTakesFromStore(env, w, rid, c);
      } else {
        OthersRevealedBefore(env, w, rid, c, a);
        GoneOnceRevealed(env, w, a);
      }
    }
  }

  /** One step keeps the invariant. */
  lemma InvAfterNext(env: Env, w: World, l: Label)
    requires Inv(env, w) && Enabled(env, w, l)
    ensures Inv(env, Next(env, w, l))
  {
    NextGrows(env, w, l);
    match l
    case Begin(rid, r) => InvAfterBegin(env, w, rid, r);
    case Advance(rid, c) => InvAfterAdvance(env, w, rid, c);
    case Tick(d) => InvAfterTick(env, w, d);
  }

  lemma InvAfterAdvance(env: Env, w: World, rid: nat, c: Choice)
    requires Inv(env, w) && Enabled(env, w, Advance(rid, c)) && Grows(w, AdvanceOne(env, w, rid, c))
    ensures Inv(env, AdvanceOne(env, w, rid, c))
  {
    var w' := AdvanceOne(env, w, rid, c);
    IssuedAfterAdvance(env, w, rid, c);
    TokensAfterAdvance(env, w, rid, c);
    VaultAfterAdvance(env, w, rid, c);
    CVVsAfterAdvance(env, w, rid, c);
    TenantsAfterAdvance(env, w, rid, c);
    OwnersAfterAdvance(env, w, rid, c);
    RevealsAfterAdvance(env, w, rid, c);
    RequestAfterAdvance(env, w, rid, c);
    forall other | other in w'.reqs
      ensures RequestOK(env, w', other, w'.reqs[other].req, w'.reqs[other].pc)
    {
      if other != rid {
        RequestKept(env, w, w', other, w.reqs[other].req, w.reqs[other].pc);
      }
    }
  }

  lemma StoreAfterBegin(env: Env, w: World, rid: nat, r: Request)
    requires StoreOK(env, w) && rid !in w.reqs
    ensures StoreOK(env, Next(env, w, Begin(rid, r)))
  {
  }

  lemma RevealsAfterBegin(env: Env, w: World, rid: nat, r: Request)
    requires RevealsOK(w) && rid !in w.reqs
    ensures RevealsOK(Next(env, w, Begin(rid, r)))
  {
    forall a | RevealedCVV(Next(env, w, Begin(rid, r)), a)
      ensures RevealedCVV(w, a)
    {
    }
  }

  lemma RequestsAfterBegin(env: Env, w: World, rid: nat, r: Request)
    requires w.store.Plain? && RequestsOK(env, w) && rid !in w.reqs && Grows(w, Next(env, w, Begin(rid, r)))
    ensures RequestsOK(env, Next(env, w, Begin(rid, r)))
  {
    var w' := Next(env, w, Begin(rid, r));
    forall other | other in w'.reqs
      ensures RequestOK(env, w', other, w'.reqs[other].req, w'.reqs[other].pc)
    {
      if other != rid {
        RequestKept(env, w, w', other, w.reqs[other].req, w.reqs[other].pc);
      }
    }
  }

  lemma InvAfterBegin(env: Env, w: World, rid: nat, r: Request)
    requires Inv(env, w) && rid !in w.reqs && Grows(w, Next(env, w, Begin(rid, r)))
    ensures Inv(env, Next(env, w, Begin(rid, r)))
  {
    StoreAfterBegin(env, w, rid, r);
    RequestsAfterBegin(env, w, rid, r);
    RevealsAfterBegin(env, w, rid, r);
  }

  lemma InvAfterTick(env: Env, w: World, d: nat)
    requires Inv(env, w) && Grows(w, Next(env, w, Tick(d)))
    ensures Inv(env, Next(env, w, Tick(d)))
  {
    var w' := Next(env, w, Tick(d));
    forall other | other in w'.reqs
      ensures RequestOK(env, w', other, w'.reqs[other].req, w'.reqs[other].pc)
    {
      RequestKept(env, w, w', other, w.reqs[other].req, w.reqs[other].pc);
    }
    forall a | RevealedCVV(w', a)
      ensures RevealedCVV(w, a)
    {
    }
  }

  lemma {:induction false} InvAfterRun(env: Env, w: World, ls: seq<Label>)
    requires Inv(env, w) && ValidRun(env, w, ls)
    ensures Inv(env, Run(env, w, ls))
    decreases |ls|
  {
    if ls != [] {
      InvAfterNext(env, w, ls[0]);
      InvAfterRun(env, Next(env, w, ls[0]), ls[1..]);
    }
  }

  lemma StartOK(env: Env, now: int)
    ensures Inv(env, PlainStart(now))
  {
  }
}
