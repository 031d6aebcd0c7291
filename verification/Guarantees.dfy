/**
  What the service guarantees over every run: any number of requests, interleaved step by step, any step failing, time
  passing at any point. The statements are about the sealed store; the proofs are about its plain twin.
 */
module Guarantees {
  import opened Options
  import opened Card
  import opened Identifiers
  import opened Envelope
  import opened Stores
  import opened Refinement
  import opened Requests
  import opened Machine
  import opened Lockstep
  import opened Invariants
  import T = Tables

  /** A point of a run of the service and its plain twin. */
  ghost predicate Reached(env: Env, now: int, ls: seq<Label>) {
    Lawful(env.crypto, env.used) && ValidRun(env, SealedStart(now), ls)
  }

  function WorldAt(env: Env, now: int, ls: seq<Label>): (w: World)
    ensures w.store.Sealed?
  {
    Run(env, SealedStart(now), ls)
  }

  function TwinAt(env: Env, now: int, ls: seq<Label>): (v: World)
    ensures v.store.Plain?
  {
    Run(env, PlainStart(now), ls)
  }

  lemma TwinHolds(env: Env, now: int, ls: seq<Label>)
    requires Reached(env, now, ls)
    ensures Twin(env, WorldAt(env, now, ls), TwinAt(env, now, ls)) && Inv(env, TwinAt(env, now, ls))
    ensures AllSound(env, WorldAt(env, now, ls).reqs)
  {
    RunsAgree(env, SealedStart(now), PlainStart(now), ls);
    StartOK(env, now);
    InvAfterRun(env, PlainStart(now), ls);
  }

  lemma TwinGoesOn(env: Env, now: int, ls: seq<Label>, more: seq<Label>)
    requires Reached(env, now, ls + more)
    ensures Reached(env, now, ls) && ValidRun(env, WorldAt(env, now, ls), more) && ValidRun(env, TwinAt(env, now, ls), more)
    ensures WorldAt(env, now, ls + more) == Run(env, WorldAt(env, now, ls), more)
    ensures TwinAt(env, now, ls + more) == Run(env, TwinAt(env, now, ls), more)
    ensures Twin(env, WorldAt(env, now, ls + more), TwinAt(env, now, ls + more))
    ensures Grows(TwinAt(env, now, ls), TwinAt(env, now, ls + more))
  {
    RunAppend(env, SealedStart(now), ls, more);
    RunAppend(env, PlainStart(now), ls, more);
    TwinHolds(env, now, ls);
    TwinHolds(env, now, ls + more);
    RunsAgree(env, WorldAt(env, now, ls), TwinAt(env, now, ls), more);
    RunGrows(env, TwinAt(env, now, ls), more);
  }

  // Tokenize

  /** A 200 or 201 reply to a tokenize request that had a PAN. */
  ghost predicate GotPANToken(w: World, rid: nat, token: string) {
    && rid in w.reqs && w.reqs[rid].pc.Done? && w.reqs[rid].pc.reply.Tokenized?
    && HasPAN(w.reqs[rid].req) && "pan" in w.reqs[rid].pc.reply.body && w.reqs[rid].pc.reply.body["pan"].Str?
    && token == w.reqs[rid].pc.reply.body["pan"].text
  }

  ghost predicate SameCard(r: Request, q: Request)
    requires HasPAN(r) && HasPAN(q)
  {
    r.tenant == q.tenant && PANOf(r) == PANOf(q)
  }

  lemma TokenIsBound(env: Env, v: World, rid: nat, token: string)
    requires Inv(env, v) && GotPANToken(v, rid, token)
    ensures var r := v.reqs[rid].req;
      && Bound(v.store.plain, r.tenant, PANOf(r), token) && HasToken(v.store.plain, r.tenant, token)
      && v.store.plain.tokens[token].pan == PANOf(r)
      && (v.reqs[rid].pc.reply.created ==> IssuedBy(v, token, rid, true) && token in v.store.plain.vault)
  {
    assert RequestOK(env, v, rid, v.reqs[rid].req, v.reqs[rid].pc);
  }

  /** One token per tenant and PAN, one tenant and PAN per token, and at most one 201 for each. */
  lemma OneTokenPerCard(env: Env, now: int, ls: seq<Label>, a: nat, b: nat, x: string, y: string)
    requires Reached(env, now, ls)
    requires GotPANToken(WorldAt(env, now, ls), a, x) && GotPANToken(WorldAt(env, now, ls), b, y)
    ensures var w := WorldAt(env, now, ls);
      && (x == y <==> SameCard(w.reqs[a].req, w.reqs[b].req))
      && (x == y && w.reqs[a].pc.reply.created && w.reqs[b].pc.reply.created ==> a == b)
  {
    TwinHolds(env, now, ls);
    TokenIsBound(env, TwinAt(env, now, ls), a, x);
    TokenIsBound(env, TwinAt(env, now, ls), b, y);
  }

  /** A successful reply echoes the body with nothing changed but "pan" and "cvv", each replaced by a generated token. */
  lemma EchoIsExact(env: Env, now: int, ls: seq<Label>, rid: nat)
    requires Reached(env, now, ls)
    requires var w := WorldAt(env, now, ls);
      rid in w.reqs && w.reqs[rid].pc.Done? && w.reqs[rid].pc.reply.Tokenized?
    ensures var w := WorldAt(env, now, ls); var r, body := w.reqs[rid].req, w.reqs[rid].pc.reply.body;
      && r.Tokenize? && body.Keys == r.body.Keys
      && (forall k :: k in body && k != "pan" && k != "cvv" ==> body[k] == r.body[k])
      && (forall k :: k in body && (k == "pan" || k == "cvv") ==>
            && body[k].Str? && IsTokenShaped(body[k].text)
            && body[k].text in w.issued && w.issued[body[k].text].isPAN == (k == "pan"))
  {
    TwinHolds(env, now, ls);
    var v := TwinAt(env, now, ls);
    var r, body := v.reqs[rid].req, v.reqs[rid].pc.reply.body;
    assert RequestOK(env, v, rid, r, v.reqs[rid].pc);
    forall k | k in body && (k == "pan" || k == "cvv")
      ensures body[k].Str? && IsTokenShaped(body[k].text)
      ensures body[k].text in v.issued && v.issued[body[k].text].isPAN == (k == "pan")
    {
      assert body[k].text in v.issued;
      GeneratedIDsAreTokenShaped(body[k].text);
    }
  }

  /** A PAN token that was given out has its row, and a 201 reply says that the PAN is stored and opens. */
  lemma CreatedMeansStored(env: Env, now: int, ls: seq<Label>, rid: nat, token: string)
    requires Reached(env, now, ls) && GotPANToken(WorldAt(env, now, ls), rid, token)
    ensures var w := WorldAt(env, now, ls); var r, tb := w.reqs[rid].req, w.store.sealed.tables;
      && token in tb.tokens && tb.tokens[token].tenant == r.tenant
      && (w.reqs[rid].pc.reply.created ==> token in tb.vault)
      && (token in tb.vault ==>
            tb.vault[token].tenant == r.tenant && OpenPAN(env.crypto, tb.vault[token].sealed) == Some(PANOf(r)))
  {
    TwinHolds(env, now, ls);
    TokenIsBound(env, TwinAt(env, now, ls), rid, token);
    var p := TwinAt(env, now, ls).store.plain;
    var tb := WorldAt(env, now, ls).store.sealed.tables;
    assert RowMatches(env, tb.tokens[token], p.tokens[token]);
    if token in p.vault {
      assert PANMatches(env, tb.vault[token], p.vault[token]);
    }
  }

  /** `rid` has ended with `reply`. */
  ghost predicate Answered(w: World, rid: nat, r: Request, reply: Reply) {
    rid in w.reqs && w.reqs[rid].req == r && w.reqs[rid].pc.Done? && w.reqs[rid].pc.reply == reply
  }

  /** Only a tokenize request with a PAN or a CVV, and with no bad one, ends with tokens. */
  lemma TokensMeanValidFields(env: Env, now: int, ls: seq<Label>, rid: nat, r: Request, created: bool, body: Body)
    requires Reached(env, now, ls) && Answered(WorldAt(env, now, ls), rid, r, Tokenized(created, body))
    ensures r.Tokenize? && ("pan" in r.body || "cvv" in r.body)
    ensures "pan" in r.body ==> r.body["pan"].Str? && ValidPAN(r.body["pan"].text)
    ensures "cvv" in r.body ==> r.body["cvv"].Str? && ValidCVV(r.body["cvv"].text)
  {
    TwinHolds(env, now, ls);
    assert RequestOK(env, TwinAt(env, now, ls), rid, r, WorldAt(env, now, ls).reqs[rid].pc);
  }

  /** A tenant that was created under a key ARN has its row, with the name asked for and that ARN, from then on. */
  lemma CreatedTenantMeansRow(env: Env, now: int, ls: seq<Label>, rid: nat, r: Request, arn: string)
    requires Reached(env, now, ls) && Answered(WorldAt(env, now, ls), rid, r, TenantCreated(arn))
    ensures r.CreateTenant? && ValidTenantID(r.tenant) && r.name != ""
    ensures var tenants := WorldAt(env, now, ls).store.sealed.tables.tenants;
      r.tenant in tenants && tenants[r.tenant].name == r.name && tenants[r.tenant].keyARN == arn
  {
    TwinHolds(env, now, ls);
    assert RequestOK(env, TwinAt(env, now, ls), rid, r, WorldAt(env, now, ls).reqs[rid].pc);
  }

  /** A status with facts is that of a PAN token of the tenant, which was active then if it is now. */
  lemma StatusMeansRow(env: Env, now: int, ls: seq<Label>, rid: nat, r: Request, facts: TokenFacts)
    requires Reached(env, now, ls) && Answered(WorldAt(env, now, ls), rid, r, PANStatus(facts))
    ensures r.GetStatus?
    ensures var tokens := WorldAt(env, now, ls).store.sealed.tables.tokens;
      r.token in tokens && tokens[r.token].tenant == r.tenant && (tokens[r.token].active ==> facts.active)
  {
    TwinHolds(env, now, ls);
    var w, v := WorldAt(env, now, ls), TwinAt(env, now, ls);
    assert RequestOK(env, v, rid, r, w.reqs[rid].pc);
    assert RowMatches(env, w.store.sealed.tables.tokens[r.token], v.store.plain.tokens[r.token]);
  }

  // Detokenize

  /** A request that was given a value for its token. */
  ghost predicate GotValue(w: World, rid: nat, value: string) {
    && rid in w.reqs && w.reqs[rid].pc.Done? && w.reqs[rid].pc.reply == Revealed(value)
  }

  /** A revealed value is what the tokenize request that generated the token, under the same tenant, was given. */
  lemma NeverAWrongValue(env: Env, now: int, ls: seq<Label>, rid: nat, value: string)
    requires Reached(env, now, ls) && GotValue(WorldAt(env, now, ls), rid, value)
    ensures var w := WorldAt(env, now, ls); var r := w.reqs[rid].req;
      && r.Detokenize? && r.token in w.issued && w.issued[r.token].rid in w.reqs
      && var source := w.reqs[w.issued[r.token].rid].req;
         && source.Tokenize? && source.tenant == r.tenant
         && if w.issued[r.token].isPAN then HasPAN(source) && (value == PANOf(source) || value == "")
            else HasCVV(source) && value == CVVOf(source)
  {
    TwinHolds(env, now, ls);
    var v := TwinAt(env, now, ls);
    assert RequestOK(env, v, rid, v.reqs[rid].req, v.reqs[rid].pc);
  }

  lemma PANsAreNotEmpty(env: Env, v: World, token: string)
    requires Inv(env, v) && token in v.store.plain.tokens
    ensures v.store.plain.tokens[token].pan != ""
  {
    assert BornPAN(v, token, v.store.plain.tokens[token].tenant, v.store.plain.tokens[token].pan);
  }

  lemma ReadStepGives(env: Env, p: PlainStore, r: Request, c: Choice)
    requires r.Detokenize? && VaultOK(p) && HasToken(p, r.tenant, r.token)
    ensures var pc := Step(env, Plain(p), r, AtReadPAN, c).1;
      pc.AtTouch? ==> pc.value == if r.token in p.vault then p.tokens[r.token].pan else ""
  {
    ReadsRowPAN(env, p, r.tenant, r.token, c.fault);
  }

  lemma ReadsInTwin(env: Env, v: World, rid: nat, c: Choice)
    requires Inv(env, v) && rid in v.reqs && v.reqs[rid].pc.AtReadPAN?
    ensures var pc := Next(env, v, Advance(rid, c)).reqs[rid].pc;
      pc.AtTouch? ==> (pc.value == "" <==> TokenOf(v.reqs[rid].req) !in v.store.plain.vault)
  {
    var r := v.reqs[rid].req;
    assert RequestOK(env, v, rid, r, v.reqs[rid].pc);
    PANsAreNotEmpty(env, v, r.token);
    ReadStepGives(env, v.store.plain, r, c);
  }

  /** The value read for a PAN token is empty exactly when its vault row is not there at that moment. */
  lemma EmptyMeansNoVaultRow(env: Env, now: int, ls: seq<Label>, rid: nat, c: Choice)
    requires Reached(env, now, ls + [Advance(rid, c)])
    requires rid in WorldAt(env, now, ls).reqs && WorldAt(env, now, ls).reqs[rid].pc.AtReadPAN?
    requires rid in WorldAt(env, now, ls + [Advance(rid, c)]).reqs
    requires WorldAt(env, now, ls + [Advance(rid, c)]).reqs[rid].pc.AtTouch?
    ensures WorldAt(env, now, ls + [Advance(rid, c)]).reqs[rid].pc.value == ""
       <==> TokenOf(WorldAt(env, now, ls).reqs[rid].req) !in WorldAt(env, now, ls).store.sealed.tables.vault
  {
    TwinGoesOn(env, now, ls, [Advance(rid, c)]);
    TwinHolds(env, now, ls);
    var v := TwinAt(env, now, ls);
    ReadsInTwin(env, v, rid, c);
    assert Run(env, v, [Advance(rid, c)]) == Next(env, v, Advance(rid, c));
  }

  /** `rid` holds the empty value or has answered with it. */
  ghost predicate HoldsEmpty(w: World, rid: nat) {
    && rid in w.reqs
    && (w.reqs[rid].pc == AtTouch("") || (w.reqs[rid].pc.Done? && w.reqs[rid].pc.reply == Revealed("")))
  }

  lemma EmptyIsRead(r: Request, pc: Pc, c: Choice, answer: Answer, now: int)
    requires !pc.Done?
    ensures var pc' := Resume(r, pc, c, answer, now);
      pc' == AtTouch("") || (pc'.Done? && pc'.reply == Revealed("")) ==> pc == AtTouch("") || (pc.AtReadPAN? && pc'.AtTouch?)
  {
  }

  lemma EmptyComesFrom(env: Env, w: World, l: Label, rid: nat)
    requires HoldsEmpty(Next(env, w, l), rid) && !HoldsEmpty(w, rid)
    ensures l.Advance? && l.rid == rid && rid in w.reqs && w.reqs[rid].pc.AtReadPAN?
    ensures Next(env, w, l).reqs[rid].pc == AtTouch("")
  {
    if l.Advance? && InProgress(w, l.rid) {
      var Progress(r, pc) := w.reqs[l.rid];
      EmptyIsRead(r, pc, l.choice, Exec(env, w.store, CallOf(r, pc, l.choice), l.choice.fault).1, Now(w.store));
    }
  }

  lemma CutLast(env: Env, now: int, ls: seq<Label>, n: nat)
    requires n < |ls| && Reached(env, now, ls)
    ensures ls[..n] + [ls[n]] == ls[..n + 1]
    ensures Reached(env, now, ls[..n]) && Reached(env, now, ls[..n + 1])
    ensures WorldAt(env, now, ls[..n + 1]) == Next(env, WorldAt(env, now, ls[..n]), ls[n])
  {
    assert ls == ls[..n + 1] + ls[n + 1..];
    assert ls[..n + 1] == ls[..n] + [ls[n]];
    RunAppend(env, SealedStart(now), ls[..n + 1], ls[n + 1..]);
    RunAppend(env, SealedStart(now), ls[..n], [ls[n]]);
    assert [ls[n]][0] == ls[n] && [ls[n]][1..] == [];
    assert Run(env, Next(env, WorldAt(env, now, ls[..n]), ls[n]), []) == Next(env, WorldAt(env, now, ls[..n]), ls[n]);
  }

  lemma NothingAtStart(env: Env, now: int, rid: nat)
    ensures !HoldsEmpty(WorldAt(env, now, []), rid)
  {
  }

  /** A 200 reply with the empty value was read, earlier in the run, when the token's vault row was not there. */
  lemma {:induction false} EmptyReplyMeansNoVaultRow(env: Env, now: int, ls: seq<Label>, m: nat, rid: nat) returns (n: nat)
    requires Reached(env, now, ls) && m <= |ls| && HoldsEmpty(WorldAt(env, now, ls[..m]), rid)
    ensures n < m && rid in WorldAt(env, now, ls[..n]).reqs && WorldAt(env, now, ls[..n]).reqs[rid].pc.AtReadPAN?
    ensures TokenOf(WorldAt(env, now, ls[..n]).reqs[rid].req) !in WorldAt(env, now, ls[..n]).store.sealed.tables.vault
    decreases m
  {
    NothingAtStart(env, now, rid);
    assert ls[..0] == [];
    n := m - 1;
    CutLast(env, now, ls, n);
    if HoldsEmpty(WorldAt(env, now, ls[..n]), rid) {
      n := EmptyReplyMeansNoVaultRow(env, now, ls, n, rid);
    } else {
      EmptyComesFrom(env, WorldAt(env, now, ls[..n]), ls[n], rid);
      EmptyMeansNoVaultRow(env, now, ls[..n], rid, ls[n].choice);
    }
  }

  lemma RevealedIsGone(env: Env, v: World, rid: nat)
    requires Inv(env, v) && RevealedCVV(v, rid)
    ensures (v.reqs[rid].req.tenant, v.reqs[rid].req.token) !in v.store.plain.cvvs
    ensures T.Alive(v.reqs[rid].pc.at, T.ExpiryAfter(v.issued[v.reqs[rid].req.token].at, env.ttl))
  {
    assert RequestOK(env, v, rid, v.reqs[rid].req, v.reqs[rid].pc);
  }

  lemma StillRevealed(v: World, v': World, rid: nat)
    requires Grows(v, v') && RevealedCVV(v, rid)
    ensures RevealedCVV(v', rid) && v'.reqs[rid] == v.reqs[rid]
  {
  }

  /** However many requests ask, a CVV token is revealed once, before its time is up, and is gone for good. */
  lemma CVVsAreSingleUse(env: Env, now: int, ls: seq<Label>, more: seq<Label>, a: nat, b: nat)
    requires Reached(env, now, ls + more) && RevealedCVV(WorldAt(env, now, ls), a)
    ensures var w := WorldAt(env, now, ls); var r := w.reqs[a].req;
      && (env.ttl > 0 ==> w.reqs[a].pc.at < w.issued[r.token].at + env.ttl)
      && CvvTokenKey(r.tenant, r.token) !in WorldAt(env, now, ls + more).store.sealed.keys
    ensures var w' := WorldAt(env, now, ls + more); var r := WorldAt(env, now, ls).reqs[a].req;
      RevealedCVV(w', b) && w'.reqs[b].req.tenant == r.tenant && w'.reqs[b].req.token == r.token ==> a == b
  {
    TwinGoesOn(env, now, ls, more);
    TwinHolds(env, now, ls);
    TwinHolds(env, now, ls + more);
    var v, v' := TwinAt(env, now, ls), TwinAt(env, now, ls + more);
    var r := v.reqs[a].req;
    RevealedIsGone(env, v, a);
    StillRevealed(v, v', a);
    RevealedIsGone(env, v', a);
    assert Sound(env, r, v.reqs[a].pc);
    ValidTenantIDsAreColonFree(r.tenant);
    assert CVVAt(env, WorldAt(env, now, ls + more).store.sealed.keys, v'.store.plain.cvvs, r.tenant, r.token);
  }
}
