/** Tokenize and reveal undo each other: a tokenize request served alone, some time, and a walk over the echoed body. */
module RoundTrip {
  import opened Options
  import opened Card
  import opened Identifiers
  import opened Envelope
  import opened Stores
  import opened Refinement
  import opened Requests
  import opened Machine
  import opened Lockstep
  import opened Invariants
  import opened Guarantees
  import opened Lookups
  import opened Json
  import opened Walks
  import opened Reveal
  import opened RevealRuns
  import T = Tables

  /** The rows and the clock are as they were. */
  ghost predicate RowsSame(p: PlainStore, p': PlainStore) {
    && p'.now == p.now && p'.tenants == p.tenants && p'.tokens == p.tokens && p'.byPan == p.byPan && p'.vault == p.vault
  }

  ghost predicate HoldsCVV(p: PlainStore, t: string, k: string, v: Timed) {
    (t, k) in p.cvvs && p.cvvs[(t, k)] == v
  }

  lemma SetsOwner(env: Env, p: PlainStore, r: Request, d: Draft, k: string, script: Script)
    requires AllFine(script) && r.Tokenize?
    ensures Complete(env, Plain(p), r, AtSetOwner(d, k), script)
         == (Plain(p.(owners := p.owners[(r.tenant, d.panToken) := Timed(k, T.ExpiryAfter(p.now, env.ttl))])),
             Tokenized(d.created, d.body["cvv" := Str(k)]))
  {
  }

  lemma DropsPrevious(env: Env, p: PlainStore, r: Request, d: Draft, k: string, previous: string, script: Script)
    requires AllFine(script) && r.Tokenize? && previous != k
    requires (r.tenant, k) in p.cvvs
    ensures var (s', reply) := Complete(env, Plain(p), r, AtDropPrevious(d, k, previous), script);
      && reply == Tokenized(d.created, d.body["cvv" := Str(k)]) && s'.Plain?
      && RowsSame(p, s'.plain) && HoldsCVV(s'.plain, r.tenant, k, p.cvvs[(r.tenant, k)])
  {
    var q := p.(cvvs := p.cvvs - {(r.tenant, previous)});
    SetsOwner(env, q, r, d, k, script);
    assert Step(env, Plain(p), r, AtDropPrevious(d, k, previous), script.drop) == (Plain(q), AtSetOwner(d, k));
  }

  lemma GetsOwner(env: Env, p: PlainStore, r: Request, d: Draft, k: string, script: Script)
    requires AllFine(script) && r.Tokenize? && (r.tenant, k) in p.cvvs
    requires forall o :: o in p.owners ==> p.owners[o].value != k
    ensures var (s', reply) := Complete(env, Plain(p), r, AtGetOwner(d, k), script);
      && reply == Tokenized(d.created, d.body["cvv" := Str(k)]) && s'.Plain?
      && RowsSame(p, s'.plain) && HoldsCVV(s'.plain, r.tenant, k, p.cvvs[(r.tenant, k)])
  {
    var o := (r.tenant, d.panToken);
    if LiveOwner(p, r.tenant, d.panToken) && p.owners[o].value != "" {
      DropsPrevious(env, p, r, d, k, p.owners[o].value, script);
      assert Step(env, Plain(p), r, AtGetOwner(d, k), script.getOwner) == (Plain(p), AtDropPrevious(d, k, p.owners[o].value));
    } else {
      SetsOwner(env, p, r, d, k, script);
      assert Step(env, Plain(p), r, AtGetOwner(d, k), script.getOwner) == (Plain(p), AtSetOwner(d, k));
    }
  }

  lemma PutsCVV(env: Env, p: PlainStore, r: Request, d: Draft, script: Script)
    requires AllFine(script) && HasCVV(r)
    requires forall o :: o in p.owners ==> p.owners[o].value != script.put.id
    ensures var (s', reply) := Complete(env, Plain(p), r, AtPutCVV(d), script);
      && reply == Tokenized(d.created, d.body["cvv" := Str(script.put.id)]) && s'.Plain?
      && RowsSame(p, s'.plain) && HoldsCVV(s'.plain, r.tenant, script.put.id, Timed(CVVOf(r), T.ExpiryAfter(p.now, env.ttl)))
  {
    var k := script.put.id;
    var q := p.(cvvs := p.cvvs[(r.tenant, k) := Timed(CVVOf(r), T.ExpiryAfter(p.now, env.ttl))]);
    if d.panToken != "" {
      GetsOwner(env, q, r, d, k, script);
      assert Step(env, Plain(p), r, AtPutCVV(d), script.put) == (Plain(q), AtGetOwner(d, k));
    } else {
      assert Step(env, Plain(p), r, AtPutCVV(d), script.put) == (Plain(q), Echo(d, k, p.now));
    }
  }

  /** The PAN has its active row and its vault row. */
  ghost predicate PANKept(p: PlainStore, t: string, pan: string, token: string) {
    ActivePAN(p, t, token) && token in p.vault && p.vault[token].tenant == t && p.vault[token].pan == pan
  }

  /** The reply echoes `d`, with the CVV token in place of the CVV if there is one, and that CVV is stored. */
  ghost predicate Echoed(env: Env, p: PlainStore, s: Store, reply: Reply, r: Request, d: Draft, k: string) {
    && s.Plain? && RowsSame(p, s.plain)
    && (if HasCVV(r) then
          && reply == Tokenized(d.created, d.body["cvv" := Str(k)])
          && HoldsCVV(s.plain, r.tenant, k, Timed(CVVOf(r), T.ExpiryAfter(p.now, env.ttl)))
        else reply == Tokenized(d.created, d.body))
  }

  lemma EchoesDraft(env: Env, p: PlainStore, r: Request, d: Draft, script: Script)
    requires AllFine(script) && r.Tokenize? && ("cvv" in r.body ==> HasCVV(r))
    requires forall o :: o in p.owners ==> p.owners[o].value != script.put.id
    ensures var (s', reply) := Complete(env, Plain(p), r, CheckCVV(r, d, p.now), script);
      Echoed(env, p, s', reply, r, d, script.put.id)
  {
    if HasCVV(r) {
      PutsCVV(env, p, r, d, script);
    }
  }

  /** The ids a request draws are new to the store. */
  ghost predicate Fresh(p: PlainStore, script: Script) {
    && script.insert.id !in p.tokens && script.insert.id !in p.vault && script.put.id !in p.tokens
    && script.put.id != script.insert.id
    && forall o :: o in p.owners ==> p.owners[o].value != script.put.id
  }

  function DraftFor(r: Request, created: bool, token: string): Draft
    requires r.Tokenize?
  {
    Draft(created, token, r.body["pan" := Str(token)])
  }

  lemma InsertsPAN(env: Env, p: PlainStore, r: Request, arn: string, sealing: Sealing, token: string, script: Script)
    requires AllFine(script) && HasPAN(r) && ("cvv" in r.body ==> HasCVV(r))
    requires token in p.tokens && token !in p.vault
    requires forall o :: o in p.owners ==> p.owners[o].value != script.put.id
    ensures var (s', reply) := Complete(env, Plain(p), r, AtInsertPAN(arn, token, sealing), script);
      Echoed(env, p.(vault := p.vault[token := PlainPAN(r.tenant, PANOf(r), arn)]), s', reply, r,
             DraftFor(r, true, token), script.put.id)
  {
    var q := p.(vault := p.vault[token := PlainPAN(r.tenant, PANOf(r), arn)]);
    var pc := AtInsertPAN(arn, token, sealing);
    var pc' := CheckCVV(r, DraftFor(r, true, token), p.now);
    assert Step(env, Plain(p), r, pc, script.insertPAN) == (Plain(q), pc');
    StepThenComplete(env, Plain(p), r, pc, script, Plain(q), pc');
    EchoesDraft(env, q, r, DraftFor(r, true, token), script);
  }

  function WithToken(p: PlainStore, r: Request, token: string): PlainStore
    requires HasPAN(r)
  {
    p.(tokens := p.tokens[token := PlainToken(r.tenant, PANOf(r), true, None)],
       byPan := p.byPan[(r.tenant, PANOf(r)) := token])
  }

  function WithPAN(p: PlainStore, r: Request, token: string, arn: string): PlainStore
    requires HasPAN(r)
  {
    WithToken(p, r, token).(vault := p.vault[token := PlainPAN(r.tenant, PANOf(r), arn)])
  }

  lemma InsertsToken(env: Env, p: PlainStore, r: Request, arn: string, script: Script)
    requires AllFine(script) && HasPAN(r) && ("cvv" in r.body ==> HasCVV(r))
    requires Fresh(p, script) && r.tenant in p.tenants && (r.tenant, PANOf(r)) !in p.byPan
    ensures var (s', reply) := Complete(env, Plain(p), r, AtInsertToken(arn), script);
      Echoed(env, WithPAN(p, r, script.insert.id, arn), s', reply, r, DraftFor(r, true, script.insert.id), script.put.id)
  {
    var id := script.insert.id;
    var q, pc' := WithToken(p, r, id), AtInsertPAN(arn, id, script.insert.sealing);
    assert Step(env, Plain(p), r, AtInsertToken(arn), script.insert) == (Plain(q), pc');
    StepThenComplete(env, Plain(p), r, AtInsertToken(arn), script, Plain(q), pc');
    InsertsPAN(env, q, r, arn, script.insert.sealing, id, script);
  }

  /** The token a request ends up with and the rows it leaves, depending on whether its card was seen before. */
  ghost predicate PANServed(env: Env, p: PlainStore, s: Store, reply: Reply, r: Request, arn: string, script: Script)
    requires HasPAN(r)
  {
    var card := (r.tenant, PANOf(r));
    if card in p.byPan
    then Echoed(env, p, s, reply, r, DraftFor(r, false, p.byPan[card]), script.put.id)
    else Echoed(env, WithPAN(p, r, script.insert.id, arn), s, reply, r, DraftFor(r, true, script.insert.id), script.put.id)
  }

  lemma FindsPAN(env: Env, p: PlainStore, r: Request, arn: string, script: Script)
    requires AllFine(script) && HasPAN(r) && ("cvv" in r.body ==> HasCVV(r))
    requires Fresh(p, script) && r.tenant in p.tenants
    ensures var (s', reply) := Complete(env, Plain(p), r, AtFindPAN(arn), script);
      PANServed(env, p, s', reply, r, arn, script)
  {
    var card := (r.tenant, PANOf(r));
    if card in p.byPan {
      var pc' := CheckCVV(r, DraftFor(r, false, p.byPan[card]), p.now);
      assert Step(env, Plain(p), r, AtFindPAN(arn), script.find) == (Plain(p), pc');
      StepThenComplete(env, Plain(p), r, AtFindPAN(arn), script, Plain(p), pc');
      EchoesDraft(env, p, r, DraftFor(r, false, p.byPan[card]), script);
    } else {
      assert Step(env, Plain(p), r, AtFindPAN(arn), script.find) == (Plain(p), AtInsertToken(arn));
      StepThenComplete(env, Plain(p), r, AtFindPAN(arn), script, Plain(p), AtInsertToken(arn));
      InsertsToken(env, p, r, arn, script);
    }
  }

  lemma TokenizeServed(env: Env, p: PlainStore, r: Request, script: Script)
    requires AllFine(script) && WellFormed(r) && Admitted(p, r.tenant) && Fresh(p, script)
    ensures var (s', reply) := Serve(env, Plain(p), r, script);
      if HasPAN(r) then PANServed(env, p, s', reply, r, p.tenants[r.tenant].keyARN, script)
      else Echoed(env, p, s', reply, r, Draft(false, "", r.body), script.put.id)
  {
    var arn := p.tenants[r.tenant].keyARN;
    var pc' := AfterGate(r, arn, p.now);
    assert Step(env, Plain(p), r, AtGate, script.gate) == (Plain(p), pc');
    StepThenComplete(env, Plain(p), r, AtGate, script, Plain(p), pc');
    if HasPAN(r) {
      FindsPAN(env, p, r, arn, script);
    } else {
      EchoesDraft(env, p, r, Draft(false, "", r.body), script);
    }
  }

  // The tokens in the echoed body

  lemma {:induction false} TokenFreeBag(j: Json)
    requires TokenFree(j)
    ensures LeafBag(j) == multiset{}
    decreases j
  {
    match j
    case Arr(items) => TokenFreeItemsBag(j, |items|);
    case Obj(fields) => TokenFreeFieldsBag(j, fields.Keys);
    case _ =>
  }

  lemma {:induction false} TokenFreeItemsBag(j: Json, n: nat)
    requires j.Arr? && n <= |j.items| && TokenFree(j)
    ensures ItemsBag(j, n) == multiset{}
    decreases j, n
  {
    if n > 0 {
      TokenFreeItemsBag(j, n - 1);
      TokenFreeBag(j.items[n - 1]);
    }
  }

  lemma {:induction false} TokenFreeFieldsBag(j: Json, keys: set<string>)
    requires j.Obj? && keys <= j.fields.Keys && forall k :: k in keys ==> TokenFree(j.fields[k])
    ensures FieldsBag(j, keys) == multiset{}
    decreases j, |keys|
  {
    if keys != {} {
      var k :| k in keys;
      FieldsBagRemove(j, keys, k);
      TokenFreeBag(j.fields[k]);
      TokenFreeFieldsBag(j, keys - {k});
    }
  }

  function BagAt(j: Json, key: string): multiset<string> {
    if j.Obj? && key in j.fields && j.fields[key].Str? && IsTokenShaped(j.fields[key].text)
    then multiset{j.fields[key].text} else multiset{}
  }

  lemma FieldsBagAt(j: Json, keys: set<string>, key: string)
    requires j.Obj? && keys <= j.fields.Keys && (key in keys ==> j.fields[key].Str?)
    ensures FieldsBag(j, keys) == FieldsBag(j, keys - {key}) + (if key in keys then BagAt(j, key) else multiset{})
  {
    if key in keys {
      FieldsBagRemove(j, keys, key);
    } else {
      assert keys - {key} == keys;
    }
  }

  /** An object whose other fields hold no tokens has the tokens at "pan" and "cvv" and no more. */
  lemma EchoBag(j: Json)
    requires j.Obj? && forall k :: k in j.fields && k != "pan" && k != "cvv" ==> TokenFree(j.fields[k])
    requires forall k :: k in j.fields && (k == "pan" || k == "cvv") ==> j.fields[k].Str?
    ensures LeafBag(j) == BagAt(j, "pan") + BagAt(j, "cvv")
  {
    var all := j.fields.Keys;
    FieldsBagAt(j, all, "pan");
    FieldsBagAt(j, all - {"pan"}, "cvv");
    TokenFreeFieldsBag(j, all - {"pan"} - {"cvv"});
  }

  /** The echoed body fills back to the original when its tokens stand for the original values. */
  lemma EchoFills(p: PlainStore, t: string, body: Body, echo: Body)
    requires echo.Keys == body.Keys
    requires forall k :: k in body && k != "pan" && k != "cvv" ==> echo[k] == body[k] && TokenFree(body[k])
    requires forall k :: k in body && (k == "pan" || k == "cvv") ==>
      echo[k].Str? && IsTokenShaped(echo[k].text) && body[k] == Str(ValueOf(p, t, echo[k].text))
    ensures Fill(p, t, Obj(echo)) == Obj(body)
  {
    var filled := map k | k in echo :: Fill(p, t, echo[k]);
    forall k | k in echo
      ensures filled[k] == body[k]
    {
      if k != "pan" && k != "cvv" {
        FillOfTokenFree(p, t, echo[k]);
      }
    }
    assert filled == body;
  }

  /** `echo` is the body with tokens that stand for the original values in `p`; the CVV is kept until `expires`. */
  ghost predicate StandsFor(p: PlainStore, r: Request, echo: Body, token: string, k: string, expires: Option<int>) {
    && WellFormed(r) && echo.Keys == r.body.Keys
    && (forall f :: f in echo && f != "pan" && f != "cvv" ==> echo[f] == r.body[f] && TokenFree(r.body[f]))
    && (HasPAN(r) ==> echo["pan"] == Str(token) && IsTokenShaped(token) && PANKept(p, r.tenant, PANOf(r), token))
    && (HasCVV(r) ==>
          && echo["cvv"] == Str(k) && IsTokenShaped(k) && !HasToken(p, r.tenant, k) && k != token
          && HoldsCVV(p, r.tenant, k, Timed(CVVOf(r), expires)))
  }

  lemma EchoResolves(p: PlainStore, r: Request, echo: Body, token: string, k: string, expires: Option<int>)
    requires StandsFor(p, r, echo, token, k, expires) && Admitted(p, r.tenant)
    requires HasCVV(r) ==> T.Alive(p.now, expires)
    ensures AllResolvable(p, r.tenant, LeafBag(Obj(echo)))
  {
    var j := Obj(echo);
    EchoBag(j);
    assert forall tok :: tok in BagAt(j, "pan") ==> tok == token;
    assert forall tok :: tok in BagAt(j, "cvv") ==> tok == k;
  }

  /** Past its time the CVV token cannot be resolved any more. */
  lemma ExpiredStops(p: PlainStore, r: Request, echo: Body, token: string, k: string, expires: Option<int>)
    requires StandsFor(p, r, echo, token, k, expires) && HasCVV(r) && !T.Alive(p.now, expires)
    ensures !AllResolvable(p, r.tenant, LeafBag(Obj(echo)))
  {
    var j := Obj(echo);
    FieldsBagRemove(j, j.fields.Keys, "cvv");
    assert LeafBag(j.fields["cvv"]) == multiset{k};
    assert k in LeafBag(j) && !Resolvable(p, r.tenant, k);
  }

  lemma EchoReveals(
    env: Env, p: PlainStore, n: nat, r: Request, echo: Body, token: string, k: string, expires: Option<int>, o: Visit,
    weather: Weather)
    requires StandsFor(p, r, echo, token, k, expires) && Admitted(p, r.tenant)
    requires Calm(weather) && NoEmptyCVV(p) && Visits(o, Obj(echo))
    ensures Walk(env, Remote(Plain(p), n), r.tenant, o, weather).result == Some(Obj(r.body))
       <==> (HasCVV(r) ==> T.Alive(p.now, expires))
  {
    OrderDoesNotMatter(env, p, n, r.tenant, Obj(echo), o, weather);
    if HasCVV(r) && !T.Alive(p.now, expires) {
      ExpiredStops(p, r, echo, token, k, expires);
    } else {
      EchoResolves(p, r, echo, token, k, expires);
      EchoFills(p, r.tenant, r.body, echo);
    }
  }

  lemma PutsOnlyCVVs(r: Request, pc: Pc, c: Choice, answer: Answer, now: int)
    requires !pc.Done?
    ensures Resume(r, pc, c, answer, now).AtPutCVV? ==> HasCVV(r)
  {
  }

  lemma StepKeepsCVVs(env: Env, p: PlainStore, r: Request, pc: Pc, c: Choice)
    requires !pc.Done? && NoEmptyCVV(p) && (pc.AtPutCVV? ==> HasCVV(r))
    ensures var s' := Step(env, Plain(p), r, pc, c).0; s'.Plain? && NoEmptyCVV(s'.plain)
  {
    var call := CallOf(r, pc, c);
    CallFootprint(env, p, call, c.fault);
    var p' := Exec(env, Plain(p), call, c.fault).0.plain;
    forall k | k in p'.cvvs
      ensures p'.cvvs[k].value != ""
    {
      NewCVVsOf(env, p, call, c.fault, k);
    }
  }

  lemma {:induction false} CompleteKeepsCVVs(env: Env, p: PlainStore, r: Request, pc: Pc, script: Script)
    requires NoEmptyCVV(p) && (pc.AtPutCVV? ==> HasCVV(r))
    ensures var s' := Complete(env, Plain(p), r, pc, script).0; s'.Plain? && NoEmptyCVV(s'.plain)
    decreases Rank(pc)
  {
    if !pc.Done? {
      var c := ChoiceAt(script, pc);
      StepKeepsCVVs(env, p, r, pc, c);
      PutsOnlyCVVs(r, pc, c, Exec(env, Plain(p), CallOf(r, pc, c), c.fault).1, p.now);
      ResumeDescends(r, pc, c, Exec(env, Plain(p), CallOf(r, pc, c), c.fault).1, p.now);
      var (s', pc') := Step(env, Plain(p), r, pc, c);
      CompleteKeepsCVVs(env, s'.plain, r, pc', script);
    }
  }

  /** The ids drawn are new to the whole world and distinct. */
  ghost predicate FreshIn(w: World, script: Script) {
    script.insert.id !in w.issued && script.put.id !in w.issued && script.put.id != script.insert.id
  }

  /** If the card has a token already, that token is active and its PAN was stored. */
  ghost predicate CardUsable(p: PlainStore, r: Request) {
    HasPAN(r) && (r.tenant, PANOf(r)) in p.byPan ==>
      PANKept(p, r.tenant, PANOf(r), p.byPan[(r.tenant, PANOf(r))])
  }

  ghost predicate OthersTokenFree(r: Request)
    requires r.Tokenize?
  {
    forall f :: f in r.body && f != "pan" && f != "cvv" ==> TokenFree(r.body[f])
  }

  lemma FreshInStore(env: Env, v: World, script: Script)
    requires Inv(env, v) && FreshIn(v, script)
    ensures Fresh(v.store.plain, script)
  {
  }

  function TokenGiven(p: PlainStore, r: Request, script: Script): string {
    if !HasPAN(r) then ""
    else if (r.tenant, PANOf(r)) in p.byPan then p.byPan[(r.tenant, PANOf(r))]
    else script.insert.id
  }

  lemma ServedBody(p: PlainStore, p': PlainStore, r: Request, d: Draft, reply: Reply, token: string, k: string, env: Env)
    requires WellFormed(r) && OthersTokenFree(r) && IsTokenShaped(k)
    requires Echoed(env, p, Plain(p'), reply, r, d, k)
    requires if HasPAN(r)
      then d == DraftFor(r, d.created, token) && IsTokenShaped(token) && PANKept(p, r.tenant, PANOf(r), token)
      else d.body == r.body
    requires !HasToken(p, r.tenant, k) && k != token
    ensures reply.Tokenized? && StandsFor(p', r, reply.body, token, k, T.ExpiryAfter(p.now, env.ttl))
  {
  }

  /** A well-formed request of an active tenant, with fresh ids. */
  ghost predicate Welcome(env: Env, v: World, r: Request, script: Script)
    requires v.store.Plain?
  {
    && AllFine(script) && ScriptFits(env, script) && FreshIn(v, script)
    && WellFormed(r) && OthersTokenFree(r) && Admitted(v.store.plain, r.tenant)
  }

  lemma ServedKnownCard(env: Env, v: World, r: Request, script: Script, p': PlainStore, reply: Reply)
    requires Inv(env, v) && Welcome(env, v, r, script)
    requires HasPAN(r) && (r.tenant, PANOf(r)) in v.store.plain.byPan && CardUsable(v.store.plain, r)
    requires PANServed(env, v.store.plain, Plain(p'), reply, r, v.store.plain.tenants[r.tenant].keyARN, script)
    ensures reply.Tokenized? && Admitted(p', r.tenant)
    ensures StandsFor(p', r, reply.body, TokenGiven(v.store.plain, r, script), script.put.id,
                      T.ExpiryAfter(v.store.plain.now, env.ttl))
  {
    var p, token, k := v.store.plain, TokenGiven(v.store.plain, r, script), script.put.id;
    assert BornPAN(v, token, r.tenant, PANOf(r));
    FreshInStore(env, v, script);
    GeneratedIDsAreTokenShaped(k);
    GeneratedIDsAreTokenShaped(token);
    ServedBody(p, p', r, DraftFor(r, false, token), reply, token, k, env);
  }

  lemma NewCardKept(p: PlainStore, r: Request, token: string, arn: string, k: string)
    requires HasPAN(r) && k !in p.tokens && k != token
    ensures PANKept(WithPAN(p, r, token, arn), r.tenant, PANOf(r), token)
    ensures !HasToken(WithPAN(p, r, token, arn), r.tenant, k)
    ensures WithPAN(p, r, token, arn).tenants == p.tenants
  {
  }

  lemma ServedNewCard(env: Env, v: World, r: Request, script: Script, p': PlainStore, reply: Reply)
    requires Inv(env, v) && Welcome(env, v, r, script)
    requires HasPAN(r) && (r.tenant, PANOf(r)) !in v.store.plain.byPan
    requires PANServed(env, v.store.plain, Plain(p'), reply, r, v.store.plain.tenants[r.tenant].keyARN, script)
    ensures reply.Tokenized? && Admitted(p', r.tenant)
    ensures StandsFor(p', r, reply.body, TokenGiven(v.store.plain, r, script), script.put.id,
                      T.ExpiryAfter(v.store.plain.now, env.ttl))
  {
    var p, token, k := v.store.plain, script.insert.id, script.put.id;
    var arn := p.tenants[r.tenant].keyARN;
    FreshInStore(env, v, script);
    GeneratedIDsAreTokenShaped(k);
    GeneratedIDsAreTokenShaped(token);
    NewCardKept(p, r, token, arn, k);
    var q := WithPAN(p, r, token, arn);
    assert Echoed(env, q, Plain(p'), reply, r, DraftFor(r, true, token), k);
    ServedBody(q, p', r, DraftFor(r, true, token), reply, token, k, env);
  }

  lemma ServedWithoutPAN(env: Env, v: World, r: Request, script: Script, p': PlainStore, reply: Reply)
    requires Inv(env, v) && Welcome(env, v, r, script) && !HasPAN(r)
    requires Echoed(env, v.store.plain, Plain(p'), reply, r, Draft(false, "", r.body), script.put.id)
    ensures reply.Tokenized? && Admitted(p', r.tenant)
    ensures StandsFor(p', r, reply.body, "", script.put.id, T.ExpiryAfter(v.store.plain.now, env.ttl))
  {
    FreshInStore(env, v, script);
    GeneratedIDsAreTokenShaped(script.put.id);
    ServedBody(v.store.plain, p', r, Draft(false, "", r.body), reply, "", script.put.id, env);
  }

  lemma ServedStandsFor(env: Env, v: World, r: Request, script: Script)
    requires Inv(env, v) && Welcome(env, v, r, script) && CardUsable(v.store.plain, r)
    ensures Serve(env, v.store, r, script).0.Plain? && Serve(env, v.store, r, script).1.Tokenized?
    ensures Admitted(Serve(env, v.store, r, script).0.plain, r.tenant)
    ensures StandsFor(Serve(env, v.store, r, script).0.plain, r, Serve(env, v.store, r, script).1.body,
                      TokenGiven(v.store.plain, r, script), script.put.id, T.ExpiryAfter(v.store.plain.now, env.ttl))
  {
    FreshInStore(env, v, script);
    TokenizeServed(env, v.store.plain, r, script);
    var s', reply := Serve(env, v.store, r, script).0, Serve(env, v.store, r, script).1;
    if !HasPAN(r) {
      ServedWithoutPAN(env, v, r, script, s'.plain, reply);
    } else if (r.tenant, PANOf(r)) in v.store.plain.byPan {
      ServedKnownCard(env, v, r, script, s'.plain, reply);
    } else {
      ServedNewCard(env, v, r, script, s'.plain, reply);
    }
  }

  /** A token that is inactive or has no vault row cannot stand for its PAN. */
  ghost predicate Useless(p: PlainStore, t: string, token: string) {
    HasToken(p, t, token) && (!p.tokens[token].active || token !in p.vault)
  }

  lemma UselessValue(p: PlainStore, t: string, echo: Body, token: string)
    requires "pan" in echo && echo["pan"] == Str(token) && IsTokenShaped(token) && Useless(p, t, token)
    ensures Fill(p, t, Obj(echo)).Obj? && "pan" in Fill(p, t, Obj(echo)).fields
    ensures p.tokens[token].active ==> Fill(p, t, Obj(echo)).fields["pan"] == Str("")
  {
    var filled := map k | k in echo :: Fill(p, t, echo[k]);
    assert Fill(p, t, Obj(echo)) == Obj(filled);
    assert filled["pan"] == Fill(p, t, Str(token)) == Str(ValueOf(p, t, token));
  }

  lemma UselessTokenSpoilsWalk(
    env: Env, p: PlainStore, n: nat, t: string, body: Body, echo: Body, token: string, o: Visit, weather: Weather)
    requires "pan" in body && "pan" in echo && echo["pan"] == Str(token) && IsTokenShaped(token) && Useless(p, t, token)
    requires body["pan"].Str? && body["pan"].text != ""
    requires Calm(weather) && NoEmptyCVV(p) && Visits(o, Obj(echo))
    ensures Walk(env, Remote(Plain(p), n), t, o, weather).result != Some(Obj(body))
  {
    var j := Obj(echo);
    FieldsBagRemove(j, j.fields.Keys, "pan");
    assert LeafBag(j.fields["pan"]) == multiset{token};
    assert token in LeafBag(j);
    OrderDoesNotMatter(env, p, n, t, j, o, weather);
    UselessValue(p, t, echo, token);
    if !p.tokens[token].active {
      assert !Resolvable(p, t, token);
    }
  }

  lemma UnusableIsUseless(env: Env, v: World, r: Request)
    requires Inv(env, v) && HasPAN(r) && !CardUsable(v.store.plain, r)
    ensures var p := v.store.plain; var card := (r.tenant, PANOf(r));
      card in p.byPan && Useless(p, r.tenant, p.byPan[card]) && IsTokenShaped(p.byPan[card])
  {
    var p := v.store.plain;
    var token := p.byPan[(r.tenant, PANOf(r))];
    assert BornPAN(v, token, p.tokens[token].tenant, p.tokens[token].pan);
    GeneratedIDsAreTokenShaped(token);
  }

  /** For a card whose token is useless the request still succeeds, and the echo names the useless token. */
  lemma ServedUnusableCard(env: Env, v: World, r: Request, script: Script)
    requires Inv(env, v) && Welcome(env, v, r, script) && !CardUsable(v.store.plain, r)
    ensures Serve(env, v.store, r, script).0.Plain? && Serve(env, v.store, r, script).1.Tokenized?
    ensures var p', body := Serve(env, v.store, r, script).0.plain, Serve(env, v.store, r, script).1.body;
      var token := TokenGiven(v.store.plain, r, script);
      "pan" in body && body["pan"] == Str(token) && IsTokenShaped(token) && Useless(p', r.tenant, token)
  {
    FreshInStore(env, v, script);
    UnusableIsUseless(env, v, r);
    TokenizeServed(env, v.store.plain, r, script);
  }

  /** `d` is within the lifetime of a CVV; without a positive lifetime it never ends. */
  predicate InTime(env: Env, d: nat) {
    env.ttl <= 0 || d < env.ttl
  }

  lemma AliveInTime(env: Env, now: int, d: nat)
    ensures T.Alive(now + d, T.ExpiryAfter(now, env.ttl)) <==> InTime(env, d)
  {
  }

  /**
    Tokenize and reveal undo each other. At any point of any run, a well-formed tokenize request of an active tenant
    whose other fields hold no token-shaped strings succeeds; and walking the echoed body any time `d` later, in any
    order, gives back the body that was sent exactly when its card was new or its token is active and has its PAN stored,
    and its CVV, if it had one, has not expired.
   */
  lemma TokenizeThenReveal(
    env: Env, now: int, ls: seq<Label>, r: Request, d: nat, n: nat, o: Visit, script: Script, walking: Weather)
    requires Reached(env, now, ls) && PANKnown(env, r) && Welcome(env, TwinAt(env, now, ls), r, script)
    requires Calm(walking) && WeatherFits(env, walking)
    ensures var (s', reply) := Serve(env, WorldAt(env, now, ls).store, r, script);
      && reply.Tokenized?
      && (Visits(o, Obj(reply.body)) ==>
            (Walk(env, Remote(Wait(s', d), n), r.tenant, o, walking).result == Some(Obj(r.body))
             <==> CardUsable(TwinAt(env, now, ls).store.plain, r) && (HasCVV(r) ==> env.ttl <= 0 || d < env.ttl)))
  {
    TwinHolds(env, now, ls);
    var w, v := WorldAt(env, now, ls), TwinAt(env, now, ls);
    ServeAgrees(env, w.store, v.store, r, script);
    RevealAfterTokenize(env, v, r, d, n, o, script, walking);
    var s', q', reply := Serve(env, w.store, r, script).0, Serve(env, v.store, r, script).0, Serve(env, v.store, r, script).1;
    WalkAgrees(env, Remote(Wait(s', d), n), Remote(Wait(q', d), n), r.tenant, o, walking);
  }

  lemma RevealAfterTokenize(
    env: Env, v: World, r: Request, d: nat, n: nat, o: Visit, script: Script, walking: Weather)
    requires Inv(env, v) && Welcome(env, v, r, script) && Calm(walking)
    ensures var (q', reply) := Serve(env, v.store, r, script);
      && reply.Tokenized?
      && (Visits(o, Obj(reply.body)) ==>
            (Walk(env, Remote(Wait(q', d), n), r.tenant, o, walking).result == Some(Obj(r.body))
             <==> CardUsable(v.store.plain, r) && (HasCVV(r) ==> InTime(env, d))))
  {
    if CardUsable(v.store.plain, r) {
      RevealUsable(env, v, r, d, n, o, script, walking);
    } else {
      RevealUnusable(env, v, r, d, n, o, script, walking);
    }
  }

  lemma LaterStore(env: Env, v: World, r: Request, d: nat, script: Script)
    requires Inv(env, v) && Welcome(env, v, r, script)
    ensures var s' := Serve(env, v.store, r, script).0;
      && s'.Plain? && s'.plain.now == v.store.plain.now
      && NoEmptyCVV(s'.plain) && Wait(s', d) == Plain(s'.plain.(now := s'.plain.now + d))
  {
    StoredValuesAreDigits(env, v);
    CompleteKeepsCVVs(env, v.store.plain, r, Start(r, Now(v.store)), script);
    CompleteKeepsTime(env, v.store.plain, r, Start(r, Now(v.store)), script);
  }

  lemma RevealUsable(env: Env, v: World, r: Request, d: nat, n: nat, o: Visit, script: Script, walking: Weather)
    requires Inv(env, v) && Welcome(env, v, r, script) && Calm(walking) && CardUsable(v.store.plain, r)
    ensures var (q', reply) := Serve(env, v.store, r, script);
      && reply.Tokenized?
      && (Visits(o, Obj(reply.body)) ==>
            (Walk(env, Remote(Wait(q', d), n), r.tenant, o, walking).result == Some(Obj(r.body))
             <==> (HasCVV(r) ==> InTime(env, d))))
  {
    var q', reply := Serve(env, v.store, r, script).0, Serve(env, v.store, r, script).1;
    var token, k, expires := TokenGiven(v.store.plain, r, script), script.put.id, T.ExpiryAfter(v.store.plain.now, env.ttl);
    LaterStore(env, v, r, d, script);
    AliveInTime(env, v.store.plain.now, d);
    ServedStandsFor(env, v, r, script);
    StandsLater(q'.plain, d, r, reply.body, token, k, expires);
    if Visits(o, Obj(reply.body)) {
      EchoReveals(env, Wait(q', d).plain, n, r, reply.body, token, k, expires, o, walking);
    }
  }

  lemma RevealUnusable(env: Env, v: World, r: Request, d: nat, n: nat, o: Visit, script: Script, walking: Weather)
    requires Inv(env, v) && Welcome(env, v, r, script) && Calm(walking) && !CardUsable(v.store.plain, r)
    ensures var (q', reply) := Serve(env, v.store, r, script);
      && reply.Tokenized?
      && (Visits(o, Obj(reply.body)) ==>
            Walk(env, Remote(Wait(q', d), n), r.tenant, o, walking).result != Some(Obj(r.body)))
  {
    var q', reply := Serve(env, v.store, r, script).0, Serve(env, v.store, r, script).1;
    var token := TokenGiven(v.store.plain, r, script);
    LaterStore(env, v, r, d, script);
    ServedUnusableCard(env, v, r, script);
    if Visits(o, Obj(reply.body)) {
      UselessTokenSpoilsWalk(env, Wait(q', d).plain, n, r.tenant, r.body, reply.body, token, o, walking);
    }
  }

  lemma StandsLater(p: PlainStore, d: nat, r: Request, echo: Body, token: string, k: string, expires: Option<int>)
    requires StandsFor(p, r, echo, token, k, expires) && Admitted(p, r.tenant)
    ensures StandsFor(p.(now := p.now + d), r, echo, token, k, expires) && Admitted(p.(now := p.now + d), r.tenant)
  {
  }

  /** No time passes within a request that runs alone. */
  lemma {:induction false} CompleteKeepsTime(env: Env, p: PlainStore, r: Request, pc: Pc, script: Script)
    ensures var s' := Complete(env, Plain(p), r, pc, script).0; s'.Plain? && s'.plain.now == p.now
    decreases Rank(pc)
  {
    if !pc.Done? {
      var c := ChoiceAt(script, pc);
      CallFootprint(env, p, CallOf(r, pc, c), c.fault);
      ResumeDescends(r, pc, c, Exec(env, Plain(p), CallOf(r, pc, c), c.fault).1, p.now);
      var (s', pc') := Step(env, Plain(p), r, pc, c);
      CompleteKeepsTime(env, s'.plain, r, pc', script);
    }
  }
}
