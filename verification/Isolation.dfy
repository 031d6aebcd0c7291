/** Tenants do not interfere: a tenant gets the replies it would get if no other tenant existed. */
module Isolation {
  import opened Options
  import opened Identifiers
  import opened Envelope
  import opened Stores
  import opened Requests
  import opened Machine
  import opened Lockstep
  import opened Invariants
  import opened Guarantees
  import T = Tables

  // The part of the store a tenant can see

  ghost predicate SameAt<K(!new), V(!new)>(m: map<K, V>, n: map<K, V>, k: K) {
    (k in m <==> k in n) && (k in m ==> m[k] == n[k])
  }

  ghost predicate SameTokenAt(m: map<string, PlainToken>, n: map<string, PlainToken>, t: string, tok: string) {
    var here, there := tok in m && m[tok].tenant == t, tok in n && n[tok].tenant == t;
    (here <==> there) && (here ==> m[tok] == n[tok])
  }

  ghost predicate SamePANAt(m: map<string, PlainPAN>, n: map<string, PlainPAN>, t: string, tok: string) {
    var here, there := tok in m && m[tok].tenant == t, tok in n && n[tok].tenant == t;
    (here <==> there) && (here ==> m[tok] == n[tok])
  }

  ghost predicate SameKeyed<V(!new)>(m: map<(string, string), V>, n: map<(string, string), V>, t: string) {
    forall k: (string, string) :: k.0 == t ==> SameAt(m, n, k)
  }

  ghost predicate LooksAlike(t: string, p: PlainStore, q: PlainStore) {
    && p.now == q.now
    && SameAt(p.tenants, q.tenants, t)
    && (forall tok :: SameTokenAt(p.tokens, q.tokens, t, tok))
    && SameKeyed(p.byPan, q.byPan, t)
    && (forall tok :: SamePANAt(p.vault, q.vault, t, tok))
    && SameKeyed(p.cvvs, q.cvvs, t)
    && SameKeyed(p.owners, q.owners, t)
  }

  lemma OthersSeeNoRows(env: Env, t: string, p: PlainStore, call: Call, tok: string)
    requires call.tenant != t
    ensures SameTokenAt(p.tokens, ApplyPlain(env, p, call).0.tokens, t, tok)
    ensures SamePANAt(p.vault, ApplyPlain(env, p, call).0.vault, t, tok)
  {
  }

  lemma OthersSeeNoKeys(env: Env, t: string, p: PlainStore, call: Call, k: (string, string))
    requires call.tenant != t && k.0 == t
    ensures SameAt(p.byPan, ApplyPlain(env, p, call).0.byPan, k)
    ensures SameAt(p.cvvs, ApplyPlain(env, p, call).0.cvvs, k)
    ensures SameAt(p.owners, ApplyPlain(env, p, call).0.owners, k)
  {
  }

  /** The calls of one tenant leave every other tenant's part as it is. */
  lemma OthersSeeNothing(env: Env, t: string, p: PlainStore, call: Call)
    requires call.tenant != t
    ensures LooksAlike(t, p, ApplyPlain(env, p, call).0)
  {
    var p' := ApplyPlain(env, p, call).0;
    CallFootprint(env, p, call, Fine);
    forall tok
      ensures SameTokenAt(p.tokens, p'.tokens, t, tok) && SamePANAt(p.vault, p'.vault, t, tok)
    {
      OthersSeeNoRows(env, t, p, call, tok);
    }
    forall k: (string, string) | k.0 == t
      ensures SameAt(p.byPan, p'.byPan, k) && SameAt(p.cvvs, p'.cvvs, k) && SameAt(p.owners, p'.owners, k)
    {
      OthersSeeNoKeys(env, t, p, call, k);
    }
  }

  lemma LooksAlikeTransitive(t: string, p: PlainStore, p': PlainStore, q: PlainStore)
    requires LooksAlike(t, p, q) && LooksAlike(t, p, p')
    ensures LooksAlike(t, p', q)
  {
    forall tok
      ensures SameTokenAt(p'.tokens, q.tokens, t, tok) && SamePANAt(p'.vault, q.vault, t, tok)
    {
      assert SameTokenAt(p.tokens, q.tokens, t, tok) && SamePANAt(p.vault, q.vault, t, tok);
      assert SameTokenAt(p.tokens, p'.tokens, t, tok) && SamePANAt(p.vault, p'.vault, t, tok);
    }
    KeyedTransitive(t, p.byPan, p'.byPan, q.byPan);
    KeyedTransitive(t, p.cvvs, p'.cvvs, q.cvvs);
    KeyedTransitive(t, p.owners, p'.owners, q.owners);
  }

  lemma KeyedTransitive<V(!new)>(t: string, m: map<(string, string), V>, m': map<(string, string), V>, n: map<(string, string), V>)
    requires SameKeyed(m, n, t) && SameKeyed(m, m', t)
    ensures SameKeyed(m', n, t)
  {
    forall k: (string, string) | k.0 == t
      ensures SameAt(m', n, k)
    {
      assert SameAt(m, n, k) && SameAt(m, m', k);
    }
  }

  predicate WritesRows(call: Call) {
    call.InsertToken? || call.InsertPAN? || call.StopToken? || call.Touch? || call.InsertTenant? || call.StopTenant?
  }

  /** New ids are new in both stores, and a PAN is only stored for a row of the tenant. */
  ghost predicate OwnCallFits(p: PlainStore, q: PlainStore, call: Call) {
    && (call.InsertToken? ==> call.token !in p.tokens && call.token !in q.tokens)
    && (call.InsertPAN? ==>
          && HasToken(p, call.tenant, call.token) && HasToken(q, call.tenant, call.token)
          && (call.token in p.vault ==> p.vault[call.token].tenant == call.tenant)
          && (call.token in q.vault ==> q.vault[call.token].tenant == call.tenant))
  }

  lemma SameRowWritten(
    m: map<string, PlainToken>, n: map<string, PlainToken>, t: string, id: string, row: PlainToken,
    m': map<string, PlainToken>, n': map<string, PlainToken>)
    requires (forall tok :: SameTokenAt(m, n, t, tok)) && row.tenant == t
    requires m' == m[id := row] && n' == n[id := row]
    ensures forall tok :: SameTokenAt(m', n', t, tok)
  {
    forall tok
      ensures SameTokenAt(m', n', t, tok)
    {
      assert SameTokenAt(m, n, t, tok);
    }
  }

  lemma OwnTokenUpdate(env: Env, p: PlainStore, q: PlainStore, call: Call)
    requires LooksAlike(call.tenant, p, q) && (call.StopToken? || call.Touch?)
    ensures LooksAlike(call.tenant, ApplyPlain(env, p, call).0, ApplyPlain(env, q, call).0)
  {
    assert SameTokenAt(p.tokens, q.tokens, call.tenant, call.token);
    if HasToken(p, call.tenant, call.token) {
      var row := p.tokens[call.token];
      SameRowWritten(p.tokens, q.tokens, call.tenant, call.token,
                     if call.StopToken? then row.(active := false) else row.(lastUsed := Some(p.now)),
                     ApplyPlain(env, p, call).0.tokens, ApplyPlain(env, q, call).0.tokens);
    }
  }

  lemma OwnTenantUpdate(env: Env, p: PlainStore, q: PlainStore, call: Call)
    requires LooksAlike(call.tenant, p, q) && (call.InsertTenant? || call.StopTenant?)
    ensures LooksAlike(call.tenant, ApplyPlain(env, p, call).0, ApplyPlain(env, q, call).0)
  {
  }

  lemma OwnRowAnswer(env: Env, p: PlainStore, q: PlainStore, call: Call)
    requires LooksAlike(call.tenant, p, q) && OwnCallFits(p, q, call) && WritesRows(call)
    ensures ApplyPlain(env, p, call).1 == ApplyPlain(env, q, call).1
  {
    if call.InsertToken? {
      assert SameAt(p.byPan, q.byPan, (call.tenant, call.pan));
    } else if call.InsertPAN? {
      assert SamePANAt(p.vault, q.vault, call.tenant, call.token);
    }
  }

  lemma OwnRowCall(env: Env, p: PlainStore, q: PlainStore, call: Call)
    requires LooksAlike(call.tenant, p, q) && OwnCallFits(p, q, call) && WritesRows(call)
    ensures LooksAlike(call.tenant, ApplyPlain(env, p, call).0, ApplyPlain(env, q, call).0)
  {
    match call
    case InsertToken(_, _, _) => OwnInsertToken(env, p, q, call);
    case InsertPAN(_, _, _, _, _) => OwnInsertPAN(env, p, q, call);
    case StopToken(_, _) => OwnTokenUpdate(env, p, q, call);
    case Touch(_, _) => OwnTokenUpdate(env, p, q, call);
    case InsertTenant(_, _, _) => OwnTenantUpdate(env, p, q, call);
    case StopTenant(_) => OwnTenantUpdate(env, p, q, call);
  }

  lemma OwnInsertToken(env: Env, p: PlainStore, q: PlainStore, call: Call)
    requires LooksAlike(call.tenant, p, q) && OwnCallFits(p, q, call) && call.InsertToken?
    ensures LooksAlike(call.tenant, ApplyPlain(env, p, call).0, ApplyPlain(env, q, call).0)
  {
    var t := call.tenant;
    var p', q' := ApplyPlain(env, p, call).0, ApplyPlain(env, q, call).0;
    assert SameAt(p.byPan, q.byPan, (t, call.pan));
    forall tok
      ensures SameTokenAt(p'.tokens, q'.tokens, t, tok)
    {
      assert SameTokenAt(p.tokens, q.tokens, t, tok);
    }
    forall k: (string, string) | k.0 == t
      ensures SameAt(p'.byPan, q'.byPan, k)
    {
      assert SameAt(p.byPan, q.byPan, k);
    }
  }

  lemma OwnInsertPAN(env: Env, p: PlainStore, q: PlainStore, call: Call)
    requires LooksAlike(call.tenant, p, q) && OwnCallFits(p, q, call) && call.InsertPAN?
    ensures LooksAlike(call.tenant, ApplyPlain(env, p, call).0, ApplyPlain(env, q, call).0)
  {
    var t := call.tenant;
    var p', q' := ApplyPlain(env, p, call).0, ApplyPlain(env, q, call).0;
    assert SamePANAt(p.vault, q.vault, t, call.token);
    forall tok
      ensures SamePANAt(p'.vault, q'.vault, t, tok)
    {
      assert SamePANAt(p.vault, q.vault, t, tok);
    }
  }

  lemma KeyedUpdate<V(!new)>(t: string, m: map<(string, string), V>, n: map<(string, string), V>, id: string, v: V)
    requires SameKeyed(m, n, t)
    ensures SameKeyed(m[(t, id) := v], n[(t, id) := v], t) && SameKeyed(m - {(t, id)}, n - {(t, id)}, t)
  {
    forall k: (string, string) | k.0 == t
      ensures SameAt(m[(t, id) := v], n[(t, id) := v], k) && SameAt(m - {(t, id)}, n - {(t, id)}, k)
    {
      assert SameAt(m, n, k);
    }
  }

  predicate WritesKeys(call: Call) {
    call.PutCVV? || call.TakeCVV? || call.DropCVV? || call.SetOwner?
  }

  lemma OwnRead(env: Env, p: PlainStore, q: PlainStore, call: Call)
    requires LooksAlike(call.tenant, p, q) && !WritesRows(call) && !WritesKeys(call)
    ensures ApplyPlain(env, p, call).1 == ApplyPlain(env, q, call).1
    ensures ApplyPlain(env, p, call).0 == p && ApplyPlain(env, q, call).0 == q
  {
    var t := call.tenant;
    match call
    case FindByPAN(_, pan) => assert SameAt(p.byPan, q.byPan, (t, pan));
    case FindToken(_, tok) => assert SameTokenAt(p.tokens, q.tokens, t, tok);
    case ReadPAN(_, tok) => assert SamePANAt(p.vault, q.vault, t, tok);
    case ProbeCVV(_, tok) => assert SameAt(p.cvvs, q.cvvs, (t, tok));
    case GetOwner(_, tok) => assert SameAt(p.owners, q.owners, (t, tok));
    case _ =>
  }

  lemma AlikeWithCVVs(
    t: string, p: PlainStore, q: PlainStore, m: map<(string, string), Timed>, n: map<(string, string), Timed>)
    requires LooksAlike(t, p, q) && SameKeyed(m, n, t)
    ensures LooksAlike(t, p.(cvvs := m), q.(cvvs := n))
  {
  }

  lemma OwnKeyWrite(env: Env, p: PlainStore, q: PlainStore, call: Call)
    requires LooksAlike(call.tenant, p, q) && WritesKeys(call)
    ensures ApplyPlain(env, p, call).1 == ApplyPlain(env, q, call).1
    ensures LooksAlike(call.tenant, ApplyPlain(env, p, call).0, ApplyPlain(env, q, call).0)
  {
    var t := call.tenant;
    match call
    case PutCVV(_, tok, cvv, _) =>
      var v := Timed(cvv, T.ExpiryAfter(p.now, env.ttl));
      KeyedUpdate(t, p.cvvs, q.cvvs, tok, v);
      AlikeWithCVVs(t, p, q, p.cvvs[(t, tok) := v], q.cvvs[(t, tok) := v]);
    case SetOwner(_, tok, id) =>
      KeyedUpdate(t, p.owners, q.owners, tok, Timed(id, T.ExpiryAfter(p.now, env.ttl)));
    case _ =>
      OwnKeyDrop(env, p, q, call);
  }

  lemma OwnKeyDrop(env: Env, p: PlainStore, q: PlainStore, call: Call)
    requires LooksAlike(call.tenant, p, q) && (call.TakeCVV? || call.DropCVV?)
    ensures ApplyPlain(env, p, call).1 == ApplyPlain(env, q, call).1
    ensures LooksAlike(call.tenant, ApplyPlain(env, p, call).0, ApplyPlain(env, q, call).0)
  {
    var t, tok := call.tenant, call.token;
    assert SameAt(p.cvvs, q.cvvs, (t, tok));
    KeyedUpdate(t, p.cvvs, q.cvvs, tok, Timed("", None));
    AlikeWithCVVs(t, p, q, p.cvvs - {(t, tok)}, q.cvvs - {(t, tok)});
  }

  /** A tenant's own call gets the same answer in two stores that look alike to it. */
  lemma OwnCall(env: Env, p: PlainStore, q: PlainStore, call: Call)
    requires LooksAlike(call.tenant, p, q) && OwnCallFits(p, q, call)
    ensures ApplyPlain(env, p, call).1 == ApplyPlain(env, q, call).1
    ensures LooksAlike(call.tenant, ApplyPlain(env, p, call).0, ApplyPlain(env, q, call).0)
  {
    if WritesRows(call) {
      OwnRowAnswer(env, p, q, call);
      OwnRowCall(env, p, q, call);
    } else if WritesKeys(call) {
      OwnKeyWrite(env, p, q, call);
    } else {
      OwnRead(env, p, q, call);
    }
  }

  lemma CallsStayInTenant(r: Request, pc: Pc, c: Choice)
    requires !pc.Done?
    ensures CallOf(r, pc, c).tenant == r.tenant
  {
  }

  // Worlds

  ghost predicate Of(reqs: map<nat, Progress>, rid: nat, t: string) {
    rid in reqs && reqs[rid].req.tenant == t
  }

  ghost predicate SameRequests(m: map<nat, Progress>, n: map<nat, Progress>, t: string) {
    && n.Keys <= m.Keys
    && forall rid :: (Of(m, rid, t) <==> Of(n, rid, t)) && (Of(m, rid, t) ==> m[rid] == n[rid])
  }

  /** `u` has no more than `v` has, and looks the same to tenant `t`. */
  ghost predicate Alike(t: string, v: World, u: World) {
    && v.store.Plain? && u.store.Plain?
    && LooksAlike(t, v.store.plain, u.store.plain)
    && SameRequests(v.reqs, u.reqs, t)
    && u.issued.Keys <= v.issued.Keys
    && u.arns <= v.arns
  }

  lemma OwnStepFits(env: Env, v: World, u: World, rid: nat, c: Choice)
    requires Inv(env, v) && Inv(env, u) && InProgress(v, rid) && Alike(v.reqs[rid].req.tenant, v, u)
    requires ChoiceFits(env, v, v.reqs[rid].pc, c)
    ensures InProgress(u, rid) && u.reqs[rid] == v.reqs[rid] && ChoiceFits(env, u, u.reqs[rid].pc, c)
    ensures OwnCallFits(v.store.plain, u.store.plain, CallOf(v.reqs[rid].req, v.reqs[rid].pc, c))
  {
    var Progress(r, pc) := v.reqs[rid];
    assert Of(v.reqs, rid, r.tenant);
    assert RequestOK(env, v, rid, r, pc) && RequestOK(env, u, rid, r, pc);
    if pc.AtInsertToken? {
      assert c.id !in v.store.plain.tokens && c.id !in u.store.plain.tokens;
    }
  }

  lemma OwnStepSame(env: Env, p: PlainStore, q: PlainStore, r: Request, pc: Pc, c: Choice)
    requires !pc.Done? && LooksAlike(r.tenant, p, q) && OwnCallFits(p, q, CallOf(r, pc, c))
    ensures Step(env, Plain(p), r, pc, c).1 == Step(env, Plain(q), r, pc, c).1
    ensures var s, s' := Step(env, Plain(p), r, pc, c).0, Step(env, Plain(q), r, pc, c).0;
      s.Plain? && s'.Plain? && LooksAlike(r.tenant, s.plain, s'.plain)
  {
    CallsStayInTenant(r, pc, c);
    OwnCall(env, p, q, CallOf(r, pc, c));
  }

  lemma OwnStep(env: Env, v: World, u: World, rid: nat, c: Choice)
    requires Inv(env, v) && Inv(env, u) && InProgress(v, rid) && Alike(v.reqs[rid].req.tenant, v, u)
    requires ChoiceFits(env, v, v.reqs[rid].pc, c)
    ensures Enabled(env, u, Advance(rid, c))
    ensures Alike(v.reqs[rid].req.tenant, Next(env, v, Advance(rid, c)), Next(env, u, Advance(rid, c)))
  {
    var Progress(r, pc) := v.reqs[rid];
    OwnStepFits(env, v, u, rid, c);
    OwnStepSame(env, v.store.plain, u.store.plain, r, pc, c);
    OwnRequests(v.reqs, u.reqs, rid, r.tenant, Progress(r, Step(env, v.store, r, pc, c).1));
  }

  lemma OwnRequests(m: map<nat, Progress>, n: map<nat, Progress>, rid: nat, t: string, p: Progress)
    requires SameRequests(m, n, t) && p.req.tenant == t
    ensures SameRequests(m[rid := p], n[rid := p], t)
  {
    var m', n' := m[rid := p], n[rid := p];
    forall other
      ensures Of(m', other, t) <==> Of(n', other, t)
      ensures Of(m', other, t) ==> m'[other] == n'[other]
    {
      assert Of(m, other, t) <==> Of(n, other, t);
    }
  }

  lemma OtherRequests(m: map<nat, Progress>, n: map<nat, Progress>, rid: nat, t: string, p: Progress)
    requires SameRequests(m, n, t) && p.req.tenant != t && !Of(m, rid, t)
    ensures SameRequests(m[rid := p], n, t)
  {
    var m' := m[rid := p];
    forall other
      ensures Of(m', other, t) <==> Of(n, other, t)
      ensures Of(m', other, t) ==> m'[other] == n[other]
    {
      assert Of(m, other, t) <==> Of(n, other, t);
    }
  }

  lemma OtherStep(env: Env, v: World, u: World, t: string, rid: nat, c: Choice)
    requires Alike(t, v, u) && InProgress(v, rid) && v.reqs[rid].req.tenant != t
    ensures Alike(t, Next(env, v, Advance(rid, c)), u)
  {
    var Progress(r, pc) := v.reqs[rid];
    var call := CallOf(r, pc, c);
    CallsStayInTenant(r, pc, c);
    OthersSeeNothing(env, t, v.store.plain, call);
    LooksAlikeTransitive(t, v.store.plain, ApplyPlain(env, v.store.plain, call).0, u.store.plain);
    OtherRequests(v.reqs, u.reqs, rid, t, Progress(r, Step(env, v.store, r, pc, c).1));
  }

  // Runs

  /** The run with the steps of all other tenants deleted; `mine` are the requests of `t` begun so far. */
  function OnlyTenant(ls: seq<Label>, t: string, mine: set<nat>): seq<Label> {
    if ls == [] then []
    else match ls[0]
      case Begin(rid, r) =>
        if r.tenant == t then [ls[0]] + OnlyTenant(ls[1..], t, mine + {rid}) else OnlyTenant(ls[1..], t, mine)
      case Advance(rid, _) => (if rid in mine then [ls[0]] else []) + OnlyTenant(ls[1..], t, mine)
      case Tick(_) => [ls[0]] + OnlyTenant(ls[1..], t, mine)
  }

  ghost predicate MineIs(v: World, t: string, mine: set<nat>) {
    forall rid :: rid in mine <==> Of(v.reqs, rid, t)
  }

  lemma NextMine(env: Env, v: World, l: Label, t: string, mine: set<nat>)
    requires Enabled(env, v, l) && MineIs(v, t, mine)
    ensures MineIs(Next(env, v, l), t, if l.Begin? && l.req.tenant == t then mine + {l.rid} else mine)
  {
    var mine' := if l.Begin? && l.req.tenant == t then mine + {l.rid} else mine;
    forall rid
      ensures rid in mine' <==> Of(Next(env, v, l).reqs, rid, t)
    {
      assert rid in mine <==> Of(v.reqs, rid, t);
    }
  }

  predicate Kept(l: Label, t: string, mine: set<nat>) {
    match l
    case Begin(_, r) => r.tenant == t
    case Advance(rid, _) => rid in mine
    case Tick(_) => true
  }

  /** Unwinding: a kept step is possible in both worlds and keeps them alike; a deleted step does not show. */
  lemma Unwind(env: Env, v: World, u: World, l: Label, t: string, mine: set<nat>)
    requires Inv(env, v) && Inv(env, u) && Alike(t, v, u) && MineIs(v, t, mine) && Enabled(env, v, l)
    ensures Kept(l, t, mine) ==> Enabled(env, u, l) && Alike(t, Next(env, v, l), Next(env, u, l))
    ensures !Kept(l, t, mine) ==> Alike(t, Next(env, v, l), u)
  {
    match l
    case Begin(rid, r) =>
      var p := Progress(r, Start(r, Now(v.store)));
      if r.tenant == t {
        OwnRequests(v.reqs, u.reqs, rid, t, p);
      } else {
        OtherRequests(v.reqs, u.reqs, rid, t, p);
      }
    case Advance(rid, c) =>
      assert rid in mine <==> Of(v.reqs, rid, t);
      if rid in mine {
        OwnStep(env, v, u, rid, c);
      } else {
        OtherStep(env, v, u, t, rid, c);
      }
    case Tick(d) =>
  }

  lemma {:induction false} RunsStayAlike(env: Env, v: World, u: World, ls: seq<Label>, t: string, mine: set<nat>)
    requires Inv(env, v) && Inv(env, u) && Alike(t, v, u) && MineIs(v, t, mine) && ValidRun(env, v, ls)
    ensures ValidRun(env, u, OnlyTenant(ls, t, mine))
    ensures Alike(t, Run(env, v, ls), Run(env, u, OnlyTenant(ls, t, mine)))
    decreases |ls|
  {
    if ls != [] {
      var l := ls[0];
      var mine' := if l.Begin? && l.req.tenant == t then mine + {l.rid} else mine;
      var rest := OnlyTenant(ls[1..], t, mine');
      Unwind(env, v, u, l, t, mine);
      NextMine(env, v, l, t, mine);
      InvAfterNext(env, v, l);
      if Kept(l, t, mine) {
        assert OnlyTenant(ls, t, mine) == [l] + rest;
        InvAfterNext(env, u, l);
        RunsStayAlike(env, Next(env, v, l), Next(env, u, l), ls[1..], t, mine');
      } else {
        assert OnlyTenant(ls, t, mine) == rest;
        RunsStayAlike(env, Next(env, v, l), u, ls[1..], t, mine');
      }
    }
  }

  /**
    Deleting every step of every other tenant from a run gives a run, and in it each request of tenant `t` is at the
    same place, with the same reply, as before.
   */
  lemma TenantsDoNotInterfere(env: Env, now: int, ls: seq<Label>, t: string, rid: nat)
    requires Reached(env, now, ls)
    ensures Reached(env, now, OnlyTenant(ls, t, {}))
    ensures Of(WorldAt(env, now, ls).reqs, rid, t) ==>
      && rid in WorldAt(env, now, OnlyTenant(ls, t, {})).reqs
      && WorldAt(env, now, OnlyTenant(ls, t, {})).reqs[rid] == WorldAt(env, now, ls).reqs[rid]
  {
    var start := PlainStart(now);
    TwinHolds(env, now, ls);
    SealedRefinesPlain(env, now, ls);
    StartOK(env, now);
    RunsStayAlike(env, start, start, ls, t, {});
    SealedRefinesPlain(env, now, OnlyTenant(ls, t, {}));
    assert Of(TwinAt(env, now, ls).reqs, rid, t) <==> Of(TwinAt(env, now, OnlyTenant(ls, t, {})).reqs, rid, t);
  }
}
