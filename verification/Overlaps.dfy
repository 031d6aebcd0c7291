/**
  The previous CVV token of a card, continued: schedules in which two tokenize requests for one card both succeed and leave
  two CVV tokens alive, because they overlap or because one owner command is lost.
 */
module Overlaps {
  import opened Options
  import opened Card
  import opened Identifiers
  import opened Envelope
  import opened Stores
  import opened Refinement
  import opened Requests
  import opened Machine
  import opened Lockstep
  import opened Invariants
  import opened Guarantees
  import opened Invalidation
  import opened Lookups
  import opened Json
  import opened RoundTrip
  import T = Tables

  // Two tokenize requests for one card, side by side

  /** The store after `k` was stored for request `r`. */
  function WithCVV(env: Env, p: PlainStore, r: Request, k: string): PlainStore
    requires HasCVV(r)
  {
    p.(cvvs := p.cvvs[(r.tenant, k) := Timed(CVVOf(r), T.ExpiryAfter(p.now, env.ttl))])
  }

  /** A choice where nothing fails. */
  function Smooth(id: string, sealing: Sealing): Choice {
    Choice(id, sealing, "", Fine)
  }

  predicate Arriving(p: PlainStore, r: Request) {
    HasPAN(r) && HasCVV(r) && Admitted(p, r.tenant) && (r.tenant, PANOf(r)) in p.byPan
  }

  function DraftOf(p: PlainStore, r: Request): Draft
    requires Arriving(p, r)
  {
    DraftFor(r, false, p.byPan[(r.tenant, PANOf(r))])
  }

  lemma GateStep(env: Env, p: PlainStore, r: Request, c: Choice)
    requires Arriving(p, r) && c.fault == Fine
    ensures Step(env, Plain(p), r, AtGate, c) == (Plain(p), AtFindPAN(p.tenants[r.tenant].keyARN))
  {
  }

  lemma FindStep(env: Env, p: PlainStore, r: Request, arn: string, c: Choice)
    requires Arriving(p, r) && c.fault == Fine
    ensures Step(env, Plain(p), r, AtFindPAN(arn), c) == (Plain(p), AtPutCVV(DraftOf(p, r)))
  {
  }

  lemma PutStep(env: Env, p: PlainStore, r: Request, d: Draft, c: Choice)
    requires Arriving(p, r) && c.fault == Fine && d.panToken != ""
    ensures Step(env, Plain(p), r, AtPutCVV(d), c) == (Plain(WithCVV(env, p, r, c.id)), AtGetOwner(d, c.id))
  {
  }

  /** Nothing fails in these steps. */
  predicate AllSmooth(ls: seq<Label>) {
    forall l :: l in ls && l.Advance? ==> l.choice.fault == Fine
  }

  lemma {:induction false} SmoothKeepsRedis(env: Env, v: World, ls: seq<Label>)
    requires AllSmooth(ls)
    ensures Run(env, v, ls).redisOk == v.redisOk
    decreases |ls|
  {
    if ls != [] {
      assert ls[0] in ls;
      assert forall l :: l in ls[1..] ==> l in ls;
      SmoothKeepsRedis(env, Next(env, v, ls[0]), ls[1..]);
    }
  }

  /** `v'` is `v` after steps of `rid`. */
  ghost predicate MovedTo(
    v: World, v': World, rid: nat, r: Request, p': PlainStore, pc: Pc, issued: map<string, Birth>, met: set<(nat, nat)>)
  {
    v'.store == Plain(p') && v'.reqs == v.reqs[rid := Progress(r, pc)] && v'.issued == issued && v'.met == met
  }

  lemma Moves(env: Env, v: World, rid: nat, r: Request, pc: Pc, c: Choice, p': PlainStore, pc': Pc)
    requires rid in v.reqs && v.reqs[rid] == Progress(r, pc) && !pc.Done? && ChoiceFits(env, v, pc, c)
    requires v.store.Plain? && Step(env, v.store, r, pc, c) == (Plain(p'), pc')
    ensures ValidRun(env, v, [Advance(rid, c)]) && (c.fault == Fine ==> AllSmooth([Advance(rid, c)]))
    ensures MovedTo(v, Run(env, v, [Advance(rid, c)]), rid, r, p', pc',
                    if NeedsID(pc) then v.issued[c.id := Birth(rid, pc.AtInsertToken?, v.store.plain.now)] else v.issued,
                    v.met)
  {
    var l := Advance(rid, c);
    var v' := Next(env, v, l);
    assert [l][0] == l && [l][1..] == [];
    assert ValidRun(env, v', []);
    assert Run(env, v', []) == v';
  }

  lemma Begins(env: Env, v: World, rid: nat, r: Request)
    requires v.store.Plain? && ValidTenantID(r.tenant) && r.Tokenize? && rid !in v.reqs && PANKnown(env, r)
    ensures ValidRun(env, v, [Begin(rid, r)]) && AllSmooth([Begin(rid, r)])
    ensures MovedTo(v, Run(env, v, [Begin(rid, r)]), rid, r, v.store.plain, AtGate, v.issued, v.met + Meets(v, rid))
  {
    var l := Begin(rid, r);
    var v' := Next(env, v, l);
    assert [l][0] == l && [l][1..] == [];
    assert ValidRun(env, v', []);
    assert Run(env, v', []) == v';
  }

  lemma MovesTwice(v: World, v1: World, v2: World, rid: nat, r: Request, p1: PlainStore, pc1: Pc, i1: map<string, Birth>,
                   p2: PlainStore, pc2: Pc, i2: map<string, Birth>, m1: set<(nat, nat)>, m2: set<(nat, nat)>)
    requires MovedTo(v, v1, rid, r, p1, pc1, i1, m1) && MovedTo(v1, v2, rid, r, p2, pc2, i2, m2)
    ensures MovedTo(v, v2, rid, r, p2, pc2, i2, m2)
  {
    assert v.reqs[rid := Progress(r, pc1)][rid := Progress(r, pc2)] == v.reqs[rid := Progress(r, pc2)];
  }

  /** `v` and `rid` are such that a request for a card with a token can arrive and store its CVV under `k`. */
  ghost predicate CanArrive(env: Env, v: World, rid: nat, r: Request, k: string, sealing: Sealing) {
    && v.store.Plain? && Arriving(v.store.plain, r) && rid !in v.reqs && PANKnown(env, r)
    && IsGeneratedID(k) && k !in v.issued && ValidSealing(sealing)
    && DraftOf(v.store.plain, r).panToken != ""
  }

  /** A request arrives, passes the gate, finds its token and stores its CVV. */
  lemma Arrives(env: Env, v: World, rid: nat, r: Request, k: string, sealing: Sealing) returns (ls: seq<Label>)
    requires CanArrive(env, v, rid, r, k, sealing)
    ensures ValidRun(env, v, ls) && AllSmooth(ls)
    ensures MovedTo(v, Run(env, v, ls), rid, r, WithCVV(env, v.store.plain, r, k), AtGetOwner(DraftOf(v.store.plain, r), k),
                    v.issued[k := Birth(rid, false, v.store.plain.now)], v.met + Meets(v, rid))
  {
    var p, c, m := v.store.plain, Smooth(k, sealing), v.met + Meets(v, rid);
    var l := [Advance(rid, c)];
    var arn, d := p.tenants[r.tenant].keyARN, DraftOf(p, r);
    Begins(env, v, rid, r);
    var v1 := Run(env, v, [Begin(rid, r)]);
    GateStep(env, p, r, c);
    Moves(env, v1, rid, r, AtGate, c, p, AtFindPAN(arn));
    var v2 := Run(env, v1, l);
    MovesTwice(v, v1, v2, rid, r, p, AtGate, v.issued, p, AtFindPAN(arn), v.issued, m, m);
    RunAppend(env, v, [Begin(rid, r)], l);
    FindStep(env, p, r, arn, c);
    Moves(env, v2, rid, r, AtFindPAN(arn), c, p, AtPutCVV(d));
    var v3 := Run(env, v2, l);
    MovesTwice(v, v2, v3, rid, r, p, AtFindPAN(arn), v.issued, p, AtPutCVV(d), v.issued, m, m);
    RunAppend(env, v, [Begin(rid, r)] + l, l);
    PutStep(env, p, r, d, c);
    Moves(env, v3, rid, r, AtPutCVV(d), c, WithCVV(env, p, r, k), AtGetOwner(d, k));
    var issued' := v.issued[k := Birth(rid, false, p.now)];
    MovesTwice(v, v3, Run(env, v3, l), rid, r, p, AtPutCVV(d), v.issued,
               WithCVV(env, p, r, k), AtGetOwner(d, k), issued', m, m);
    RunAppend(env, v, [Begin(rid, r)] + l + l, l);
    ls := [Begin(rid, r)] + l + l + l;
  }

  // From the owner key on

  /** Where a request goes that reads the owner key of `token`. */
  function AfterRead(p: PlainStore, t: string, d: Draft, k: string): Pc {
    if LiveOwner(p, t, d.panToken) && p.owners[(t, d.panToken)].value != ""
    then AtDropPrevious(d, k, p.owners[(t, d.panToken)].value) else AtSetOwner(d, k)
  }

  lemma ReadStep(env: Env, p: PlainStore, r: Request, d: Draft, k: string, c: Choice)
    requires c.fault == Fine
    ensures Step(env, Plain(p), r, AtGetOwner(d, k), c) == (Plain(p), AfterRead(p, r.tenant, d, k))
  {
  }

  /** The store after the owner key was written, if the command was sent. */
  function WithOwner(env: Env, p: PlainStore, t: string, d: Draft, k: string, fault: Fault): PlainStore {
    if fault == Fine then p.(owners := p.owners[(t, d.panToken) := Timed(k, T.ExpiryAfter(p.now, env.ttl))]) else p
  }

  lemma SetStep(env: Env, p: PlainStore, r: Request, d: Draft, k: string, c: Choice)
    requires c.fault == Fine || c.fault == Lost
    ensures Step(env, Plain(p), r, AtSetOwner(d, k), c) == (Plain(WithOwner(env, p, r.tenant, d, k, c.fault)), Echo(d, k, p.now))
  {
  }

  /** The CVV `x` is stored and alive in both. */
  ghost predicate StillThere(p: PlainStore, p': PlainStore, t: string, x: string) {
    LiveCVV(p, t, x) ==> LiveCVV(p', t, x)
  }

  /**
    A request that has read the owner key finishes; it deletes at most the token it read there, and writes the key unless
    that last command is lost.
   */
  lemma Finishes(env: Env, v: World, rid: nat, r: Request, d: Draft, k: string, previous: string, c: Choice, last: Choice)
    returns (ls: seq<Label>, p': PlainStore)
    requires v.store.Plain? && c.fault == Fine && (last.fault == Fine || last.fault == Lost) && rid in v.reqs
    requires v.reqs[rid] == Progress(r, AtDropPrevious(d, k, previous)) || v.reqs[rid] == Progress(r, AtSetOwner(d, k))
    ensures ValidRun(env, v, ls) && (last.fault == Fine ==> AllSmooth(ls))
    ensures MovedTo(v, Run(env, v, ls), rid, r, p', Echo(d, k, v.store.plain.now), v.issued, v.met)
    ensures p'.now == v.store.plain.now && p'.tenants == v.store.plain.tenants && p'.byPan == v.store.plain.byPan
    ensures p'.owners == WithOwner(env, v.store.plain, r.tenant, d, k, last.fault).owners
    ensures forall x :: x != previous ==> StillThere(v.store.plain, p', r.tenant, x)
  {
    var l, l', p, done := [Advance(rid, c)], [Advance(rid, last)], v.store.plain, Echo(d, k, v.store.plain.now);
    if v.reqs[rid].pc.AtSetOwner? {
      SetStep(env, p, r, d, k, last);
      p' := WithOwner(env, p, r.tenant, d, k, last.fault);
      Moves(env, v, rid, r, AtSetOwner(d, k), last, p', done);
      ls := l';
    } else {
      var pc := AtDropPrevious(d, k, previous);
      var q := p.(cvvs := p.cvvs - {(r.tenant, previous)});
      DropStep(env, p, r, pc, c);
      Moves(env, v, rid, r, pc, c, q, AtSetOwner(d, k));
      var v1 := Run(env, v, l);
      SetStep(env, q, r, d, k, last);
      p' := WithOwner(env, q, r.tenant, d, k, last.fault);
      Moves(env, v1, rid, r, AtSetOwner(d, k), last, p', done);
      MovesTwice(v, v1, Run(env, v1, l'), rid, r, q, AtSetOwner(d, k), v.issued, p', done, v.issued, v.met, v.met);
      RunAppend(env, v, l, l');
      ls := l + l';
    }
  }

  // The race

  ghost predicate At(v: World, rid: nat, r: Request, pc: Pc) {
    rid in v.reqs && v.reqs[rid] == Progress(r, pc)
  }

  /** Both CVVs are alive and both requests have yet to read the owner key, which names neither. */
  ghost predicate BothStored(v: World, a: nat, r: Request, k: string, b: nat, q: Request, k': string, d: Draft, d': Draft) {
    && v.store.Plain? && a != b && r.tenant == q.tenant && d.panToken == d'.panToken && (a, b) in v.met
    && At(v, a, r, AtGetOwner(d, k)) && At(v, b, q, AtGetOwner(d', k'))
    && LiveCVV(v.store.plain, r.tenant, k) && LiveCVV(v.store.plain, r.tenant, k')
    && NamesNeither(v.store.plain, r.tenant, d.panToken, k, k')
  }

  predicate NamesNeither(p: PlainStore, t: string, token: string, k: string, k': string) {
    && k != "" && k' != ""
    && ((t, token) in p.owners ==> p.owners[(t, token)].value != k && p.owners[(t, token)].value != k')
  }

  lemma CanStillArrive(
    env: Env, v: World, v1: World, a: nat, r: Request, k: string, pc: Pc, b: nat, q: Request, k': string, sealing: Sealing)
    requires CanArrive(env, v, a, r, k, sealing) && CanArrive(env, v, b, q, k', sealing) && a != b && k != k'
    requires MovedTo(v, v1, a, r, WithCVV(env, v.store.plain, r, k), pc, v.issued[k := Birth(a, false, v.store.plain.now)],
                     v.met + Meets(v, a))
    ensures CanArrive(env, v1, b, q, k', sealing) && DraftOf(v1.store.plain, q) == DraftOf(v.store.plain, q)
  {
  }

  lemma OwnersNameNeither(env: Env, v: World, t: string, token: string, k: string, k': string)
    requires Inv(env, v) && IsGeneratedID(k) && IsGeneratedID(k') && k !in v.issued && k' !in v.issued
    ensures NamesNeither(v.store.plain, t, token, k, k')
  {
    GeneratedIDsAreTokenShaped(k);
    GeneratedIDsAreTokenShaped(k');
  }

  lemma BothAreThere(env: Env, p: PlainStore, r: Request, k: string, q: Request, k': string)
    requires k != k' && HasCVV(r) && HasCVV(q) && r.tenant == q.tenant
    ensures var p' := WithCVV(env, WithCVV(env, p, r, k), q, k');
      LiveCVV(p', r.tenant, k) && LiveCVV(p', r.tenant, k') && p'.owners == p.owners
  {
  }

  lemma BothInPlace(
    env: Env, v: World, v1: World, v2: World, a: nat, r: Request, k: string, b: nat, q: Request, k': string, d: Draft, d': Draft)
    requires v.store.Plain? && a != b && k != k' && HasCVV(r) && HasCVV(q) && r.tenant == q.tenant && d.panToken == d'.panToken
    requires b !in v1.reqs && NamesNeither(v.store.plain, r.tenant, d.panToken, k, k')
    requires MovedTo(v, v1, a, r, WithCVV(env, v.store.plain, r, k), AtGetOwner(d, k),
                     v.issued[k := Birth(a, false, v.store.plain.now)], v.met + Meets(v, a))
    requires MovedTo(v1, v2, b, q, WithCVV(env, v1.store.plain, q, k'), AtGetOwner(d', k'),
                     v1.issued[k' := Birth(b, false, v1.store.plain.now)], v1.met + Meets(v1, b))
    ensures BothStored(v2, a, r, k, b, q, k', d, d')
  {
    assert InProgress(v1, a);
    assert (a, b) in Meets(v1, b);
    BothAreThere(env, v.store.plain, r, k, q, k');
  }

  lemma BothArrive(env: Env, v: World, a: nat, r: Request, k: string, b: nat, q: Request, k': string, sealing: Sealing)
    returns (ls: seq<Label>)
    requires Inv(env, v) && a != b && k != k'
    requires CanArrive(env, v, a, r, k, sealing) && CanArrive(env, v, b, q, k', sealing) && SameCard(r, q)
    ensures ValidRun(env, v, ls) && AllSmooth(ls)
    ensures BothStored(Run(env, v, ls), a, r, k, b, q, k', DraftOf(v.store.plain, r), DraftOf(v.store.plain, q))
  {
    var p, d, d' := v.store.plain, DraftOf(v.store.plain, r), DraftOf(v.store.plain, q);
    var first := Arrives(env, v, a, r, k, sealing);
    var v1 := Run(env, v, first);
    CanStillArrive(env, v, v1, a, r, k, AtGetOwner(d, k), b, q, k', sealing);
    var second := Arrives(env, v1, b, q, k', sealing);
    RunAppend(env, v, first, second);
    ls := first + second;
    OwnersNameNeither(env, v, r.tenant, d.panToken, k, k');
    BothInPlace(env, v, v1, Run(env, v1, second), a, r, k, b, q, k', d, d');
  }

  lemma BothRead(env: Env, v: World, a: nat, r: Request, k: string, b: nat, q: Request, k': string, d: Draft, d': Draft, c: Choice)
    returns (ls: seq<Label>)
    requires BothStored(v, a, r, k, b, q, k', d, d') && c.fault == Fine
    ensures ValidRun(env, v, ls) && AllSmooth(ls)
    ensures var v' := Run(env, v, ls);
      && v'.store == v.store && v'.met == v.met
      && At(v', a, r, AfterRead(v.store.plain, r.tenant, d, k)) && At(v', b, q, AfterRead(v.store.plain, r.tenant, d', k'))
  {
    var p := v.store.plain;
    ReadStep(env, p, r, d, k, c);
    Moves(env, v, a, r, AtGetOwner(d, k), c, p, AfterRead(p, r.tenant, d, k));
    var v1 := Run(env, v, [Advance(a, c)]);
    ReadStep(env, p, q, d', k', c);
    Moves(env, v1, b, q, AtGetOwner(d', k'), c, p, AfterRead(p, r.tenant, d', k'));
    RunAppend(env, v, [Advance(a, c)], [Advance(b, c)]);
    ls := [Advance(a, c)] + [Advance(b, c)];
  }

  lemma BothFinish(env: Env, v: World, a: nat, r: Request, k: string, b: nat, q: Request, k': string, d: Draft, d': Draft, c: Choice)
    returns (ls: seq<Label>)
    requires v.store.Plain? && a != b && r.tenant == q.tenant && d.panToken == d'.panToken && c.fault == Fine
    requires At(v, a, r, AfterRead(v.store.plain, r.tenant, d, k)) && At(v, b, q, AfterRead(v.store.plain, r.tenant, d', k'))
    requires LiveCVV(v.store.plain, r.tenant, k) && LiveCVV(v.store.plain, r.tenant, k')
    requires NamesNeither(v.store.plain, r.tenant, d.panToken, k, k')
    ensures ValidRun(env, v, ls) && AllSmooth(ls)
    ensures var v' := Run(env, v, ls);
      && v'.store.Plain? && v'.met == v.met
      && At(v', a, r, Echo(d, k, v.store.plain.now)) && At(v', b, q, Echo(d', k', v.store.plain.now))
      && LiveCVV(v'.store.plain, r.tenant, k) && LiveCVV(v'.store.plain, r.tenant, k')
  {
    var p, o := v.store.plain, (r.tenant, d.panToken);
    var previous := if o in p.owners then p.owners[o].value else "";
    var first, p1 := Finishes(env, v, a, r, d, k, previous, c, c);
    var v1 := Run(env, v, first);
    var second, p2 := Finishes(env, v1, b, q, d', k', previous, c, c);
    RunAppend(env, v, first, second);
    ls := first + second;
    assert StillThere(p, p1, r.tenant, k) && StillThere(p, p1, r.tenant, k');
    assert StillThere(p1, p2, r.tenant, k) && StillThere(p1, p2, r.tenant, k');
  }

  lemma EchoGivesBoth(w: World, rid: nat, r: Request, p: PlainStore, k: string, now: int)
    requires Arriving(p, r) && At(w, rid, r, Echo(DraftOf(p, r), k, now))
    ensures GotBoth(w, rid, p.byPan[(r.tenant, PANOf(r))], k)
  {
  }

  /** Two requests for one card that overlap, with nothing failing, can both succeed and leave both CVV tokens alive. */
  lemma RaceInTwin(env: Env, v: World, a: nat, r: Request, k: string, b: nat, q: Request, k': string, sealing: Sealing)
    returns (ls: seq<Label>)
    requires Inv(env, v) && a != b && k != k'
    requires CanArrive(env, v, a, r, k, sealing) && CanArrive(env, v, b, q, k', sealing) && SameCard(r, q)
    ensures ValidRun(env, v, ls) && AllSmooth(ls)
    ensures var v' := Run(env, v, ls); var token := v.store.plain.byPan[(r.tenant, PANOf(r))];
      && v'.store.Plain? && (a, b) in v'.met
      && GotBoth(v', a, token, k) && GotBoth(v', b, token, k') && v'.reqs[a].req == r && v'.reqs[b].req == q
      && LiveCVV(v'.store.plain, r.tenant, k) && LiveCVV(v'.store.plain, r.tenant, k')
  {
    var d, d', c := DraftOf(v.store.plain, r), DraftOf(v.store.plain, q), Smooth(k, sealing);
    var arriving := BothArrive(env, v, a, r, k, b, q, k', sealing);
    var v1 := Run(env, v, arriving);
    var reading := BothRead(env, v1, a, r, k, b, q, k', d, d', c);
    var v2 := Run(env, v1, reading);
    var finishing := BothFinish(env, v2, a, r, k, b, q, k', d, d', c);
    RunAppend(env, v, arriving, reading);
    RunAppend(env, v, arriving + reading, finishing);
    ls := arriving + reading + finishing;
    var v' := Run(env, v2, finishing);
    EchoGivesBoth(v', a, r, v.store.plain, k, v2.store.plain.now);
    EchoGivesBoth(v', b, q, v.store.plain, k', v2.store.plain.now);
  }

  /** What holds of the plain world after `more` in the terms of the service. */
  lemma BothLiveInRun(env: Env, now: int, ls: seq<Label>, more: seq<Label>, t: string, k: string, k': string)
    requires Reached(env, now, ls) && ValidRun(env, TwinAt(env, now, ls), more) && ColonFree(t)
    requires var p := Run(env, TwinAt(env, now, ls), more).store; p.Plain? && LiveCVV(p.plain, t, k) && LiveCVV(p.plain, t, k')
    ensures Reached(env, now, ls + more)
    ensures var w, v := WorldAt(env, now, ls + more), Run(env, TwinAt(env, now, ls), more);
      && w.reqs == v.reqs && w.met == v.met && w.issued == v.issued && w.redisOk == v.redisOk
      && IsLive(w, t, k) && IsLive(w, t, k')
  {
    RunAppend(env, PlainStart(now), ls, more);
    SealedRefinesPlain(env, now, ls);
    SealedRefinesPlain(env, now, ls + more);
    TwinGoesOn(env, now, ls, more);
    LiveInTwin(env, WorldAt(env, now, ls + more), TwinAt(env, now, ls + more), t, k);
    LiveInTwin(env, WorldAt(env, now, ls + more), TwinAt(env, now, ls + more), t, k');
  }

  /**
    Whatever the service has been through: as long as a card has a token and its tenant is active, two more requests
    for that card that overlap can both succeed and leave two CVV tokens alive although nothing fails in them.
   */
  lemma OverlapCanLeaveTwo(
    env: Env, now: int, ls: seq<Label>, a: nat, r: Request, k: string, b: nat, q: Request, k': string, sealing: Sealing)
    returns (more: seq<Label>, token: string)
    requires Reached(env, now, ls) && a != b && k != k'
    requires CanArrive(env, TwinAt(env, now, ls), a, r, k, sealing) && CanArrive(env, TwinAt(env, now, ls), b, q, k', sealing)
    requires SameCard(r, q)
    ensures Reached(env, now, ls + more) && AllSmooth(more)
    ensures var w := WorldAt(env, now, ls + more);
      && w.redisOk == WorldAt(env, now, ls).redisOk && (a, b) in w.met
      && GotBoth(w, a, token, k) && GotBoth(w, b, token, k')
      && IsLive(w, r.tenant, k) && IsLive(w, r.tenant, k')
  {
    TwinHolds(env, now, ls);
    var v := TwinAt(env, now, ls);
    more := RaceInTwin(env, v, a, r, k, b, q, k', sealing);
    token := v.store.plain.byPan[(r.tenant, PANOf(r))];
    SmoothKeepsRedis(env, v, more);
    ValidTenantIDsAreColonFree(r.tenant);
    BothLiveInRun(env, now, ls, more, r.tenant, k, k');
  }

  // One lost owner command, no overlap

  /** No request is in progress. */
  ghost predicate Quiet(v: World) {
    forall rid :: rid in v.reqs ==> v.reqs[rid].pc.Done?
  }

  ghost predicate MetKnown(v: World) {
    forall x, y :: (x, y) in v.met ==> x in v.reqs && y in v.reqs
  }

  lemma {:induction false} MetStaysKnown(env: Env, v: World, ls: seq<Label>)
    requires MetKnown(v)
    ensures MetKnown(Run(env, v, ls))
    decreases |ls|
  {
    if ls != [] {
      MetStaysKnown(env, Next(env, v, ls[0]), ls[1..]);
    }
  }

  function OwnerValue(p: PlainStore, t: string, token: string): string {
    if (t, token) in p.owners then p.owners[(t, token)].value else ""
  }

  /** What a request for a known card that runs alone in a quiet world changes; `last` is the fault of its last command. */
  ghost predicate RanAlone(
    env: Env, v: World, v': World, rid: nat, r: Request, d: Draft, k: string, p': PlainStore, last: Fault)
    requires v.store.Plain?
  {
    var p := v.store.plain;
    && MovedTo(v, v', rid, r, p', Echo(d, k, p.now), v.issued[k := Birth(rid, false, p.now)], v.met)
    && p'.now == p.now && p'.tenants == p.tenants && p'.byPan == p.byPan
    && p'.owners == WithOwner(env, p, r.tenant, d, k, last).owners
    && LiveCVV(p', r.tenant, k)
    && forall x :: x != OwnerValue(p, r.tenant, d.panToken) && x != k ==> StillThere(p, p', r.tenant, x)
  }

  lemma RunsAlone(env: Env, v: World, rid: nat, r: Request, k: string, sealing: Sealing, last: Choice)
    returns (ls: seq<Label>, p': PlainStore)
    requires CanArrive(env, v, rid, r, k, sealing) && Quiet(v) && (last.fault == Fine || last.fault == Lost)
    requires OwnerValue(v.store.plain, r.tenant, DraftOf(v.store.plain, r).panToken) != k
    ensures ValidRun(env, v, ls)
    ensures RanAlone(env, v, Run(env, v, ls), rid, r, DraftOf(v.store.plain, r), k, p', last.fault)
  {
    var p, d, c := v.store.plain, DraftOf(v.store.plain, r), Smooth(k, sealing);
    var p1, previous := WithCVV(env, p, r, k), OwnerValue(p, r.tenant, d.panToken);
    var arriving := Arrives(env, v, rid, r, k, sealing);
    var v1 := Run(env, v, arriving);
    assert Meets(v, rid) == {} && v.met + {} == v.met;
    ReadStep(env, p1, r, d, k, c);
    Moves(env, v1, rid, r, AtGetOwner(d, k), c, p1, AfterRead(p1, r.tenant, d, k));
    var l := [Advance(rid, c)];
    var v2 := Run(env, v1, l);
    RunAppend(env, v, arriving, l);
    var issued := v.issued[k := Birth(rid, false, p.now)];
    MovesTwice(v, v1, v2, rid, r, p1, AtGetOwner(d, k), issued, p1, AfterRead(p1, r.tenant, d, k), issued, v.met, v.met);
    var finishing;
    finishing, p' := Finishes(env, v2, rid, r, d, k, previous, c, last);
    RunAppend(env, v, arriving + l, finishing);
    MovesTwice(v, v2, Run(env, v2, finishing), rid, r, p1, AfterRead(p1, r.tenant, d, k), issued,
               p', Echo(d, k, p.now), issued, v.met, v.met);
    ls := arriving + l + finishing;
    assert StillThere(p1, p', r.tenant, k);
    forall x | x != previous && x != k
      ensures StillThere(p, p', r.tenant, x)
    {
      assert StillThere(p1, p', r.tenant, x);
    }
  }

  lemma NextArrives(
    env: Env, v: World, v1: World, p1: PlainStore, a: nat, r: Request, k: string, b: nat, q: Request, k': string, sealing: Sealing)
    requires CanArrive(env, v, a, r, k, sealing) && CanArrive(env, v, b, q, k', sealing) && a != b && k != k' && Quiet(v)
    requires RanAlone(env, v, v1, a, r, DraftOf(v.store.plain, r), k, p1, Lost)
    ensures CanArrive(env, v1, b, q, k', sealing) && Quiet(v1) && p1.owners == v.store.plain.owners
    ensures DraftOf(v1.store.plain, q) == DraftOf(v.store.plain, q)
  {
  }

  lemma AloneSinceQuiet(v: World, v': World, rid: nat)
    requires MetKnown(v) && v'.met == v.met && rid !in v.reqs
    ensures Alone(v', rid)
  {
  }

  lemma LostOwnerInTwin(
    env: Env, v: World, a: nat, r: Request, k: string, b: nat, q: Request, k': string, sealing: Sealing)
    returns (ls: seq<Label>)
    requires Inv(env, v) && MetKnown(v) && Quiet(v) && a != b && k != k'
    requires CanArrive(env, v, a, r, k, sealing) && CanArrive(env, v, b, q, k', sealing) && SameCard(r, q)
    ensures ValidRun(env, v, ls)
    ensures var v' := Run(env, v, ls); var token := v.store.plain.byPan[(r.tenant, PANOf(r))];
      && v'.store.Plain? && Alone(v', a) && Alone(v', b)
      && GotBoth(v', a, token, k) && GotBoth(v', b, token, k') && v'.reqs[a].req == r && v'.reqs[b].req == q
      && LiveCVV(v'.store.plain, r.tenant, k) && LiveCVV(v'.store.plain, r.tenant, k')
  {
    var p, d, d', fine := v.store.plain, DraftOf(v.store.plain, r), DraftOf(v.store.plain, q), Smooth(k, sealing);
    OwnersNameNeither(env, v, r.tenant, d.panToken, k, k');
    var first, p1 := RunsAlone(env, v, a, r, k, sealing, fine.(fault := Lost));
    var v1 := Run(env, v, first);
    NextArrives(env, v, v1, p1, a, r, k, b, q, k', sealing);
    var second, p2 := RunsAlone(env, v1, b, q, k', sealing, fine);
    RunAppend(env, v, first, second);
    ls := first + second;
    var v2 := Run(env, v1, second);
    assert StillThere(p1, p2, r.tenant, k);
    AloneSinceQuiet(v, v2, a);
    AloneSinceQuiet(v, v2, b);
    EchoGivesBoth(v2, a, r, p, k, p.now);
    EchoGivesBoth(v2, b, q, p, k', p.now);
  }

  /**
    Without overlap it takes one owner command that fails: whatever the service has been through, if no request is in
    progress and a card has a token, two requests for it one after the other, the first of which loses its last command,
    both succeed and leave two CVV tokens alive.
   */
  lemma LostOwnerLeavesTwo(
    env: Env, now: int, ls: seq<Label>, a: nat, r: Request, k: string, b: nat, q: Request, k': string, sealing: Sealing)
    returns (more: seq<Label>, token: string)
    requires Reached(env, now, ls) && Quiet(WorldAt(env, now, ls)) && a != b && k != k'
    requires CanArrive(env, TwinAt(env, now, ls), a, r, k, sealing) && CanArrive(env, TwinAt(env, now, ls), b, q, k', sealing)
    requires SameCard(r, q)
    ensures Reached(env, now, ls + more)
    ensures var w := WorldAt(env, now, ls + more);
      && Alone(w, a) && Alone(w, b)
      && GotBoth(w, a, token, k) && GotBoth(w, b, token, k')
      && IsLive(w, r.tenant, k) && IsLive(w, r.tenant, k')
  {
    TwinHolds(env, now, ls);
    var v := TwinAt(env, now, ls);
    MetStaysKnown(env, PlainStart(now), ls);
    more := LostOwnerInTwin(env, v, a, r, k, b, q, k', sealing);
    token := v.store.plain.byPan[(r.tenant, PANOf(r))];
    ValidTenantIDsAreColonFree(r.tenant);
    BothLiveInRun(env, now, ls, more, r.tenant, k, k');
    SameMeetings(Run(env, v, more), WorldAt(env, now, ls + more), a);
    SameMeetings(Run(env, v, more), WorldAt(env, now, ls + more), b);
  }

  lemma SameMeetings(v: World, w: World, rid: nat)
    requires w.reqs == v.reqs && w.met == v.met && Alone(v, rid)
    ensures Alone(w, rid)
  {
    forall other | (rid, other) in w.met
      ensures !OneCard(w, rid, other)
    {
      assert (rid, other) in v.met && !OneCard(v, rid, other);
    }
  }
}
