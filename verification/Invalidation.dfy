/**
  The previous CVV token of a card. Reading the owner key, deleting the token it names and writing the key are three
  commands, so requests for one card that overlap can leave an old CVV token alive; requests that do not cannot.
 */
module Invalidation {
  import opened Options
  import opened Identifiers
  import opened Stores
  import opened Refinement
  import opened Requests
  import opened Machine
  import opened Lockstep
  import opened Invariants
  import opened Guarantees
  import T = Tables

  ghost predicate OneCard(w: World, a: nat, b: nat) {
    && a in w.reqs && b in w.reqs && HasPAN(w.reqs[a].req) && HasPAN(w.reqs[b].req)
    && SameCard(w.reqs[a].req, w.reqs[b].req)
  }

  /** No request for the same card was in progress at any moment together with `rid`. */
  ghost predicate Alone(w: World, rid: nat) {
    forall other :: (rid, other) in w.met ==> !OneCard(w, rid, other)
  }

  /** `rid` is finished and `k` is the CVV token it stored for its card. */
  ghost predicate Finished(w: World, rid: nat, k: string) {
    rid in w.reqs && w.reqs[rid].pc.Done? && HasPAN(w.reqs[rid].req) && IssuedBy(w, k, rid, false)
  }

  // Invariants of the plain world

  ghost predicate MetOK(v: World) {
    forall a: nat, b: nat :: InProgress(v, a) && InProgress(v, b) && a != b ==> (a, b) in v.met
  }

  /** A request generates at most one CVV token and carries it to its end. */
  ghost predicate Carries(pc: Pc, k: string) {
    pc.Done? || ((pc.AtGetOwner? || pc.AtDropPrevious? || pc.AtSetOwner?) && pc.cvvToken == k)
  }

  ghost predicate CarriedOK(v: World) {
    forall k :: k in v.issued && !v.issued[k].isPAN && v.issued[k].rid in v.reqs ==>
      Carries(v.reqs[v.issued[k].rid].pc, k)
  }

  ghost predicate Settled(v: World, rid: nat, k: string)
    requires v.store.Plain?
  {
    Finished(v, rid, k) && LiveCVV(v.store.plain, v.reqs[rid].req.tenant, k) && Alone(v, rid)
  }

  predicate Outlives(a: Option<int>, b: Option<int>) {
    a.None? || (b.Some? && a.value >= b.value)
  }

  /** The owner key of the card's PAN token names `k` and outlives it. */
  ghost predicate OwnerNames(p: PlainStore, t: string, pan: string, k: string) {
    && (t, pan) in p.byPan && (t, p.byPan[(t, pan)]) in p.owners && (t, k) in p.cvvs
    && p.owners[(t, p.byPan[(t, pan)])].value == k
    && Outlives(p.owners[(t, p.byPan[(t, pan)])].expires, p.cvvs[(t, k)].expires)
  }

  /** A request for the card that has read the owner key is about to delete `k`. */
  ghost predicate NoRival(v: World, rid: nat, k: string) {
    forall other :: InProgress(v, other) && OneCard(v, rid, other) ==>
      && !v.reqs[other].pc.AtSetOwner?
      && (v.reqs[other].pc.AtDropPrevious? ==> v.reqs[other].pc.previous == k)
  }

  ghost predicate SettledOK(v: World)
    requires v.store.Plain?
  {
    forall rid, k :: Settled(v, rid, k) ==>
      && OwnerNames(v.store.plain, v.reqs[rid].req.tenant, PANOf(v.reqs[rid].req), k)
      && NoRival(v, rid, k)
  }

  ghost predicate OwnersOK(v: World) {
    v.store.Plain? && MetOK(v) && CarriedOK(v) && (v.redisOk ==> SettledOK(v))
  }

  // Preservation

  lemma MetAfterNext(env: Env, v: World, l: Label)
    requires MetOK(v)
    ensures MetOK(Next(env, v, l))
  {
    var v' := Next(env, v, l);
    forall a: nat, b: nat | InProgress(v', a) && InProgress(v', b) && a != b
      ensures (a, b) in v'.met
    {
      if l.Begin? && a == l.rid {
        assert InProgress(v, b);
      } else if l.Begin? && b == l.rid {
        assert InProgress(v, a);
      } else {
        assert InProgress(v, a) && InProgress(v, b);
      }
    }
  }

  lemma CarriedAfterNext(env: Env, v: World, l: Label)
    requires Inv(env, v) && CarriedOK(v) && Enabled(env, v, l)
    ensures CarriedOK(Next(env, v, l))
  {
    var v' := Next(env, v, l);
    forall k | k in v'.issued && !v'.issued[k].isPAN && v'.issued[k].rid in v'.reqs
      ensures Carries(v'.reqs[v'.issued[k].rid].pc, k)
    {
      var rid := v'.issued[k].rid;
      if k in v.issued {
        assert Carries(v.reqs[rid].pc, k);
        if l.Advance? && l.rid == rid && InProgress(v, rid) {
          StillCarries(v.reqs[rid].req, v.reqs[rid].pc, l.choice,
                       Exec(env, v.store, CallOf(v.reqs[rid].req, v.reqs[rid].pc, l.choice), l.choice.fault).1, Now(v.store), k);
        }
      }
    }
  }

  lemma StillCarries(r: Request, pc: Pc, c: Choice, answer: Answer, now: int, k: string)
    requires !pc.Done? && Carries(pc, k)
    ensures Carries(Resume(r, pc, c, answer, now), k)
  {
  }

  lemma SettledBefore(v: World, v': World, rid: nat, k: string)
    requires Grows(v, v') && v.met <= v'.met && Settled(v', rid, k)
    requires rid in v.reqs && v.reqs[rid].pc.Done? && k in v.issued
    ensures Settled(v, rid, k)
  {
    assert (v.reqs[rid].req.tenant, k) in v.store.plain.cvvs;
    forall other | (rid, other) in v.met
      ensures !OneCard(v, rid, other)
    {
      assert (rid, other) in v'.met;
    }
  }

  // The steps around the owner key, one by one

  lemma DraftIsBound(env: Env, v: World, rid: nat)
    requires v.store.Plain? && RequestsOK(env, v) && InProgress(v, rid)
    requires v.reqs[rid].pc.AtGetOwner? || v.reqs[rid].pc.AtDropPrevious? || v.reqs[rid].pc.AtSetOwner?
    ensures HasPAN(v.reqs[rid].req)
    ensures Bound(v.store.plain, v.reqs[rid].req.tenant, PANOf(v.reqs[rid].req), v.reqs[rid].pc.draft.panToken)
  {
    assert RequestOK(env, v, rid, v.reqs[rid].req, v.reqs[rid].pc);
  }

  lemma PutCVVStep(env: Env, p: PlainStore, r: Request, pc: Pc, c: Choice)
    requires pc.AtPutCVV? && c.fault == Fine && pc.draft.panToken != ""
    ensures Step(env, Plain(p), r, pc, c).1 == AtGetOwner(pc.draft, c.id)
  {
  }

  lemma GetOwnerStep(env: Env, p: PlainStore, r: Request, pc: Pc, c: Choice)
    requires pc.AtGetOwner? && c.fault == Fine && LiveOwner(p, r.tenant, pc.draft.panToken)
    requires p.owners[(r.tenant, pc.draft.panToken)].value != ""
    ensures Step(env, Plain(p), r, pc, c).1
         == AtDropPrevious(pc.draft, pc.cvvToken, p.owners[(r.tenant, pc.draft.panToken)].value)
  {
  }

  lemma DropStep(env: Env, p: PlainStore, r: Request, pc: Pc, c: Choice)
    requires pc.AtDropPrevious? && c.fault == Fine
    ensures Step(env, Plain(p), r, pc, c) == (Plain(p.(cvvs := p.cvvs - {(r.tenant, pc.previous)})), AtSetOwner(pc.draft, pc.cvvToken))
  {
  }

  lemma SetOwnerStep(env: Env, p: PlainStore, r: Request, pc: Pc, c: Choice)
    requires pc.AtSetOwner? && c.fault == Fine
    ensures Step(env, Plain(p), r, pc, c).0
         == Plain(p.(owners := p.owners[(r.tenant, pc.draft.panToken) := Timed(pc.cvvToken, T.ExpiryAfter(p.now, env.ttl))]))
  {
  }

  lemma OwnerEntryKept(env: Env, p: PlainStore, call: Call, fault: Fault, o: (string, string))
    requires call.SetOwner? ==> (call.tenant, call.panToken) != o
    ensures var owners' := Exec(env, Plain(p), call, fault).0.plain.owners;
      o in p.owners ==> o in owners' && owners'[o] == p.owners[o]
  {
  }

  /** A PAN token belongs to one card. */
  lemma TokenTellsCard(v: World, k: (string, string), k': (string, string))
    requires v.store.Plain? && TokensOK(v) && k in v.store.plain.byPan && k' in v.store.plain.byPan
    ensures v.store.plain.byPan[k] == v.store.plain.byPan[k'] ==> k == k'
  {
  }

  lemma WritesOtherOwner(env: Env, v: World, rid: nat, other: nat)
    requires Inv(env, v) && InProgress(v, other) && rid in v.reqs && HasPAN(v.reqs[rid].req) && v.reqs[other].pc.AtSetOwner?
    requires (v.reqs[rid].req.tenant, PANOf(v.reqs[rid].req)) in v.store.plain.byPan && !OneCard(v, rid, other)
    ensures (v.reqs[other].req.tenant, v.reqs[other].pc.draft.panToken)
         != (v.reqs[rid].req.tenant, v.store.plain.byPan[(v.reqs[rid].req.tenant, PANOf(v.reqs[rid].req))])
  {
    var r, q := v.reqs[rid].req, v.reqs[other].req;
    DraftIsBound(env, v, other);
    TokenTellsCard(v, (r.tenant, PANOf(r)), (q.tenant, PANOf(q)));
  }

  ghost predicate OwnerKept(v: World, v': World, o: (string, string)) {
    && v.store.Plain? && v'.store.Plain?
    && (o in v.store.plain.owners ==>
          o in v'.store.plain.owners && v'.store.plain.owners[o] == v.store.plain.owners[o])
  }

  lemma KeepsOwner(env: Env, v: World, other: nat, c: Choice, o: (string, string))
    requires v.store.Plain? && InProgress(v, other)
    requires var pc := v.reqs[other].pc; pc.AtSetOwner? ==> (v.reqs[other].req.tenant, pc.draft.panToken) != o
    ensures OwnerKept(v, AdvanceOne(env, v, other, c), o)
  {
    var call := CallOf(v.reqs[other].req, v.reqs[other].pc, c);
    CallFootprint(env, v.store.plain, call, c.fault);
    OwnerEntryKept(env, v.store.plain, call, c.fault, o);
  }

  /** The owner entry of a card is only written by a request for that card. */
  lemma OwnerWriters(env: Env, v: World, rid: nat, other: nat, c: Choice)
    requires Inv(env, v) && InProgress(v, other) && rid in v.reqs && HasPAN(v.reqs[rid].req)
    requires (v.reqs[rid].req.tenant, PANOf(v.reqs[rid].req)) in v.store.plain.byPan
    requires !OneCard(v, rid, other) || !v.reqs[other].pc.AtSetOwner?
    ensures var t, pan := v.reqs[rid].req.tenant, PANOf(v.reqs[rid].req);
      OwnerKept(v, AdvanceOne(env, v, other, c), (t, v.store.plain.byPan[(t, pan)]))
  {
    var t, pan := v.reqs[rid].req.tenant, PANOf(v.reqs[rid].req);
    if v.reqs[other].pc.AtSetOwner? {
      WritesOtherOwner(env, v, rid, other);
    }
    KeepsOwner(env, v, other, c, (t, v.store.plain.byPan[(t, pan)]));
  }

  lemma OwnerStillNames(env: Env, v: World, rid: nat, other: nat, c: Choice, k: string)
    requires Inv(env, v) && Finished(v, rid, k) && InProgress(v, other)
    requires OwnerNames(v.store.plain, v.reqs[rid].req.tenant, PANOf(v.reqs[rid].req), k) && NoRival(v, rid, k)
    requires Grows(v, AdvanceOne(env, v, other, c))
    requires LiveCVV(AdvanceOne(env, v, other, c).store.plain, v.reqs[rid].req.tenant, k)
    ensures OwnerNames(AdvanceOne(env, v, other, c).store.plain, v.reqs[rid].req.tenant, PANOf(v.reqs[rid].req), k)
  {
    OwnerWriters(env, v, rid, other, c);
  }

  /** A request for the card that reads the owner key finds `k`; one that deletes what it found deletes `k`. */
  lemma RivalStep(env: Env, v: World, rid: nat, other: nat, c: Choice, k: string)
    requires Inv(env, v) && Finished(v, rid, k) && InProgress(v, other) && OneCard(v, rid, other) && c.fault == Fine
    requires OwnerNames(v.store.plain, v.reqs[rid].req.tenant, PANOf(v.reqs[rid].req), k) && NoRival(v, rid, k)
    requires v.reqs[other].pc.AtGetOwner? || v.reqs[other].pc.AtDropPrevious?
    requires LiveCVV(Step(env, v.store, v.reqs[other].req, v.reqs[other].pc, c).0.plain, v.reqs[rid].req.tenant, k)
    requires Now(Step(env, v.store, v.reqs[other].req, v.reqs[other].pc, c).0) == Now(v.store)
    requires LiveCVV(v.store.plain, v.reqs[rid].req.tenant, k)
    ensures var pc := Step(env, v.store, v.reqs[other].req, v.reqs[other].pc, c).1; pc.AtDropPrevious? && pc.previous == k
  {
    var p, r, pc := v.store.plain, v.reqs[other].req, v.reqs[other].pc;
    DraftIsBound(env, v, other);
    if pc.AtGetOwner? {
      assert IsGeneratedID(k);
      GeneratedIDsAreTokenShaped(k);
      GetOwnerStep(env, p, r, pc, c);
    } else {
      DropStep(env, p, r, pc, c);
    }
  }

  lemma WasLive(env: Env, v: World, other: nat, c: Choice, t: string, k: string)
    requires v.store.Plain? && InProgress(v, other) && Grows(v, AdvanceOne(env, v, other, c)) && k in v.issued
    requires LiveCVV(AdvanceOne(env, v, other, c).store.plain, t, k)
    ensures LiveCVV(v.store.plain, t, k) && Now(AdvanceOne(env, v, other, c).store) == Now(v.store)
  {
    CallFootprint(env, v.store.plain, CallOf(v.reqs[other].req, v.reqs[other].pc, c), c.fault);
    assert (t, k) in v.store.plain.cvvs;
  }

  lemma NoRivalAfterAdvance(env: Env, v: World, rid: nat, other: nat, c: Choice, k: string)
    requires Inv(env, v) && Finished(v, rid, k) && InProgress(v, other)
    requires OwnerNames(v.store.plain, v.reqs[rid].req.tenant, PANOf(v.reqs[rid].req), k) && NoRival(v, rid, k)
    requires AdvanceOne(env, v, other, c).redisOk && Grows(v, AdvanceOne(env, v, other, c))
    requires LiveCVV(AdvanceOne(env, v, other, c).store.plain, v.reqs[rid].req.tenant, k)
    ensures NoRival(AdvanceOne(env, v, other, c), rid, k)
  {
    var v' := AdvanceOne(env, v, other, c);
    WasLive(env, v, other, c, v.reqs[rid].req.tenant, k);
    forall q | InProgress(v', q) && OneCard(v', rid, q)
      ensures !v'.reqs[q].pc.AtSetOwner? && (v'.reqs[q].pc.AtDropPrevious? ==> v'.reqs[q].pc.previous == k)
    {
      assert InProgress(v, q) && OneCard(v, rid, q);
      if q == other && UsesOwnerKeys(v.reqs[q].pc) && !v.reqs[q].pc.AtPutCVV? {
        RivalStep(env, v, rid, other, c, k);
      } else if q == other {
        NoOwnerPcBefore(v.reqs[q].req, v.reqs[q].pc, c,
                        Exec(env, v.store, CallOf(v.reqs[q].req, v.reqs[q].pc, c), c.fault).1, Now(v.store));
      }
    }
  }

  lemma NoOwnerPcBefore(r: Request, pc: Pc, c: Choice, answer: Answer, now: int)
    requires !pc.Done? && !pc.AtGetOwner? && !pc.AtDropPrevious? && !pc.AtSetOwner?
    ensures var pc' := Resume(r, pc, c, answer, now); !pc'.AtSetOwner? && !pc'.AtDropPrevious?
  {
  }

  /** A request that finishes with its CVV token stored has just written the owner key. */
  lemma FinishesBySettingOwner(env: Env, v: World, rid: nat, c: Choice, k: string)
    requires Inv(env, v) && CarriedOK(v) && InProgress(v, rid) && ChoiceFits(env, v, v.reqs[rid].pc, c)
    requires AdvanceOne(env, v, rid, c).redisOk && Finished(AdvanceOne(env, v, rid, c), rid, k)
    ensures v.reqs[rid].pc.AtSetOwner? && v.reqs[rid].pc.cvvToken == k && c.fault == Fine
  {
    var Progress(r, pc) := v.reqs[rid];
    if k in v.issued {
      assert Carries(pc, k);
      OwnerPcsGoOn(r, pc, c, Exec(env, v.store, CallOf(r, pc, c), c.fault).1, Now(v.store));
    } else {
      DraftHasToken(env, v, rid);
      PutCVVStep(env, v.store.plain, r, pc, c);
    }
  }

  lemma DraftHasToken(env: Env, v: World, rid: nat)
    requires Inv(env, v) && InProgress(v, rid) && v.reqs[rid].pc.AtPutCVV? && HasPAN(v.reqs[rid].req)
    ensures v.reqs[rid].pc.draft.panToken != ""
  {
    var Progress(r, pc) := v.reqs[rid];
    assert RequestOK(env, v, rid, r, pc);
    assert Bound(v.store.plain, r.tenant, PANOf(r), pc.draft.panToken);
    assert BornPAN(v, pc.draft.panToken, r.tenant, PANOf(r));
    GeneratedIDsAreTokenShaped(pc.draft.panToken);
  }

  lemma OwnerPcsGoOn(r: Request, pc: Pc, c: Choice, answer: Answer, now: int)
    requires pc.AtGetOwner? || pc.AtDropPrevious? || pc.AtSetOwner?
    ensures Resume(r, pc, c, answer, now).Done? ==> pc.AtSetOwner?
  {
  }

  lemma SettlesNow(env: Env, v: World, rid: nat, c: Choice, k: string)
    requires Inv(env, v) && OwnersOK(v) && InProgress(v, rid) && ChoiceFits(env, v, v.reqs[rid].pc, c)
    requires AdvanceOne(env, v, rid, c).redisOk && Settled(AdvanceOne(env, v, rid, c), rid, k)
    ensures OwnerNames(AdvanceOne(env, v, rid, c).store.plain, v.reqs[rid].req.tenant, PANOf(v.reqs[rid].req), k)
  {
    FinishesBySettingOwner(env, v, rid, c, k);
    SetOwnerStep(env, v.store.plain, v.reqs[rid].req, v.reqs[rid].pc, c);
    WritesOwner(env, v, rid, c);
  }

  /** Everyone in progress for the card when `rid` finishes has met `rid`. */
  lemma NoRivalYet(env: Env, v: World, rid: nat, c: Choice, k: string)
    requires MetOK(v) && v.store.Plain? && InProgress(v, rid) && Alone(AdvanceOne(env, v, rid, c), rid)
    requires AdvanceOne(env, v, rid, c).reqs[rid].pc.Done?
    ensures NoRival(AdvanceOne(env, v, rid, c), rid, k)
  {
    var v' := AdvanceOne(env, v, rid, c);
    forall q: nat | InProgress(v', q)
      ensures !OneCard(v', rid, q)
    {
      assert InProgress(v, q) && (rid, q) in v'.met;
    }
  }

  lemma WritesOwner(env: Env, v: World, rid: nat, c: Choice)
    requires Inv(env, v) && InProgress(v, rid) && v.reqs[rid].pc.AtSetOwner? && c.fault == Fine
    requires HasPAN(v.reqs[rid].req) && (v.reqs[rid].req.tenant, v.reqs[rid].pc.cvvToken) in v.store.plain.cvvs
    ensures OwnerNames(AdvanceOne(env, v, rid, c).store.plain, v.reqs[rid].req.tenant, PANOf(v.reqs[rid].req),
                       v.reqs[rid].pc.cvvToken)
  {
    var Progress(r, pc) := v.reqs[rid];
    DraftIsBound(env, v, rid);
    SetOwnerStep(env, v.store.plain, r, pc, c);
    assert v.store.plain.cvvs[(r.tenant, pc.cvvToken)].expires == T.ExpiryAfter(v.issued[pc.cvvToken].at, env.ttl);
    assert v.issued[pc.cvvToken].at <= v.store.plain.now;
  }

  lemma SettledAfterAdvance(env: Env, v: World, other: nat, c: Choice)
    requires Inv(env, v) && OwnersOK(v) && InProgress(v, other) && ChoiceFits(env, v, v.reqs[other].pc, c)
    requires Grows(v, AdvanceOne(env, v, other, c)) && AdvanceOne(env, v, other, c).redisOk
    ensures SettledOK(AdvanceOne(env, v, other, c))
  {
    var v' := AdvanceOne(env, v, other, c);
    forall rid, k | Settled(v', rid, k)
      ensures OwnerNames(v'.store.plain, v'.reqs[rid].req.tenant, PANOf(v'.reqs[rid].req), k) && NoRival(v', rid, k)
    {
      if rid == other {
        SettlesNow(env, v, rid, c, k);
        NoRivalYet(env, v, rid, c, k);
      } else {
        SettledBefore(v, v', rid, k);
        OwnerStillNames(env, v, rid, other, c, k);
        NoRivalAfterAdvance(env, v, rid, other, c, k);
      }
    }
  }

  /** Nothing in the store changes and nobody gets to the owner key when a request arrives or time passes. */
  lemma SettledAfterOther(env: Env, v: World, l: Label)
    requires Inv(env, v) && SettledOK(v) && !l.Advance? && Enabled(env, v, l) && Grows(v, Next(env, v, l))
    ensures SettledOK(Next(env, v, l))
  {
    var v' := Next(env, v, l);
    forall rid, k | Settled(v', rid, k)
      ensures OwnerNames(v'.store.plain, v'.reqs[rid].req.tenant, PANOf(v'.reqs[rid].req), k) && NoRival(v', rid, k)
    {
      assert k in v.issued && rid in v.reqs;
      SettledBefore(v, v', rid, k);
      NoRivalAfterOther(env, v, l, rid, k);
    }
  }

  lemma NoRivalAfterOther(env: Env, v: World, l: Label, rid: nat, k: string)
    requires NoRival(v, rid, k) && !l.Advance? && Enabled(env, v, l) && rid in v.reqs
    ensures NoRival(Next(env, v, l), rid, k)
  {
    var v' := Next(env, v, l);
    forall q | InProgress(v', q) && OneCard(v', rid, q)
      ensures !v'.reqs[q].pc.AtSetOwner? && (v'.reqs[q].pc.AtDropPrevious? ==> v'.reqs[q].pc.previous == k)
    {
      if q in v.reqs {
        assert InProgress(v, q) && OneCard(v, rid, q);
      }
    }
  }

  lemma {:induction false} OwnersAfterRun(env: Env, v: World, ls: seq<Label>)
    requires Inv(env, v) && OwnersOK(v) && ValidRun(env, v, ls)
    ensures OwnersOK(Run(env, v, ls))
    decreases |ls|
  {
    if ls != [] {
      var l, v' := ls[0], Next(env, v, ls[0]);
      NextGrows(env, v, l);
      InvAfterNext(env, v, l);
      MetAfterNext(env, v, l);
      CarriedAfterNext(env, v, l);
      if v'.redisOk {
        if l.Advance? {
          SettledAfterAdvance(env, v, l.rid, l.choice);
        } else {
          SettledAfterOther(env, v, l);
        }
      }
      OwnersAfterRun(env, v', ls[1..]);
    }
  }

  // The guarantees

  /** The owner key names `k` at this moment. */
  ghost predicate IsOwner(env: Env, w: World, t: string, panToken: string, k: string)
    requires w.store.Sealed?
  {
    ApplySealed(env, w.store.sealed, GetOwner(t, panToken)).1 == OwnerIs(Some(k))
  }

  /** Taking `k` at this moment would give its value. */
  ghost predicate IsLive(w: World, t: string, k: string)
    requires w.store.Sealed?
  {
    T.RedisGet(w.store.sealed.keys, w.store.sealed.now, CvvTokenKey(t, k)).Some?
  }

  /**
    A CVV token that has been generated and is not alive, because it was revealed, taken with the reply lost, deleted or
    has expired, never becomes alive again.
   */
  lemma DeadCVVsStayDead(env: Env, now: int, ls: seq<Label>, more: seq<Label>, t: string, k: string)
    requires Reached(env, now, ls + more) && ColonFree(t) && k in WorldAt(env, now, ls).issued
    requires !IsLive(WorldAt(env, now, ls), t, k)
    ensures !IsLive(WorldAt(env, now, ls + more), t, k)
  {
    TwinGoesOn(env, now, ls, more);
    TwinHolds(env, now, ls);
    LiveInTwin(env, WorldAt(env, now, ls), TwinAt(env, now, ls), t, k);
    LiveInTwin(env, WorldAt(env, now, ls + more), TwinAt(env, now, ls + more), t, k);
    assert (t, k).1 in TwinAt(env, now, ls).issued;
  }

  /** A finished tokenize request that was given the PAN token `panToken` and the CVV token `k`. */
  ghost predicate GotBoth(w: World, rid: nat, panToken: string, k: string) {
    && GotPANToken(w, rid, panToken) && "cvv" in w.reqs[rid].req.body
    && "cvv" in w.reqs[rid].pc.reply.body && w.reqs[rid].pc.reply.body["cvv"].Str?
    && k == w.reqs[rid].pc.reply.body["cvv"].text
  }

  lemma TwinOwners(env: Env, now: int, ls: seq<Label>)
    requires Reached(env, now, ls)
    ensures OwnersOK(TwinAt(env, now, ls))
  {
    SealedRefinesPlain(env, now, ls);
    StartOK(env, now);
    OwnersAfterRun(env, PlainStart(now), ls);
  }

  lemma LiveInTwin(env: Env, w: World, v: World, t: string, k: string)
    requires Twin(env, w, v) && ColonFree(t)
    ensures IsLive(w, t, k) <==> LiveCVV(v.store.plain, t, k)
  {
    assert CVVAt(env, w.store.sealed.keys, v.store.plain.cvvs, t, k);
  }

  lemma OwnerInTwin(env: Env, w: World, v: World, t: string, panToken: string, k: string)
    requires Twin(env, w, v) && ColonFree(t)
    ensures IsOwner(env, w, t, panToken, k)
       <==> LiveOwner(v.store.plain, t, panToken) && v.store.plain.owners[(t, panToken)].value == k
  {
    assert OwnerAt(w.store.sealed.keys, v.store.plain.owners, t, panToken);
  }

  lemma GotOwnCVVToken(env: Env, v: World, rid: nat, panToken: string, k: string)
    requires Inv(env, v) && GotBoth(v, rid, panToken, k)
    ensures Finished(v, rid, k)
  {
    assert RequestOK(env, v, rid, v.reqs[rid].req, v.reqs[rid].pc);
  }

  lemma SettledNamesInTwin(env: Env, v: World, rid: nat, panToken: string, k: string)
    requires Inv(env, v) && OwnersOK(v) && v.redisOk && GotBoth(v, rid, panToken, k) && Alone(v, rid)
    requires LiveCVV(v.store.plain, v.reqs[rid].req.tenant, k)
    ensures LiveOwner(v.store.plain, v.reqs[rid].req.tenant, panToken)
    ensures v.store.plain.owners[(v.reqs[rid].req.tenant, panToken)].value == k
  {
    GotOwnCVVToken(env, v, rid, panToken, k);
    TokenIsBound(env, v, rid, panToken);
    assert Settled(v, rid, k);
  }

  lemma SettledNames(env: Env, now: int, ls: seq<Label>, rid: nat, panToken: string, k: string)
    requires Reached(env, now, ls) && WorldAt(env, now, ls).redisOk && GotBoth(WorldAt(env, now, ls), rid, panToken, k)
    requires Alone(WorldAt(env, now, ls), rid) && IsLive(WorldAt(env, now, ls), WorldAt(env, now, ls).reqs[rid].req.tenant, k)
    ensures IsOwner(env, WorldAt(env, now, ls), WorldAt(env, now, ls).reqs[rid].req.tenant, panToken, k)
  {
    TwinHolds(env, now, ls);
    TwinOwners(env, now, ls);
    var w, v := WorldAt(env, now, ls), TwinAt(env, now, ls);
    var t := v.reqs[rid].req.tenant;
    assert ColonFree(t) by {
      assert Sound(env, v.reqs[rid].req, v.reqs[rid].pc);
      ValidTenantIDsAreColonFree(t);
    }
    LiveInTwin(env, w, v, t, k);
    OwnerInTwin(env, w, v, t, panToken, k);
    AloneInTwin(env, w, v, rid);
    SettledNamesInTwin(env, v, rid, panToken, k);
  }

  lemma AloneInTwin(env: Env, w: World, v: World, rid: nat)
    requires Twin(env, w, v) && Alone(w, rid)
    ensures Alone(v, rid)
  {
    forall other | (rid, other) in v.met
      ensures !OneCard(v, rid, other)
    {
      assert (rid, other) in w.met && !OneCard(w, rid, other);
    }
  }

  /**
    While Redis does not fail: if the CVV token of a finished request is alive and is not the one the owner key of its
    PAN token names, then another request for the same card was in progress together with it.
   */
  lemma StaleCVVMeansOverlap(env: Env, now: int, ls: seq<Label>, rid: nat, panToken: string, k: string)
    requires Reached(env, now, ls) && WorldAt(env, now, ls).redisOk && GotBoth(WorldAt(env, now, ls), rid, panToken, k)
    requires IsLive(WorldAt(env, now, ls), WorldAt(env, now, ls).reqs[rid].req.tenant, k)
    ensures var w := WorldAt(env, now, ls);
      || IsOwner(env, w, w.reqs[rid].req.tenant, panToken, k)
      || exists other :: (rid, other) in w.met && OneCard(w, rid, other)
  {
    if Alone(WorldAt(env, now, ls), rid) {
      SettledNames(env, now, ls, rid, panToken, k);
    }
  }

  /** Requests for one card that did not overlap leave at most one CVV token alive between them. */
  lemma AtMostOneLiveCVV(env: Env, now: int, ls: seq<Label>, a: nat, b: nat, panToken: string, k: string, k': string)
    requires Reached(env, now, ls) && WorldAt(env, now, ls).redisOk
    requires GotBoth(WorldAt(env, now, ls), a, panToken, k) && GotBoth(WorldAt(env, now, ls), b, panToken, k')
    requires Alone(WorldAt(env, now, ls), a) && Alone(WorldAt(env, now, ls), b)
    requires IsLive(WorldAt(env, now, ls), WorldAt(env, now, ls).reqs[a].req.tenant, k)
    requires IsLive(WorldAt(env, now, ls), WorldAt(env, now, ls).reqs[b].req.tenant, k')
    ensures a == b && k == k'
  {
    SettledNames(env, now, ls, a, panToken, k);
    SettledNames(env, now, ls, b, panToken, k');
    OneTokenPerCard(env, now, ls, a, b, panToken, panToken);
    TwinHolds(env, now, ls);
    GotOwnCVVToken(env, TwinAt(env, now, ls), a, panToken, k);
    GotOwnCVVToken(env, TwinAt(env, now, ls), b, panToken, k');
  }
}
