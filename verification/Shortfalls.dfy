/**
  What the design documents promise and the code does not keep, each shown by requests that go wrong although every id,
  key and clock behaves, and with the exact condition under which it does keep it.
 */
module Shortfalls {
  import opened Options
  import opened Card
  import opened Identifiers
  import opened Envelope
  import opened Stores
  import opened Refinement
  import opened Requests
  import opened Machine
  import opened Lockstep
  import opened Invariants
  import opened Guarantees
  import opened Invalidation
  import opened Lookups
  import opened Json
  import opened RoundTrip
  import opened Overlaps
  import T = Tables

  // The token row and the vault row are two statements

  /** A request with a card that has no token yet, of an active tenant, with fresh ids. */
  ghost predicate NewCard(env: Env, v: World, r: Request, script: Script)
    requires v.store.Plain?
  {
    && HasPAN(r) && Admitted(v.store.plain, r.tenant) && (r.tenant, PANOf(r)) !in v.store.plain.byPan
    && PANKnown(env, r) && ScriptFits(env, script) && FreshIn(v, script)
  }

  lemma InsertsRow(env: Env, p: PlainStore, r: Request, script: Script)
    requires HasPAN(r) && Admitted(p, r.tenant) && (r.tenant, PANOf(r)) !in p.byPan && script.insert.id !in p.tokens
    requires script.gate.fault == Fine && script.find.fault == Fine && script.insert.fault == Fine
    ensures var arn := p.tenants[r.tenant].keyARN;
      Serve(env, Plain(p), r, script)
        == Complete(env, Plain(WithToken(p, r, script.insert.id)), r,
                    AtInsertPAN(arn, script.insert.id, script.insert.sealing), script)
  {
    var s, arn := Plain(p), p.tenants[r.tenant].keyARN;
    assert Step(env, s, r, AtGate, script.gate) == (s, AtFindPAN(arn));
    StepThenComplete(env, s, r, AtGate, script, s, AtFindPAN(arn));
    assert Step(env, s, r, AtFindPAN(arn), script.find) == (s, AtInsertToken(arn));
    StepThenComplete(env, s, r, AtFindPAN(arn), script, s, AtInsertToken(arn));
    var q, pc := Plain(WithToken(p, r, script.insert.id)), AtInsertPAN(arn, script.insert.id, script.insert.sealing);
    assert Step(env, s, r, AtInsertToken(arn), script.insert) == (q, pc);
    StepThenComplete(env, s, r, AtInsertToken(arn), script, q, pc);
  }

  lemma BadCVVInTwin(env: Env, p: PlainStore, r: Request, script: Script)
    requires HasPAN(r) && Admitted(p, r.tenant) && (r.tenant, PANOf(r)) !in p.byPan
    requires AllFine(script) && script.insert.id !in p.tokens && script.insert.id !in p.vault
    requires "cvv" in r.body && !HasCVV(r)
    ensures Serve(env, Plain(p), r, script)
         == (Plain(WithPAN(p, r, script.insert.id, p.tenants[r.tenant].keyARN)), Refused(400, "INVALID_CVV"))
  {
    var arn, id := p.tenants[r.tenant].keyARN, script.insert.id;
    var q, pc := WithToken(p, r, id), AtInsertPAN(arn, id, script.insert.sealing);
    InsertsRow(env, p, r, script);
    assert Step(env, Plain(q), r, pc, script.insertPAN)
        == (Plain(WithPAN(p, r, id, arn)), Done(Refused(400, "INVALID_CVV"), p.now));
  }

  /** A request with a bad CVV for a known card, or without a valid PAN, only reads. */
  lemma BadCVVOnlyReads(env: Env, c: SealedStore, p: PlainStore, r: Request, script: Script)
    requires Represents(env, c, p) && PANKnown(env, r) && Admitted(p, r.tenant) && AllFine(script)
    requires r.Tokenize? && "cvv" in r.body && !HasCVV(r)
    requires HasPAN(r) ==> (r.tenant, PANOf(r)) in p.byPan
    ensures Serve(env, Sealed(c), r, script)
         == (Sealed(c), Refused(400, if "pan" in r.body && !HasPAN(r) then "INVALID_PAN" else "INVALID_CVV"))
  {
    var s, arn := Sealed(c), p.tenants[r.tenant].keyARN;
    assert Step(env, s, r, AtGate, script.gate) == (s, AfterGate(r, arn, c.now));
    StepThenComplete(env, s, r, AtGate, script, s, AfterGate(r, arn, c.now));
    if HasPAN(r) {
      ValidTenantIDsAreColonFree(r.tenant);
      assert IndexAt(env, c.tables.byBlind, p.byPan, r.tenant, PANOf(r));
      assert Step(env, s, r, AtFindPAN(arn), script.find) == (s, Done(Refused(400, "INVALID_CVV"), c.now));
    }
  }

  /**
    A request with a bad CVV is refused. It leaves the store as it was exactly when it does not bring a new card; a new
    card has been tokenized and stored all the same.
   */
  lemma BadCVVRefusedAfterStoring(env: Env, now: int, ls: seq<Label>, r: Request, script: Script)
    requires Reached(env, now, ls) && AllFine(script) && ScriptFits(env, script) && FreshIn(TwinAt(env, now, ls), script)
    requires PANKnown(env, r) && Admitted(TwinAt(env, now, ls).store.plain, r.tenant)
    requires r.Tokenize? && "cvv" in r.body && !HasCVV(r)
    ensures var p, s := TwinAt(env, now, ls).store.plain, WorldAt(env, now, ls).store;
      var (s', reply) := Serve(env, s, r, script);
      && reply.Refused? && reply.status == 400
      && (s' == s <==> !(HasPAN(r) && (r.tenant, PANOf(r)) !in p.byPan))
      && (s' != s ==> SameStore(env, s', Plain(WithPAN(p, r, script.insert.id, p.tenants[r.tenant].keyARN))))
  {
    TwinHolds(env, now, ls);
    var w, v := WorldAt(env, now, ls), TwinAt(env, now, ls);
    if HasPAN(r) && (r.tenant, PANOf(r)) !in v.store.plain.byPan {
      FreshInStore(env, v, script);
      BadCVVInTwin(env, v.store.plain, r, script);
      ServeAgrees(env, w.store, v.store, r, script);
    } else {
      BadCVVOnlyReads(env, w.store.sealed, v.store.plain, r, script);
    }
  }

  /** From the CVV on, a request writes no row. */
  lemma {:induction false} RowsAfterPAN(env: Env, p: PlainStore, r: Request, pc: Pc, script: Script)
    requires pc.Done? || UsesOwnerKeys(pc)
    ensures var s' := Complete(env, Plain(p), r, pc, script).0; s'.Plain? && RowsSame(p, s'.plain)
    decreases Rank(pc)
  {
    if !pc.Done? {
      var c := ChoiceAt(script, pc);
      CallFootprint(env, p, CallOf(r, pc, c), c.fault);
      ResumeDescends(r, pc, c, Exec(env, Plain(p), CallOf(r, pc, c), c.fault).1, p.now);
      var (s', pc') := Step(env, Plain(p), r, pc, c);
      RowsAfterPAN(env, s'.plain, r, pc', script);
    }
  }

  /** The store after a new card's token row and, if the insert was sent, its vault row. */
  function WithRows(p: PlainStore, r: Request, id: string, arn: string, fault: Fault): PlainStore
    requires HasPAN(r)
  {
    if fault == Fine || fault == LostReply then WithPAN(p, r, id, arn) else WithToken(p, r, id)
  }

  lemma InsertStep(env: Env, p: PlainStore, r: Request, id: string, arn: string, c: Choice, sealing: Sealing)
    requires HasPAN(r) && id !in p.vault
    ensures Step(env, Plain(WithToken(p, r, id)), r, AtInsertPAN(arn, id, sealing), c)
         == (Plain(WithRows(p, r, id, arn, c.fault)), if c.fault == Fine then AfterPAN(r, true, id, p.now) else Done(INTERNAL, p.now))
  {
  }

  lemma RowsInTwin(env: Env, p: PlainStore, r: Request, script: Script)
    requires HasPAN(r) && Admitted(p, r.tenant) && (r.tenant, PANOf(r)) !in p.byPan
    requires AllFine(script.(insertPAN := script.insert)) && script.insert.id !in p.tokens && script.insert.id !in p.vault
    ensures var (s', reply) := Serve(env, Plain(p), r, script);
      && s'.Plain?
      && RowsSame(WithRows(p, r, script.insert.id, p.tenants[r.tenant].keyARN, script.insertPAN.fault), s'.plain)
      && (script.insertPAN.fault != Fine ==> reply == INTERNAL)
  {
    var id, arn, c := script.insert.id, p.tenants[r.tenant].keyARN, script.insertPAN;
    var q, pc := WithRows(p, r, id, arn, c.fault), AtInsertPAN(arn, id, script.insert.sealing);
    InsertsRow(env, p, r, script);
    InsertStep(env, p, r, id, arn, c, script.insert.sealing);
    var pc' := if c.fault == Fine then AfterPAN(r, true, id, p.now) else Done(INTERNAL, p.now);
    StepThenComplete(env, Plain(WithToken(p, r, id)), r, pc, script, Plain(q), pc');
    RowsAfterPAN(env, q, r, pc', script);
  }

  lemma ResolvesNewCard(p: PlainStore, p': PlainStore, r: Request, id: string, arn: string, fault: Fault)
    requires HasPAN(r) && Admitted(p, r.tenant) && id !in p.vault && RowsSame(WithRows(p, r, id, arn, fault), p')
    ensures id in p'.tokens && (id in p'.vault <==> fault == Fine || fault == LostReply)
    ensures Resolve(p', r.tenant, id).1 == Some(if id in p'.vault then PANOf(r) else "")
  {
  }

  /**
    Whether a new card gets its vault row is decided by its second insert alone: the row is there exactly when that
    statement was sent, even if its reply was lost. Without it the active token row stays behind, the request answers with
    status 500, and detokenizing the token afterwards succeeds with an empty value.
   */
  lemma VaultRowIffInsertSent(env: Env, now: int, ls: seq<Label>, r: Request, script: Script, later: Script)
    requires Reached(env, now, ls) && NewCard(env, TwinAt(env, now, ls), r, script)
    requires AllFine(script.(insertPAN := script.insert)) && AllFine(later) && ScriptFits(env, later)
    ensures var (s', reply) := Serve(env, WorldAt(env, now, ls).store, r, script);
      var id, fault := script.insert.id, script.insertPAN.fault;
      && s'.Sealed? && id in s'.sealed.tables.tokens && (fault != Fine ==> reply == INTERNAL)
      && (id in s'.sealed.tables.vault <==> fault == Fine || fault == LostReply)
      && Serve(env, s', Detokenize(r.tenant, id), later).1
           == Revealed(if id in s'.sealed.tables.vault then PANOf(r) else "")
  {
    TwinHolds(env, now, ls);
    var w, v, id := WorldAt(env, now, ls), TwinAt(env, now, ls), script.insert.id;
    FreshInStore(env, v, script);
    StoredCVVsAreNotEmpty(env, v);
    RowsInTwin(env, v.store.plain, r, script);
    CompleteKeepsCVVs(env, v.store.plain, r, Start(r, Now(v.store)), script);
    ServeAgrees(env, w.store, v.store, r, script);
    var s', p' := Serve(env, w.store, r, script).0, Serve(env, v.store, r, script).0.plain;
    ResolvesNewCard(v.store.plain, p', r, id, v.store.plain.tenants[r.tenant].keyARN, script.insertPAN.fault);
    DetokenizeResolves(env, p', r.tenant, id, later);
    ServeAgrees(env, s', Plain(p'), Detokenize(r.tenant, id), later);
  }

  // Deactivation

  lemma ReadsOn(env: Env, c: SealedStore, r: Request, pan: string, choice: Choice)
    requires r.Detokenize? && choice.fault == Fine && T.FindVaultRow(c.tables, r.tenant, r.token).Some?
    requires OpenPAN(env.crypto, T.FindVaultRow(c.tables, r.tenant, r.token).value.sealed) == Some(pan)
    ensures Step(env, Sealed(c), r, AtReadPAN, choice) == (Sealed(c), AtTouch(pan))
  {
  }

  lemma RunOne(env: Env, w: World, l: Label)
    ensures Run(env, w, [l]) == Next(env, w, l)
  {
    assert [l][0] == l && [l][1..] == [];
    assert Run(env, Next(env, w, l), []) == Next(env, w, l);
  }

  lemma TouchAnswers(env: Env, w: World, rid: nat, r: Request, pan: string, choice: Choice)
    requires At(w, rid, r, AtTouch(pan))
    ensures GotValue(Next(env, w, Advance(rid, choice)), rid, pan)
  {
  }

  lemma ReadGoesOn(env: Env, w: World, rid: nat, r: Request, pan: string, choice: Choice)
    requires At(w, rid, r, AtReadPAN) && Step(env, w.store, r, AtReadPAN, choice).1 == AtTouch(pan)
    ensures At(Next(env, w, Advance(rid, choice)), rid, r, AtTouch(pan))
  {
  }

  /** A detokenize request that found its token active reveals the PAN, also when the token was deactivated since. */
  lemma EarlierLookupFinishes(env: Env, now: int, ls: seq<Label>, rid: nat, r: Request, pan: string, c: Choice, c': Choice)
    requires Reached(env, now, ls) && At(WorldAt(env, now, ls), rid, r, AtReadPAN) && r.Detokenize? && c.fault == Fine
    requires var row := T.FindVaultRow(WorldAt(env, now, ls).store.sealed.tables, r.tenant, r.token);
      row.Some? && OpenPAN(env.crypto, row.value.sealed) == Some(pan)
    ensures GotValue(WorldAt(env, now, ls + [Advance(rid, c)] + [Advance(rid, c')]), rid, pan)
  {
    var w := WorldAt(env, now, ls);
    var w1 := Next(env, w, Advance(rid, c));
    RunAppend(env, SealedStart(now), ls, [Advance(rid, c)]);
    RunAppend(env, SealedStart(now), ls + [Advance(rid, c)], [Advance(rid, c')]);
    RunOne(env, w, Advance(rid, c));
    RunOne(env, w1, Advance(rid, c'));
    ReadsOn(env, w.store.sealed, r, pan, c);
    ReadGoesOn(env, w, rid, r, pan, c);
    TouchAnswers(env, w1, rid, r, pan, c');
  }

  /** Deactivating a PAN token leaves Redis alone: the CVV token issued with it stays alive. */
  lemma {:induction false} DeactivateLeavesCVVs(env: Env, c: SealedStore, r: Request, pc: Pc, script: Script)
    requires r.Deactivate? && (pc.AtGate? || pc.AtFindToken? || pc.AtStopToken? || pc.Done?)
    ensures Complete(env, Sealed(c), r, pc, script).0.Sealed?
    ensures Complete(env, Sealed(c), r, pc, script).0.sealed.keys == c.keys
    decreases Rank(pc)
  {
    if !pc.Done? {
      var (s', pc') := Step(env, Sealed(c), r, pc, ChoiceAt(script, pc));
      DeactivateLeavesCVVs(env, s'.sealed, r, pc', script);
    }
  }
}
