/**
  Every run of the service on the sealed store is a run on the plain store, step for step and with the same replies,
  whatever the interleaving and whatever fails.
 */
module Lockstep {
  import opened Options
  import opened Card
  import opened Identifiers
  import opened Envelope
  import opened Stores
  import opened Refinement
  import opened Requests
  import opened Machine

  /** What the code before `pc` has checked about the request. */
  ghost predicate Sound(env: Env, r: Request, pc: Pc) {
    match pc
    case Done(reply, _) => reply.Revealed? || reply.Tokenized? ==> ValidTenantID(r.tenant)
    case AtFindTenant => true
    case AtInsertTenant => true
    case AtStopTenant => true
    case AtGate => ValidTenantID(r.tenant) && PANKnown(env, r)
    case AtFindPAN(_) => ValidTenantID(r.tenant) && PANKnown(env, r) && HasPAN(r)
    case AtInsertToken(_) => ValidTenantID(r.tenant) && PANKnown(env, r) && HasPAN(r)
    case AtInsertPAN(_, _, sealing) => ValidTenantID(r.tenant) && HasPAN(r) && ValidSealing(sealing)
    case AtPutCVV(_) => ValidTenantID(r.tenant) && HasCVV(r)
    case AtGetOwner(_, cvvToken) => ValidTenantID(r.tenant) && IsGeneratedID(cvvToken)
    case AtDropPrevious(_, cvvToken, _) => ValidTenantID(r.tenant) && IsGeneratedID(cvvToken)
    case AtSetOwner(_, cvvToken) => ValidTenantID(r.tenant) && IsGeneratedID(cvvToken)
    case _ => ValidTenantID(r.tenant)
  }

  ghost predicate PANKnown(env: Env, r: Request) {
    HasPAN(r) ==> BlindPreimage(r.tenant, PANOf(r)) in env.used
  }

  ghost predicate AllSound(env: Env, reqs: map<nat, Progress>) {
    forall rid :: rid in reqs ==> Sound(env, reqs[rid].req, reqs[rid].pc)
  }

  lemma SoundAfterResume(env: Env, w: World, r: Request, pc: Pc, c: Choice, answer: Answer, now: int)
    requires !pc.Done? && Sound(env, r, pc) && ChoiceFits(env, w, pc, c)
    ensures Sound(env, r, Resume(r, pc, c, answer, now))
  {
  }

  lemma SoundCallsFit(env: Env, w: World, r: Request, pc: Pc, c: Choice)
    requires !pc.Done? && Sound(env, r, pc) && ChoiceFits(env, w, pc, c)
    ensures CallFits(env, CallOf(r, pc, c))
  {
    if ValidTenantID(r.tenant) {
      ValidTenantIDsAreColonFree(r.tenant);
    }
    match pc
    case AtInsertPAN(_, _, _) => DigitsAreNotTokenShaped(PANOf(r));
    case AtSetOwner(_, cvvToken) => GeneratedIDsAreTokenShaped(cvvToken);
    case _ =>
  }

  ghost predicate SameStore(env: Env, s: Store, t: Store) {
    s.Sealed? && t.Plain? && Represents(env, s.sealed, t.plain)
  }

  /** A sealed and a plain world that only differ in how the data is kept. */
  ghost predicate Twin(env: Env, w: World, v: World) {
    SameStore(env, w.store, v.store) && v == w.(store := v.store)
  }

  lemma StepAgrees(env: Env, w: World, s: Store, t: Store, r: Request, pc: Pc, c: Choice)
    requires Lawful(env.crypto, env.used) && SameStore(env, s, t)
    requires !pc.Done? && Sound(env, r, pc) && ChoiceFits(env, w, pc, c)
    ensures SameStore(env, Step(env, s, r, pc, c).0, Step(env, t, r, pc, c).0)
    ensures Step(env, s, r, pc, c).1 == Step(env, t, r, pc, c).1
  {
    SoundCallsFit(env, w, r, pc, c);
    CallAgrees(env, s.sealed, t.plain, CallOf(r, pc, c));
  }

  lemma NextAgrees(env: Env, w: World, v: World, l: Label)
    requires Lawful(env.crypto, env.used) && Twin(env, w, v) && AllSound(env, w.reqs) && Enabled(env, w, l)
    ensures Twin(env, Next(env, w, l), Next(env, v, l))
    ensures AllSound(env, Next(env, w, l).reqs)
  {
    match l
    case Begin(rid, r) =>
    case Advance(rid, c) =>
      StepAgrees(env, w, w.store, v.store, w.reqs[rid].req, w.reqs[rid].pc, c);
      SoundAfterResume(env, w, w.reqs[rid].req, w.reqs[rid].pc, c,
                       Exec(env, w.store, CallOf(w.reqs[rid].req, w.reqs[rid].pc, c), c.fault).1, Now(w.store));
    case Tick(d) =>
  }

  lemma {:induction false} RunsAgree(env: Env, w: World, v: World, ls: seq<Label>)
    requires Lawful(env.crypto, env.used) && Twin(env, w, v) && AllSound(env, w.reqs)
    ensures ValidRun(env, w, ls) <==> ValidRun(env, v, ls)
    ensures ValidRun(env, w, ls) ==> Twin(env, Run(env, w, ls), Run(env, v, ls)) && AllSound(env, Run(env, w, ls).reqs)
    decreases |ls|
  {
    if ls != [] {
      assert Enabled(env, w, ls[0]) <==> Enabled(env, v, ls[0]);
      if Enabled(env, w, ls[0]) {
        NextAgrees(env, w, v, ls[0]);
        RunsAgree(env, Next(env, w, ls[0]), Next(env, v, ls[0]), ls[1..]);
      }
    }
  }

  /**
    The same runs are possible on both stores, and at every point of every run all requests wait at the same place or
    have the same reply, and the sealed store holds what the plain one holds.
   */
  lemma SealedRefinesPlain(env: Env, now: int, ls: seq<Label>)
    requires Lawful(env.crypto, env.used)
    ensures ValidRun(env, SealedStart(now), ls) <==> ValidRun(env, PlainStart(now), ls)
    ensures ValidRun(env, SealedStart(now), ls) ==>
      Twin(env, Run(env, SealedStart(now), ls), Run(env, PlainStart(now), ls))
  {
    RunsAgree(env, SealedStart(now), PlainStart(now), ls);
  }

  /** The random material of a request that runs alone. */
  ghost predicate ScriptFits(env: Env, script: Script) {
    && IsGeneratedID(script.insert.id) && ValidSealing(script.insert.sealing)
    && IsGeneratedID(script.put.id) && ValidSealing(script.put.sealing)
  }

  /** A request that runs alone gets the same reply from both stores. */
  lemma {:induction false} CompleteAgrees(env: Env, s: Store, t: Store, r: Request, pc: Pc, script: Script)
    requires Lawful(env.crypto, env.used) && SameStore(env, s, t) && Sound(env, r, pc) && ScriptFits(env, script)
    ensures Complete(env, s, r, pc, script).1 == Complete(env, t, r, pc, script).1
    ensures SameStore(env, Complete(env, s, r, pc, script).0, Complete(env, t, r, pc, script).0)
    decreases Rank(pc)
  {
    if !pc.Done? {
      var c := ChoiceAt(script, pc);
      StepAgrees(env, Empty(s), s, t, r, pc, c);
      var answer := Exec(env, s, CallOf(r, pc, c), c.fault).1;
      ResumeDescends(r, pc, c, answer, Now(s));
      SoundAfterResume(env, Empty(s), r, pc, c, answer, Now(s));
      var (s', pc') := Step(env, s, r, pc, c);
      var t' := Step(env, t, r, pc, c).0;
      StepThenComplete(env, s, r, pc, script, s', pc');
      StepThenComplete(env, t, r, pc, script, t', pc');
      CompleteAgrees(env, s', t', r, pc', script);
    }
  }

  lemma ServeAgrees(env: Env, s: Store, t: Store, r: Request, script: Script)
    requires Lawful(env.crypto, env.used) && SameStore(env, s, t) && ScriptFits(env, script) && PANKnown(env, r)
    ensures Serve(env, s, r, script).1 == Serve(env, t, r, script).1
    ensures SameStore(env, Serve(env, s, r, script).0, Serve(env, t, r, script).0)
  {
    CompleteAgrees(env, s, t, r, Start(r, Now(s)), script);
  }
}
