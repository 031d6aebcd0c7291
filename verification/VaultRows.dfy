/**
  The token row and the vault row of a new card are inserted by two statements: when the vault row is there, and what a
  token row without one means.
 */
module VaultRows {
  import opened Options
  import opened Identifiers
  import opened Stores
  import opened Refinement
  import opened Requests
  import opened Machine
  import opened Lockstep
  import opened Invariants
  import opened Guarantees

  /** The request that generated `token` still has to insert its vault row. */
  ghost predicate Waiting(w: World, token: string) {
    && token in w.issued && w.issued[token].rid in w.reqs
    && var pc := w.reqs[w.issued[token].rid].pc; pc.AtInsertPAN? && pc.token == token
  }

  /** The request that generated `token` ended with status 500. */
  ghost predicate GaveUp(w: World, token: string) {
    && token in w.issued && w.issued[token].rid in w.reqs
    && var pc := w.reqs[w.issued[token].rid].pc; pc.Done? && pc.reply == INTERNAL
  }

  ghost predicate RowExplained(v: World, token: string)
    requires v.store.Plain?
  {
    if token in v.store.plain.vault then !Waiting(v, token)
    else token in v.store.plain.tokens ==> Waiting(v, token) || GaveUp(v, token)
  }

  ghost predicate RowsExplained(v: World) {
    v.store.Plain? && forall token :: RowExplained(v, token)
  }

  /** What a step of a request does to the row of the token it generated or is to store the PAN of. */
  lemma OwnRowStep(env: Env, p: PlainStore, r: Request, pc: Pc, c: Choice)
    requires !pc.Done?
    ensures var (s', pc') := Step(env, Plain(p), r, pc, c);
      && s'.Plain?
      && (pc.AtInsertToken? && c.id in s'.plain.tokens && c.id !in p.tokens ==>
            (pc'.AtInsertPAN? && pc'.token == c.id) || (pc'.Done? && pc'.reply == INTERNAL))
      && (pc.AtInsertPAN? ==> !pc'.AtInsertPAN? && (pc.token in s'.plain.vault || (pc'.Done? && pc'.reply == INTERNAL)))
      && (pc'.AtInsertPAN? ==> pc.AtInsertToken? && pc'.token == c.id)
  {
  }

  lemma ExplainedAfterOwn(env: Env, v: World, rid: nat, c: Choice, token: string)
    requires Inv(env, v) && RowExplained(v, token) && InProgress(v, rid) && ChoiceFits(env, v, v.reqs[rid].pc, c)
    requires Grows(v, AdvanceOne(env, v, rid, c))
    requires if token in v.issued then v.issued[token].rid == rid else v.reqs[rid].pc.AtInsertToken? && token == c.id
    ensures RowExplained(AdvanceOne(env, v, rid, c), token)
  {
    var Progress(r, pc) := v.reqs[rid];
    assert RequestOK(env, v, rid, r, pc);
    var call := CallOf(r, pc, c);
    OwnRowStep(env, v.store.plain, r, pc, c);
    CallFootprint(env, v.store.plain, call, c.fault);
    var p' := Exec(env, v.store, call, c.fault).0.plain;
    if token in p'.tokens {
      NewTokensOf(env, v.store.plain, call, c.fault, token);
    }
    if token in p'.vault {
      NewVaultRowsOf(env, v.store.plain, call, c.fault, token);
    }
    if token in v.store.plain.tokens {
      assert BornPAN(v, token, v.store.plain.tokens[token].tenant, v.store.plain.tokens[token].pan);
    }
  }

  lemma ExplainedAfterOther(env: Env, v: World, rid: nat, c: Choice, token: string)
    requires Inv(env, v) && RowExplained(v, token) && InProgress(v, rid) && ChoiceFits(env, v, v.reqs[rid].pc, c)
    requires Grows(v, AdvanceOne(env, v, rid, c))
    requires if token in v.issued then v.issued[token].rid != rid else !(v.reqs[rid].pc.AtInsertToken? && token == c.id)
    ensures RowExplained(AdvanceOne(env, v, rid, c), token)
  {
    var Progress(r, pc) := v.reqs[rid];
    assert RequestOK(env, v, rid, r, pc);
    var call := CallOf(r, pc, c);
    CallFootprint(env, v.store.plain, call, c.fault);
    var p' := Exec(env, v.store, call, c.fault).0.plain;
    if token in p'.tokens {
      NewTokensOf(env, v.store.plain, call, c.fault, token);
    }
    if token in p'.vault {
      NewVaultRowsOf(env, v.store.plain, call, c.fault, token);
    }
  }

  lemma ExplainedAfterAdvance(env: Env, v: World, rid: nat, c: Choice, token: string)
    requires Inv(env, v) && RowExplained(v, token) && Enabled(env, v, Advance(rid, c))
    requires Grows(v, AdvanceOne(env, v, rid, c))
    ensures RowExplained(AdvanceOne(env, v, rid, c), token)
  {
    var own := if token in v.issued then v.issued[token].rid == rid else v.reqs[rid].pc.AtInsertToken? && token == c.id;
    if own {
      ExplainedAfterOwn(env, v, rid, c, token);
    } else {
      ExplainedAfterOther(env, v, rid, c, token);
    }
  }

  lemma SameExplanation(v: World, v': World, token: string)
    requires v.store.Plain? && v'.store.Plain? && RowExplained(v, token)
    requires v'.store.plain.tokens == v.store.plain.tokens && v'.store.plain.vault == v.store.plain.vault
    requires v'.issued == v.issued
    requires token in v.issued ==>
      v.issued[token].rid in v.reqs && v.issued[token].rid in v'.reqs && v'.reqs[v.issued[token].rid] == v.reqs[v.issued[token].rid]
    ensures RowExplained(v', token)
  {
  }

  lemma ExplainedAfterBegin(env: Env, v: World, l: Label, token: string)
    requires Inv(env, v) && RowExplained(v, token) && Enabled(env, v, l) && !l.Advance?
    ensures Next(env, v, l).store.Plain? && RowExplained(Next(env, v, l), token)
  {
    SameExplanation(v, Next(env, v, l), token);
  }

  lemma ExplainedAfterNext(env: Env, v: World, l: Label)
    requires Inv(env, v) && RowsExplained(v) && Enabled(env, v, l)
    ensures RowsExplained(Next(env, v, l))
  {
    NextGrows(env, v, l);
    forall token
      ensures RowExplained(Next(env, v, l), token)
    {
      assert RowExplained(v, token);
      if l.Advance? {
        ExplainedAfterAdvance(env, v, l.rid, l.choice, token);
      } else {
        ExplainedAfterBegin(env, v, l, token);
      }
    }
  }

  lemma {:induction false} ExplainedAfterRun(env: Env, v: World, ls: seq<Label>)
    requires Inv(env, v) && RowsExplained(v) && ValidRun(env, v, ls)
    ensures RowsExplained(Run(env, v, ls))
    decreases |ls|
  {
    if ls != [] {
      ExplainedAfterNext(env, v, ls[0]);
      InvAfterNext(env, v, ls[0]);
      ExplainedAfterRun(env, Next(env, v, ls[0]), ls[1..]);
    }
  }

  lemma ExplainedInTwin(env: Env, now: int, ls: seq<Label>)
    requires Reached(env, now, ls)
    ensures RowsExplained(TwinAt(env, now, ls))
  {
    SealedRefinesPlain(env, now, ls);
    StartOK(env, now);
    ExplainedAfterRun(env, PlainStart(now), ls);
  }

  lemma SameRows(env: Env, w: World, v: World, token: string)
    requires Twin(env, w, v)
    ensures token in w.store.sealed.tables.tokens <==> token in v.store.plain.tokens
    ensures token in w.store.sealed.tables.vault <==> token in v.store.plain.vault
    ensures w.reqs == v.reqs && w.issued == v.issued
  {
  }

  /** A vault row that is missing has a reason. */
  ghost predicate RowOrReason(w: World, token: string)
    requires w.store.Sealed?
  {
    && (Waiting(w, token) ==> token !in w.store.sealed.tables.vault)
    && (token !in w.store.sealed.tables.vault ==> Waiting(w, token) || GaveUp(w, token))
  }

  lemma ReasonFromTwin(env: Env, w: World, v: World, token: string)
    requires Twin(env, w, v) && RowExplained(v, token) && token in w.store.sealed.tables.tokens
    ensures RowOrReason(w, token)
  {
    SameRows(env, w, v, token);
  }

  /**
    At every point of every run, for every token row: while the request that generated it waits to insert the vault row,
    the vault row is not there; and if the vault row is not there, that request still waits or has ended with status 500.
   */
  lemma VaultRowOrReason(env: Env, now: int, ls: seq<Label>, token: string)
    requires Reached(env, now, ls) && token in WorldAt(env, now, ls).store.sealed.tables.tokens
    ensures RowOrReason(WorldAt(env, now, ls), token)
  {
    TwinHolds(env, now, ls);
    ExplainedInTwin(env, now, ls);
    assert RowExplained(TwinAt(env, now, ls), token);
    ReasonFromTwin(env, WorldAt(env, now, ls), TwinAt(env, now, ls), token);
  }

  // Tokens whose PAN was never stored

  /** `token` has no vault row and no request is about to insert one. */
  ghost predicate Orphan(w: World, hasRow: bool, token: string) {
    token in w.issued && !hasRow
    && forall rid :: rid in w.reqs && w.reqs[rid].pc.AtInsertPAN? ==> w.reqs[rid].pc.token != token
  }

  lemma InsertsOwnPAN(r: Request, pc: Pc, c: Choice, answer: Answer, now: int)
    requires !pc.Done? && Resume(r, pc, c, answer, now).AtInsertPAN?
    ensures pc.AtInsertToken? && Resume(r, pc, c, answer, now).token == c.id
  {
  }

  lemma OrphanStays(env: Env, v: World, l: Label, token: string)
    requires v.store.Plain? && Enabled(env, v, l) && Orphan(v, token in v.store.plain.vault, token)
    ensures Next(env, v, l).store.Plain?
    ensures Orphan(Next(env, v, l), token in Next(env, v, l).store.plain.vault, token)
  {
    NextGrows(env, v, l);
    if l.Advance? {
      var Progress(r, pc) := v.reqs[l.rid];
      var call := CallOf(r, pc, l.choice);
      var p' := Exec(env, v.store, call, l.choice.fault).0.plain;
      if token in p'.vault {
        NewVaultRowsOf(env, v.store.plain, call, l.choice.fault, token);
      }
      var pc' := Step(env, v.store, r, pc, l.choice).1;
      if pc'.AtInsertPAN? {
        InsertsOwnPAN(r, pc, l.choice, Exec(env, v.store, call, l.choice.fault).1, Now(v.store));
      }
    }
  }

  lemma {:induction false} OrphanStaysInRun(env: Env, v: World, ls: seq<Label>, token: string)
    requires v.store.Plain? && ValidRun(env, v, ls) && Orphan(v, token in v.store.plain.vault, token)
    ensures Run(env, v, ls).store.Plain? && token !in Run(env, v, ls).store.plain.vault
    decreases |ls|
  {
    if ls != [] {
      OrphanStays(env, v, ls[0], token);
      OrphanStaysInRun(env, Next(env, v, ls[0]), ls[1..], token);
    }
  }

  /**
    The token row and the vault row are inserted one after the other. A token that has no vault row when its request is
    gone never gets one: no later tokenize request for the card repairs it.
   */
  lemma OrphanNeverHeals(env: Env, now: int, ls: seq<Label>, more: seq<Label>, token: string)
    requires Reached(env, now, ls + more)
    requires Orphan(WorldAt(env, now, ls), token in WorldAt(env, now, ls).store.sealed.tables.vault, token)
    ensures token !in WorldAt(env, now, ls + more).store.sealed.tables.vault
  {
    TwinGoesOn(env, now, ls, more);
    TwinHolds(env, now, ls);
    OrphanStaysInRun(env, TwinAt(env, now, ls), more, token);
  }
}
