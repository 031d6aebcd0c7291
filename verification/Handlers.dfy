/**
  The tokenize handler, as an object over the repositories. Each method is proved to leave the store and to answer as the
  step program of `Requests` does when the request runs alone.
 */
module Handlers {
  import opened Options
  import opened Bytes
  import opened Card
  import opened Identifiers
  import opened Envelope
  import opened Stores
  import opened Requests
  import opened Storage
  import opened Lookups
  import J = Json
  import T = Tables

  function ViewOf(db: Postgres, redis: RedisServer): Store
    reads db, redis
  {
    Sealed(SealedStore(redis.now, db.Tables(), redis.keys))
  }

  class TokenizeHandler {
    const tokenRepo: TokenRepo
    const vaultRepo: VaultRepo
    const cvvStore: CVVStore
    const env: Env

    ghost predicate Valid() {
      vaultRepo.pool == tokenRepo.pool && Lawful(env.crypto, env.used)
    }

    constructor (tokenRepo: TokenRepo, vaultRepo: VaultRepo, cvvStore: CVVStore, env: Env)
      requires vaultRepo.pool == tokenRepo.pool && Lawful(env.crypto, env.used)
      ensures Valid() && this.tokenRepo == tokenRepo && this.cvvStore == cvvStore && this.env == env
    {
      this.tokenRepo, this.vaultRepo, this.cvvStore, this.env := tokenRepo, vaultRepo, cvvStore, env;
    }

    function View(): Store
      reads tokenRepo.pool, cvvStore.client
    {
      ViewOf(tokenRepo.pool, cvvStore.client)
    }

    /** The plaintext key is wiped before the method returns; what it sealed stays sealed under it. */
    method EncryptPAN(pan: string, arn: string, s: Sealing) returns (ciphertext: Bytes, wrapped: WrappedKey)
      requires Valid() && ValidSealing(s)
      ensures ciphertext == env.crypto.seal(s.dek, s.iv, Encode(pan)) && wrapped == env.crypto.wrap(arn, s.dek, s.salt)
      ensures wrapped.arn == arn && env.crypto.unwrap(wrapped) == Some(s.dek)
      ensures env.crypto.open(s.dek, s.iv, ciphertext) == Some(Encode(pan))
    {
      var dek := new byte[DEK_SIZE](i requires 0 <= i < DEK_SIZE => s.dek[i]);
      assert dek[..] == s.dek;
      wrapped := env.crypto.wrap(arn, dek[..], s.salt);
      ciphertext := env.crypto.seal(dek[..], s.iv, Encode(pan));
      ClearBytes(dek);
    }

    /** Builds DEK, IV and ciphertext in one buffer, stores it, and wipes the key it was built from. */
    method StoreCVVToken(tenant: string, id: string, cvv: string, s: Sealing, fault: Fault) returns (ok: bool)
      requires |s.dek| == DEK_SIZE
      modifies cvvStore.client`keys
      ensures (View(), if ok then Ack else if fault == NoKey then KeyFailed else Failed)
           == Exec(env, old(View()), PutCVV(tenant, id, cvv, s), fault)
    {
      if fault == NoKey {
        return false;
      }
      var dek := new byte[DEK_SIZE](i requires 0 <= i < DEK_SIZE => s.dek[i]);
      assert dek[..] == s.dek;
      var ciphertext := env.crypto.seal(dek[..], s.iv, Encode(cvv));
      var combined := dek[..] + s.iv + ciphertext;
      ok := cvvStore.StoreCVVToken(tenant, id, combined, env.ttl, fault);
      ClearBytes(dek);
    }

    /** The PAN part for a PAN not seen before: generate, encrypt, insert the token row, insert the vault row. */
    method InsertNewPAN(r: Request, arn: string, script: Script) returns (refusal: Option<Reply>)
      requires Valid() && HasPAN(r) && ValidSealing(script.insert.sealing)
      modifies tokenRepo.pool
      ensures Complete(env, old(View()), r, AtInsertToken(arn), script) == (match refusal
        case Some(reply) => (View(), reply)
        case None => Complete(env, View(), r, AfterPAN(r, true, script.insert.id, cvvStore.client.now), script))
    {
      ghost var s0 := View();
      var pan, id, sealing := r.body["pan"].text, script.insert.id, script.insert.sealing;
      if script.insert.fault == NoKey {
        return Some(UNAVAILABLE);
      }
      var sealed, wrapped := EncryptPAN(pan, arn, sealing);
      var ok := tokenRepo.Create(
        id, T.TokenRow(r.tenant, BlindIndex(env.crypto, r.tenant, pan), true, None), script.insert.fault);
      if !ok {
        assert Step(env, s0, r, AtInsertToken(arn), script.insert) == (View(), Done(INTERNAL, Now(s0)));
        return Some(INTERNAL);
      }
      ghost var s1 := View();
      ghost var pc1 := AtInsertPAN(arn, id, sealing);
      assert Step(env, s0, r, AtInsertToken(arn), script.insert) == (s1, pc1);
      StepThenComplete(env, s0, r, AtInsertToken(arn), script, s1, pc1);
      refusal := InsertVaultRow(r, arn, id, sealing, sealed, wrapped, script);
    }

    method InsertVaultRow(
      r: Request, arn: string, id: string, sealing: Sealing, sealed: Bytes, wrapped: WrappedKey, script: Script)
      returns (refusal: Option<Reply>)
      requires Valid() && HasPAN(r) && ValidSealing(sealing)
      requires sealed == env.crypto.seal(sealing.dek, sealing.iv, Encode(PANOf(r)))
      requires wrapped == env.crypto.wrap(arn, sealing.dek, sealing.salt)
      modifies tokenRepo.pool
      ensures Complete(env, old(View()), r, AtInsertPAN(arn, id, sealing), script) == (match refusal
        case Some(reply) => (View(), reply)
        case None => Complete(env, View(), r, AfterPAN(r, true, id, cvvStore.client.now), script))
    {
      ghost var s0 := View();
      ghost var pc := AtInsertPAN(arn, id, sealing);
      var authTag := sealed[|sealed| - TAG_SIZE..];
      var panCiphertext := sealed[..|sealed| - TAG_SIZE];
      var row := T.VaultRow(r.tenant, SealedPAN(panCiphertext, sealing.iv, authTag, wrapped), arn);
      assert row.sealed == SealPAN(env.crypto, PANOf(r), arn, sealing);
      var ok := vaultRepo.Create(id, row, if script.insertPAN.fault == NoKey then Lost else script.insertPAN.fault);
      if !ok {
        assert Step(env, s0, r, pc, script.insertPAN) == (View(), Done(INTERNAL, Now(s0)));
        return Some(INTERNAL);
      }
      ghost var pc' := AfterPAN(r, true, id, Now(s0));
      assert Step(env, s0, r, pc, script.insertPAN) == (View(), pc');
      StepThenComplete(env, s0, r, pc, script, View(), pc');
      return None;
    }

    method ProcessPAN(r: Request, arn: string, script: Script)
      returns (refusal: Option<Reply>, created: bool, token: string)
      requires Valid() && HasPAN(r) && ValidSealing(script.insert.sealing)
      modifies tokenRepo.pool
      ensures Complete(env, old(View()), r, AtFindPAN(arn), script) == (match refusal
        case Some(reply) => (View(), reply)
        case None => Complete(env, View(), r, AfterPAN(r, created, token, cvvStore.client.now), script))
    {
      ghost var s0 := View();
      refusal, created, token := None, false, "";
      var blindIndex := BlindIndex(env.crypto, r.tenant, r.body["pan"].text);
      var ok, existing := tokenRepo.FindByBlindIndex(r.tenant, blindIndex, script.find.fault);
      if !ok {
        assert Step(env, s0, r, AtFindPAN(arn), script.find) == (s0, Done(INTERNAL, Now(s0)));
        refusal := Some(INTERNAL);
        return;
      }
      match existing
      case Some(id) =>
        token := id;
        ghost var pc' := AfterPAN(r, false, id, Now(s0));
        assert Step(env, s0, r, AtFindPAN(arn), script.find) == (s0, pc');
        StepThenComplete(env, s0, r, AtFindPAN(arn), script, s0, pc');
      case None =>
        assert Step(env, s0, r, AtFindPAN(arn), script.find) == (s0, AtInsertToken(arn));
        StepThenComplete(env, s0, r, AtFindPAN(arn), script, s0, AtInsertToken(arn));
        token, created := script.insert.id, true;
        refusal := InsertNewPAN(r, arn, script);
    }

    /** From the stored CVV to the echoed reply: replace the owner of the PAN token, if there is one. */
    method ProcessCVV(r: Request, d: Draft, script: Script) returns (reply: Reply)
      requires Valid() && HasCVV(r) && |script.put.sealing.dek| == DEK_SIZE
      modifies cvvStore.client`keys
      ensures Complete(env, old(View()), r, AtPutCVV(d), script) == (View(), reply)
    {
      ghost var s0 := View();
      var id := script.put.id;
      var ok := StoreCVVToken(r.tenant, id, r.body["cvv"].text, script.put.sealing, script.put.fault);
      ghost var s1 := View();
      if !ok {
        assert Step(env, s0, r, AtPutCVV(d), script.put) == (s1, Done(INTERNAL, Now(s0)));
        return INTERNAL;
      }
      if d.panToken != "" {
        assert Step(env, s0, r, AtPutCVV(d), script.put) == (s1, AtGetOwner(d, id));
        StepThenComplete(env, s0, r, AtPutCVV(d), script, s1, AtGetOwner(d, id));
        var _ := cvvStore.InvalidatePreviousCVVToken(
          r.tenant, d.panToken, id, env.ttl, script.getOwner.fault, script.drop.fault, script.setOwner.fault);
        OwnerProgram(env, s1.sealed, r, d, id, script);
      } else {
        assert Step(env, s0, r, AtPutCVV(d), script.put) == (s1, Echo(d, id, Now(s0)));
        StepThenComplete(env, s0, r, AtPutCVV(d), script, s1, Echo(d, id, Now(s0)));
      }
      return Tokenized(d.created, d.body["cvv" := J.Str(id)]);
    }

    method ServeHTTP(r: Request, arn: string, script: Script) returns (reply: Reply)
      requires Valid() && r.Tokenize?
      requires ValidSealing(script.insert.sealing) && |script.put.sealing.dek| == DEK_SIZE
      modifies tokenRepo.pool, cvvStore.client`keys
      ensures Complete(env, old(View()), r, AfterGate(r, arn, cvvStore.client.now), script) == (View(), reply)
    {
      var body := r.body;
      var hasPAN, hasCVV := "pan" in body, "cvv" in body;
      if !hasPAN && !hasCVV {
        return Refused(400, "NO_SENSITIVE_FIELDS");
      }
      var newPANToken, panTokenID := false, "";
      if hasPAN {
        if !body["pan"].Str? {
          return Refused(400, "INVALID_PAN");
        }
        var valid := ValidatePAN(body["pan"].text);
        if !valid {
          return Refused(400, "INVALID_PAN");
        }
        var refusal;
        refusal, newPANToken, panTokenID := ProcessPAN(r, arn, script);
        if refusal.Some? {
          return refusal.value;
        }
        body := body["pan" := J.Str(panTokenID)];
      }
      ghost var d := Draft(newPANToken, panTokenID, body);
      assert Complete(env, old(View()), r, AfterGate(r, arn, cvvStore.client.now), script)
          == Complete(env, View(), r, CheckCVV(r, d, cvvStore.client.now), script);
      if hasCVV {
        if !body["cvv"].Str? {
          return Refused(400, "INVALID_CVV");
        }
        var valid := ValidateCVV(body["cvv"].text);
        if !valid {
          return Refused(400, "INVALID_CVV");
        }
        reply := ProcessCVV(r, Draft(newPANToken, panTokenID, body), script);
        return;
      }
      return Tokenized(newPANToken, body);
    }
  }

  /** The three owner steps of the program do what `OwnerReplaced` says. */
  lemma OwnerProgram(env: Env, c: SealedStore, r: Request, d: Draft, id: string, script: Script)
    requires r.Tokenize?
    ensures Complete(env, Sealed(c), r, AtGetOwner(d, id), script)
         == (Sealed(c.(keys := OwnerReplaced(c.keys, c.now, r.tenant, d.panToken, id, env.ttl,
                                             script.getOwner.fault, script.drop.fault, script.setOwner.fault))),
             Tokenized(d.created, d.body["cvv" := J.Str(id)]))
  {
    var previous := OwnerRead(c.keys, c.now, r.tenant, d.panToken, script.getOwner.fault);
    GetOwnerProgram(env, c, r, d, id, script.getOwner);
    if previous != "" {
      StepThenComplete(env, Sealed(c), r, AtGetOwner(d, id), script, Sealed(c), AtDropPrevious(d, id, previous));
      DropProgram(env, c, r, d, id, previous, script.drop);
      StepThenComplete(env, Sealed(c), r, AtDropPrevious(d, id, previous), script,
                       Sealed(c.(keys := Dropped(c.keys, r.tenant, previous, script.drop.fault))), AtSetOwner(d, id));
    } else {
      StepThenComplete(env, Sealed(c), r, AtGetOwner(d, id), script, Sealed(c), AtSetOwner(d, id));
    }
    SetOwnerProgram(env, c.(keys := Dropped(c.keys, r.tenant, previous, script.drop.fault)), r, d, id, script);
  }

  lemma GetOwnerProgram(env: Env, c: SealedStore, r: Request, d: Draft, id: string, choice: Choice)
    ensures var previous := OwnerRead(c.keys, c.now, r.tenant, d.panToken, choice.fault);
      Step(env, Sealed(c), r, AtGetOwner(d, id), choice)
        == (Sealed(c), if previous != "" then AtDropPrevious(d, id, previous) else AtSetOwner(d, id))
  {
  }

  lemma DropProgram(env: Env, c: SealedStore, r: Request, d: Draft, id: string, previous: string, choice: Choice)
    requires previous != ""
    ensures Step(env, Sealed(c), r, AtDropPrevious(d, id, previous), choice)
         == (Sealed(c.(keys := Dropped(c.keys, r.tenant, previous, choice.fault))), AtSetOwner(d, id))
  {
  }

  lemma SetOwnerProgram(env: Env, c: SealedStore, r: Request, d: Draft, id: string, script: Script)
    requires r.Tokenize?
    ensures Complete(env, Sealed(c), r, AtSetOwner(d, id), script)
         == (Sealed(c.(keys := if Sent(script.setOwner.fault)
               then T.RedisSet(c.keys, c.now, CvvOwnerKey(r.tenant, d.panToken), Encode(id), env.ttl) else c.keys)),
             Tokenized(d.created, d.body["cvv" := J.Str(id)]))
  {
  }
}
