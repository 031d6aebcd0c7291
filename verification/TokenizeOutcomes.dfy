/** A tokenize request served alone, on any store and with any of its calls failing: the reply and the store it leaves. */
module TokenizeOutcomes {
  import opened Options
  import opened Bytes
  import opened Card
  import opened Identifiers
  import opened Envelope
  import opened Stores
  import opened Requests
  import opened Lookups
  import opened Outcomes
  import J = Json
  import T = Tables

  // The CVV

  /** The time a key set now expires; a lifetime that is not positive is none. */
  function Until(env: Env, c: SealedStore): Option<int> {
    if env.ttl > 0 then Some(c.now + env.ttl) else None
  }

  /** `c` with the CVV stored under a new id. */
  function CVVKept(env: Env, c: SealedStore, t: string, id: string, cvv: string, sealing: Sealing): SealedStore {
    var record := sealing.dek + sealing.iv + env.crypto.seal(sealing.dek, sealing.iv, Encode(cvv));
    c.(keys := c.keys["cvvtok:" + t + ":" + id := T.Entry(record, Until(env, c))])
  }

  /** The CVV token the owner key of a PAN token names, "" if it is dead or cannot be read. */
  function Previous(c: SealedStore, t: string, panToken: string, get: Fault): string {
    var key := "cvvtok_owner:" + t + ":" + panToken;
    if get == Fine && LiveKey(c, key) then Decode(c.keys[key].value) else ""
  }

  /** `c` without the key of the previous CVV token, if there was one and the command was sent. */
  function PreviousDropped(c: SealedStore, t: string, previous: string, drop: Fault): SealedStore {
    if previous != "" && (drop == Fine || drop == LostReply)
    then c.(keys := c.keys - {"cvvtok:" + t + ":" + previous}) else c
  }

  /** `c` with the new CVV token as the owner, if the command was sent. */
  function OwnerKept(env: Env, c: SealedStore, t: string, panToken: string, id: string, set_: Fault): SealedStore {
    if set_ == Fine || set_ == LostReply
    then c.(keys := c.keys["cvvtok_owner:" + t + ":" + panToken := T.Entry(Encode(id), Until(env, c))]) else c
  }

  function OwnerMoved(env: Env, c: SealedStore, t: string, panToken: string, id: string, script: Script): SealedStore {
    var previous := Previous(c, t, panToken, script.getOwner.fault);
    OwnerKept(env, PreviousDropped(c, t, previous, script.drop.fault), t, panToken, id, script.setOwner.fault)
  }

  /** What follows once the PAN, if any, has its token: `body` is the body to echo, with the PAN replaced. */
  function CVVPart(env: Env, c: SealedStore, r: Request, created: bool, panToken: string, body: Body, script: Script)
    : (SealedStore, Reply)
    requires r.Tokenize?
  {
    if "cvv" !in r.body then (c, Tokenized(created, body))
    else if !r.body["cvv"].Str? || !ValidCVV(r.body["cvv"].text) then (c, Refused(400, "INVALID_CVV"))
    else
      var id, fault := script.put.id, script.put.fault;
      var kept := CVVKept(env, c, r.tenant, id, r.body["cvv"].text, script.put.sealing);
      if fault != Fine then (if fault == LostReply then kept else c, Refused(500, "INTERNAL_ERROR"))
      else
        (if panToken != "" then OwnerMoved(env, kept, r.tenant, panToken, id, script) else kept,
         Tokenized(created, body["cvv" := J.Str(id)]))
  }

  lemma PutStep(env: Env, c: SealedStore, r: Request, d: Draft, choice: Choice)
    requires HasCVV(r)
    ensures var kept, fault := CVVKept(env, c, r.tenant, choice.id, CVVOf(r), choice.sealing), choice.fault;
      Step(env, Sealed(c), r, AtPutCVV(d), choice)
        == (Sealed(if fault == Fine || fault == LostReply then kept else c),
            if fault != Fine then Done(Refused(500, "INTERNAL_ERROR"), c.now)
            else if d.panToken != "" then AtGetOwner(d, choice.id)
            else Done(Tokenized(d.created, d.body["cvv" := J.Str(choice.id)]), c.now))
  {
  }

  lemma OwnerStep(env: Env, c: SealedStore, r: Request, d: Draft, id: string, choice: Choice)
    ensures var previous := Previous(c, r.tenant, d.panToken, choice.fault);
      Step(env, Sealed(c), r, AtGetOwner(d, id), choice)
        == (Sealed(c), if previous != "" then AtDropPrevious(d, id, previous) else AtSetOwner(d, id))
  {
  }

  lemma DropStep(env: Env, c: SealedStore, r: Request, d: Draft, id: string, previous: string, choice: Choice)
    requires previous != ""
    ensures Step(env, Sealed(c), r, AtDropPrevious(d, id, previous), choice)
         == (Sealed(PreviousDropped(c, r.tenant, previous, choice.fault)), AtSetOwner(d, id))
  {
  }

  lemma SetStep(env: Env, c: SealedStore, r: Request, d: Draft, id: string, choice: Choice)
    ensures Step(env, Sealed(c), r, AtSetOwner(d, id), choice)
         == (Sealed(OwnerKept(env, c, r.tenant, d.panToken, id, choice.fault)),
             Done(Tokenized(d.created, d.body["cvv" := J.Str(id)]), c.now))
  {
  }

  lemma OwnerOutcome(env: Env, c: SealedStore, r: Request, d: Draft, id: string, script: Script)
    ensures Complete(env, Sealed(c), r, AtGetOwner(d, id), script)
         == (Sealed(OwnerMoved(env, c, r.tenant, d.panToken, id, script)), Tokenized(d.created, d.body["cvv" := J.Str(id)]))
  {
    var previous := Previous(c, r.tenant, d.panToken, script.getOwner.fault);
    var c' := PreviousDropped(c, r.tenant, previous, script.drop.fault);
    OwnerStep(env, c, r, d, id, script.getOwner);
    if previous != "" {
      StepThenComplete(env, Sealed(c), r, AtGetOwner(d, id), script, Sealed(c), AtDropPrevious(d, id, previous));
      DropStep(env, c, r, d, id, previous, script.drop);
      StepThenComplete(env, Sealed(c), r, AtDropPrevious(d, id, previous), script, Sealed(c'), AtSetOwner(d, id));
    } else {
      StepThenComplete(env, Sealed(c), r, AtGetOwner(d, id), script, Sealed(c), AtSetOwner(d, id));
    }
    SetStep(env, c', r, d, id, script.setOwner);
    var (s', pc') := Step(env, Sealed(c'), r, AtSetOwner(d, id), script.setOwner);
    StepThenComplete(env, Sealed(c'), r, AtSetOwner(d, id), script, s', pc');
  }

  /**
    Once the PAN has its token: without a CVV the body is echoed; a bad CVV is refused; a good one is stored under a new id
    that replaces it in the echo, and if there is a PAN token the CVV token it had before is deleted and the new one
    noted, each if its command is sent, whether they fail or not.
   */
  lemma CVVOutcome(env: Env, c: SealedStore, r: Request, d: Draft, script: Script)
    requires r.Tokenize?
    ensures var (c', reply) := CVVPart(env, c, r, d.created, d.panToken, d.body, script);
      Complete(env, Sealed(c), r, CheckCVV(r, d, c.now), script) == (Sealed(c'), reply)
  {
    if HasCVV(r) {
      var s, id := Sealed(c), script.put.id;
      PutStep(env, c, r, d, script.put);
      var (s', pc') := Step(env, s, r, AtPutCVV(d), script.put);
      StepThenComplete(env, s, r, AtPutCVV(d), script, s', pc');
      if pc'.AtGetOwner? {
        OwnerOutcome(env, s'.sealed, r, d, id, script);
      }
    }
  }

  // The PAN

  /** What is refused before anything is written. */
  lemma TokenizeRefuses(env: Env, c: SealedStore, r: Request, script: Script)
    requires r.Tokenize? && Open(c, r.tenant, script)
    ensures var served := Serve(env, Sealed(c), r, script);
      && ("pan" !in r.body && "cvv" !in r.body ==> served == (Sealed(c), Refused(400, "NO_SENSITIVE_FIELDS")))
      && ("pan" in r.body && (!r.body["pan"].Str? || !ValidPAN(r.body["pan"].text)) ==>
            served == (Sealed(c), Refused(400, "INVALID_PAN")))
      && ("pan" !in r.body && "cvv" in r.body && (!r.body["cvv"].Str? || !ValidCVV(r.body["cvv"].text)) ==>
            served == (Sealed(c), Refused(400, "INVALID_CVV")))
      && ("pan" in r.body && r.body["pan"].Str? && ValidPAN(r.body["pan"].text) && script.find.fault != Fine ==>
            served == (Sealed(c), Refused(500, "INTERNAL_ERROR")))
  {
    PastGate(env, c, r, script);
    if HasPAN(r) && script.find.fault != Fine {
      var arn, pc' := c.tables.tenants[r.tenant].keyARN, Done(Refused(500, "INTERNAL_ERROR"), c.now);
      assert Step(env, Sealed(c), r, AtFindPAN(arn), script.find) == (Sealed(c), pc');
      StepThenComplete(env, Sealed(c), r, AtFindPAN(arn), script, Sealed(c), pc');
    }
  }

  /** A request without a PAN. */
  lemma TokenizeCVVOutcome(env: Env, c: SealedStore, r: Request, script: Script)
    requires r.Tokenize? && "pan" !in r.body && "cvv" in r.body && Open(c, r.tenant, script)
    ensures var (c', reply) := CVVPart(env, c, r, false, "", r.body, script);
      Serve(env, Sealed(c), r, script) == (Sealed(c'), reply)
  {
    PastGate(env, c, r, script);
    CVVOutcome(env, c, r, Draft(false, "", r.body), script);
  }

  /** Where the unique index has the card. */
  function CardKey(env: Env, r: Request): (string, string)
    requires r.Tokenize? && "pan" in r.body && r.body["pan"].Str?
  {
    (r.tenant, env.crypto.hmac(r.tenant + ":" + r.body["pan"].text))
  }

  lemma FindStep(env: Env, c: SealedStore, r: Request, arn: string, choice: Choice)
    requires HasPAN(r) && choice.fault == Fine
    ensures Step(env, Sealed(c), r, AtFindPAN(arn), choice) == (Sealed(c),
      if CardKey(env, r) in c.tables.byBlind then AfterPAN(r, false, c.tables.byBlind[CardKey(env, r)], c.now)
      else AtInsertToken(arn))
  {
  }

  lemma ToFindStep(env: Env, c: SealedStore, r: Request, script: Script)
    requires HasPAN(r) && Open(c, r.tenant, script) && script.find.fault == Fine
    ensures var arn := c.tables.tenants[r.tenant].keyARN;
      Serve(env, Sealed(c), r, script) == Complete(env, Sealed(c), r,
        if CardKey(env, r) in c.tables.byBlind then AfterPAN(r, false, c.tables.byBlind[CardKey(env, r)], c.now)
        else AtInsertToken(arn), script)
  {
    var arn := c.tables.tenants[r.tenant].keyARN;
    PastGate(env, c, r, script);
    FindStep(env, c, r, arn, script.find);
    StepThenComplete(env, Sealed(c), r, AtFindPAN(arn), script, Sealed(c), Step(env, Sealed(c), r, AtFindPAN(arn), script.find).1);
  }

  /** A card that has a token keeps it, writes no row, and is not answered as created. */
  lemma TokenizeKnownOutcome(env: Env, c: SealedStore, r: Request, script: Script)
    requires HasPAN(r) && Open(c, r.tenant, script) && script.find.fault == Fine && CardKey(env, r) in c.tables.byBlind
    ensures var token := c.tables.byBlind[CardKey(env, r)];
      var (c', reply) := CVVPart(env, c, r, false, token, r.body["pan" := J.Str(token)], script);
      && Serve(env, Sealed(c), r, script) == (Sealed(c'), reply)
      && c'.tables == c.tables
  {
    var token := c.tables.byBlind[CardKey(env, r)];
    ToFindStep(env, c, r, script);
    CVVOutcome(env, c, r, Draft(false, token, r.body["pan" := J.Str(token)]), script);
  }

  /** `c` with the token row of a new card, and its entry in the unique index. */
  function TokenKept(env: Env, c: SealedStore, r: Request, id: string): SealedStore
    requires r.Tokenize? && "pan" in r.body && r.body["pan"].Str?
  {
    c.(tables := c.tables.(
         tokens := c.tables.tokens[id := T.TokenRow(r.tenant, CardKey(env, r).1, true, None)],
         byBlind := c.tables.byBlind[CardKey(env, r) := id]))
  }

  /** `c` with the vault row of a token: the PAN sealed under a new data key, which is wrapped under the tenant's key. */
  function PANKept(c: SealedStore, t: string, id: string, sealed: SealedPAN, arn: string): SealedStore {
    c.(tables := c.tables.(vault := c.tables.vault[id := T.VaultRow(t, sealed, arn)]))
  }

  /**
    The insert of a token row fails for an unknown tenant, a taken id, and a card that has got its token since the lookup:
    a request that lost that race ends with status 500 and writes nothing.
   */
  lemma InsertStep(env: Env, c: SealedStore, r: Request, arn: string, choice: Choice)
    requires HasPAN(r)
    ensures var fault, tb := choice.fault, c.tables;
      var taken := r.tenant !in tb.tenants || choice.id in tb.tokens || CardKey(env, r) in tb.byBlind;
      Step(env, Sealed(c), r, AtInsertToken(arn), choice)
        == (Sealed(if (fault == Fine || fault == LostReply) && !taken then TokenKept(env, c, r, choice.id) else c),
            if fault == NoKey then Done(Refused(503, "SERVICE_UNAVAILABLE"), c.now)
            else if fault == Fine && !taken then AtInsertPAN(arn, choice.id, choice.sealing)
            else Done(Refused(500, "INTERNAL_ERROR"), c.now))
  {
  }

  /** A new card whose token row cannot be made. */
  lemma TokenizeNewRefuses(env: Env, c: SealedStore, r: Request, script: Script)
    requires HasPAN(r) && Open(c, r.tenant, script) && script.find.fault == Fine && CardKey(env, r) !in c.tables.byBlind
    requires script.insert.fault != Fine || script.insert.id in c.tables.tokens
    ensures var served, fault := Serve(env, Sealed(c), r, script), script.insert.fault;
      && served.1 == (if fault == NoKey then Refused(503, "SERVICE_UNAVAILABLE") else Refused(500, "INTERNAL_ERROR"))
      && served.0 == Sealed(if fault == LostReply && script.insert.id !in c.tables.tokens
                            then TokenKept(env, c, r, script.insert.id) else c)
  {
    var s, arn := Sealed(c), c.tables.tenants[r.tenant].keyARN;
    ToFindStep(env, c, r, script);
    InsertStep(env, c, r, arn, script.insert);
    var (s', pc') := Step(env, s, r, AtInsertToken(arn), script.insert);
    StepThenComplete(env, s, r, AtInsertToken(arn), script, s', pc');
  }

  /** The insert of a vault row fails without the token row, and for a token that has one. */
  lemma InsertPANStep(env: Env, c: SealedStore, r: Request, arn: string, id: string, sealing: Sealing, choice: Choice)
    requires HasPAN(r)
    ensures var fault := choice.fault; var taken := id !in c.tables.tokens || id in c.tables.vault;
      Step(env, Sealed(c), r, AtInsertPAN(arn, id, sealing), choice)
        == (Sealed(if (fault == Fine || fault == LostReply) && !taken
                   then PANKept(c, r.tenant, id, SealPAN(env.crypto, PANOf(r), arn, sealing), arn) else c),
            if fault == Fine && !taken then AfterPAN(r, true, id, c.now) else Done(Refused(500, "INTERNAL_ERROR"), c.now))
  {
  }

  /**
    A new card whose token row was made: the vault row follows if its insert is sent, under the tenant's key; if that fails
    the request ends with status 500 and the token row stays; otherwise the card is answered as created.
   */
  lemma TokenizeNewOutcome(env: Env, c: SealedStore, r: Request, script: Script)
    requires HasPAN(r) && Open(c, r.tenant, script) && script.find.fault == Fine && CardKey(env, r) !in c.tables.byBlind
    requires script.insert.fault == Fine && script.insert.id !in c.tables.tokens
    ensures var served, id, fault := Serve(env, Sealed(c), r, script), script.insert.id, script.insertPAN.fault;
      var arn, c1 := c.tables.tenants[r.tenant].keyARN, TokenKept(env, c, r, id);
      var c2 := PANKept(c1, r.tenant, id, SealPAN(env.crypto, PANOf(r), arn, script.insert.sealing), arn);
      if fault == Lost || fault == NoKey || id in c.tables.vault then served == (Sealed(c1), Refused(500, "INTERNAL_ERROR"))
      else if fault == LostReply then served == (Sealed(c2), Refused(500, "INTERNAL_ERROR"))
      else var (c', reply) := CVVPart(env, c2, r, true, id, r.body["pan" := J.Str(id)], script); served == (Sealed(c'), reply)
  {
    var s, arn, id, c1 := Sealed(c), c.tables.tenants[r.tenant].keyARN, script.insert.id, TokenKept(env, c, r, script.insert.id);
    var pc := AtInsertPAN(arn, id, script.insert.sealing);
    ToFindStep(env, c, r, script);
    InsertStep(env, c, r, arn, script.insert);
    StepThenComplete(env, s, r, AtInsertToken(arn), script, Sealed(c1), pc);
    InsertPANStep(env, c1, r, arn, id, script.insert.sealing, script.insertPAN);
    var (s', pc') := Step(env, Sealed(c1), r, pc, script.insertPAN);
    StepThenComplete(env, Sealed(c1), r, pc, script, s', pc');
    if !pc'.Done? || script.insertPAN.fault == Fine {
      CVVOutcome(env, s'.sealed, r, Draft(true, id, r.body["pan" := J.Str(id)]), script);
    }
  }

  /** When nothing fails and the ids drawn are new, a request of an active tenant gets tokens exactly when its fields are valid. */
  lemma TokensExactlyForValidFields(env: Env, c: SealedStore, r: Request, script: Script)
    requires r.Tokenize? && Open(c, r.tenant, script) && AllFine(script)
    requires script.insert.id !in c.tables.tokens && script.insert.id !in c.tables.vault
    ensures Serve(env, Sealed(c), r, script).1.Tokenized?
       <==> && ("pan" in r.body || "cvv" in r.body)
            && ("pan" in r.body ==> r.body["pan"].Str? && ValidPAN(r.body["pan"].text))
            && ("cvv" in r.body ==> r.body["cvv"].Str? && ValidCVV(r.body["cvv"].text))
  {
    TokenizeRefuses(env, c, r, script);
    if HasPAN(r) && CardKey(env, r) in c.tables.byBlind {
      TokenizeKnownOutcome(env, c, r, script);
    } else if HasPAN(r) {
      TokenizeNewOutcome(env, c, r, script);
    } else if "pan" !in r.body && "cvv" in r.body {
      TokenizeCVVOutcome(env, c, r, script);
    }
  }
}
