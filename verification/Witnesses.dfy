/**
  One concrete service: a tenant is created and one card tokenized. The states it reaches are of the kind the theorems
  about new cards, known cards and overlapping requests speak of.
 */
module Witnesses {
  import opened Options
  import opened Bytes
  import opened Card
  import opened Identifiers
  import opened Envelope
  import opened Stores
  import opened Requests
  import opened Machine
  import opened Lockstep
  import opened Invariants
  import opened Guarantees
  import opened Lookups
  import opened Json
  import opened RoundTrip
  import opened Overlaps
  import opened Shortfalls
  import T = Tables

  const TENANT := "t"
  const PAN := "0000000000000"
  const ENV := Env(Toy, 3600, {BlindPreimage(TENANT, PAN)})
  const SEALING := Sealing(Zeros(DEK_SIZE), Zeros(IV_SIZE), [])

  const CREATE := CreateTenant(TENANT, "n")
  const PAN_ONLY := Tokenize(TENANT, map["pan" := Str(PAN)])
  const PAN_AND_CVV := Tokenize(TENANT, map["pan" := Str(PAN), "cvv" := Str("000")])
  const BAD_CVV := Tokenize(TENANT, map["pan" := Str(PAN), "cvv" := Str("x")])

  function ID(n: byte): string {
    TokenIDFrom(seq(20, _ => n))
  }

  function C(n: byte): Choice {
    Choice(ID(n), SEALING, "arn", Fine)
  }

  const SCRIPT := Script(C(1), C(1), C(1), C(1), C(2), C(1), C(1), C(1), C(1), C(1), C(1), C(1))

  lemma {:induction false} ZerosWeighNothing(s: string, alt: bool)
    requires forall i :: 0 <= i < |s| ==> s[i] == '0'
    ensures AllDigits(s) && LuhnSum(s, alt) == 0
    decreases |s|
  {
    if s != "" {
      ZerosWeighNothing(s[..|s| - 1], !alt);
    }
  }

  lemma CardIsValid()
    ensures ValidPAN(PAN) && ValidTenantID(TENANT)
    ensures HasPAN(PAN_ONLY) && HasPAN(PAN_AND_CVV) && HasCVV(PAN_AND_CVV) && HasPAN(BAD_CVV) && !HasCVV(BAD_CVV)
  {
    ZerosWeighNothing(PAN, false);
  }

  lemma IDsAreFine(n: byte, m: byte)
    ensures IsGeneratedID(ID(n)) && (ID(n) == ID(m) ==> n == m)
  {
    var a, b := seq(20, _ => n), seq(20, _ => m);
    assert |a| == 20 && ID(n) == TokenIDFrom(a);
    if ID(n) == ID(m) {
      TokenIDFromInjective(a, b);
      assert a[0] == n && b[0] == m;
    }
  }

  lemma EnvIsLawful()
    ensures Lawful(ENV.crypto, ENV.used)
  {
    ToyIsLawful(ENV.used);
  }

  const ROW := T.TenantRow("n", true, "arn")

  /** With the tenant and nothing else. */
  const OPEN: World := World(
    Plain(PlainStore(0, map[TENANT := ROW], map[], map[], map[], map[], map[])),
    map[0 := Progress(CREATE, Done(TenantCreated("arn"), 0))], map[], {"arn"}, {}, true)

  const OPENING: seq<Label> := [Begin(0, CREATE), Advance(0, C(0)), Advance(0, C(0))]

  lemma OpeningSteps()
    ensures var v1 := PlainStart(0).(reqs := map[0 := Progress(CREATE, AtFindTenant)]);
      var v2 := v1.(reqs := map[0 := Progress(CREATE, AtInsertTenant)]);
      && Enabled(ENV, PlainStart(0), OPENING[0]) && Next(ENV, PlainStart(0), OPENING[0]) == v1
      && Enabled(ENV, v1, OPENING[1]) && Next(ENV, v1, OPENING[1]) == v2
      && Enabled(ENV, v2, OPENING[2])
  {
    CardIsValid();
    var v1 := PlainStart(0).(reqs := map[0 := Progress(CREATE, AtFindTenant)]);
    assert Next(ENV, PlainStart(0), OPENING[0]).met == {};
    assert Step(ENV, v1.store, CREATE, AtFindTenant, C(0)) == (v1.store, AtInsertTenant);
    assert map[0 := Progress(CREATE, AtFindTenant)][0 := Progress(CREATE, AtInsertTenant)]
        == map[0 := Progress(CREATE, AtInsertTenant)];
  }

  lemma OpeningEnds()
    ensures var v2 := PlainStart(0).(reqs := map[0 := Progress(CREATE, AtInsertTenant)]);
      Next(ENV, v2, OPENING[2]) == OPEN
  {
    var v2 := PlainStart(0).(reqs := map[0 := Progress(CREATE, AtInsertTenant)]);
    assert Step(ENV, v2.store, CREATE, AtInsertTenant, C(0)) == (OPEN.store, Done(TenantCreated("arn"), 0));
    assert map[0 := Progress(CREATE, AtInsertTenant)][0 := Progress(CREATE, Done(TenantCreated("arn"), 0))] == OPEN.reqs;
    assert {} + {"arn"} == {"arn"};
  }

  lemma RunOneOf(env: Env, w: World, ls: seq<Label>)
    requires ls != []
    ensures Run(env, w, ls) == Run(env, Next(env, w, ls[0]), ls[1..])
    ensures ValidRun(env, w, ls) <==> Enabled(env, w, ls[0]) && ValidRun(env, Next(env, w, ls[0]), ls[1..])
  {
  }

  lemma OpeningRun()
    ensures Reached(ENV, 0, OPENING) && TwinAt(ENV, 0, OPENING) == OPEN
  {
    var v := PlainStart(0);
    OpeningSteps();
    OpeningEnds();
    RunOneOf(ENV, v, OPENING);
    var v1 := Next(ENV, v, OPENING[0]);
    RunOneOf(ENV, v1, OPENING[1..]);
    assert OPENING[1..][0] == OPENING[1] && OPENING[1..][1..] == OPENING[2..];
    var v2 := Next(ENV, v1, OPENING[1]);
    RunOneOf(ENV, v2, OPENING[2..]);
    assert OPENING[2..][0] == OPENING[2] && OPENING[2..][1..] == [];
    EnvIsLawful();
    SealedRefinesPlain(ENV, 0, OPENING);
  }

  lemma ScriptIsFine()
    ensures AllFine(SCRIPT) && ScriptFits(ENV, SCRIPT) && FreshIn(OPEN, SCRIPT)
  {
    IDsAreFine(1, 2);
    IDsAreFine(2, 1);
  }

  /** A state in which a new card can come, with a valid or with a bad CVV. */
  lemma NewCardIsReachable()
    ensures Reached(ENV, 0, OPENING)
    ensures NewCard(ENV, TwinAt(ENV, 0, OPENING), PAN_AND_CVV, SCRIPT) && NewCard(ENV, TwinAt(ENV, 0, OPENING), BAD_CVV, SCRIPT)
    ensures Welcome(ENV, TwinAt(ENV, 0, OPENING), PAN_AND_CVV, SCRIPT) && PANKnown(ENV, PAN_AND_CVV)
    ensures "cvv" in BAD_CVV.body && !HasCVV(BAD_CVV)
  {
    OpeningRun();
    CardIsValid();
    ScriptIsFine();
  }

  // The card is tokenized

  const FRESH_ROW := PlainToken(TENANT, PAN, true, None)

  function Issued(): map<string, Birth> {
    map[ID(1) := Birth(1, true, 0)]
  }

  /** The store with the token row, and with the vault row. */
  function TokenStored(): PlainStore {
    OPEN.store.plain.(tokens := map[ID(1) := FRESH_ROW], byPan := map[(TENANT, PAN) := ID(1)])
  }

  function CardStored(): PlainStore {
    TokenStored().(vault := map[ID(1) := PlainPAN(TENANT, PAN, "arn")])
  }

  const CARD_DONE: Pc := Done(Tokenized(true, map["pan" := Str(ID(1))]), 0)

  lemma CardLookups()
    ensures var p := OPEN.store.plain;
      && Step(ENV, Plain(p), PAN_ONLY, AtGate, C(1)) == (Plain(p), AtFindPAN("arn"))
      && Step(ENV, Plain(p), PAN_ONLY, AtFindPAN("arn"), C(1)) == (Plain(p), AtInsertToken("arn"))
  {
    CardIsValid();
  }

  lemma CardInserts()
    ensures var p := OPEN.store.plain;
      && Step(ENV, Plain(p), PAN_ONLY, AtInsertToken("arn"), C(1))
           == (Plain(TokenStored()), AtInsertPAN("arn", ID(1), SEALING))
      && Step(ENV, Plain(TokenStored()), PAN_ONLY, AtInsertPAN("arn", ID(1), SEALING), C(1)) == (Plain(CardStored()), CARD_DONE)
  {
    CardIsValid();
    var p := OPEN.store.plain;
    assert p.tokens[ID(1) := FRESH_ROW] == TokenStored().tokens;
    assert p.byPan[(TENANT, PAN) := ID(1)] == TokenStored().byPan;
    assert TokenStored().vault[ID(1) := PlainPAN(TENANT, PAN, "arn")] == CardStored().vault;
    assert PAN_ONLY.body["pan" := Str(ID(1))] == map["pan" := Str(ID(1))];
  }

  lemma CardArrives() returns (ls: seq<Label>)
    ensures ValidRun(ENV, OPEN, ls)
    ensures MovedTo(OPEN, Run(ENV, OPEN, ls), 1, PAN_ONLY, OPEN.store.plain, AtInsertToken("arn"), map[], {})
  {
    CardIsValid();
    CardLookups();
    var p, begin, l, i := OPEN.store.plain, [Begin(1, PAN_ONLY)], [Advance(1, C(1))], OPEN.issued;
    assert OPEN.met + Meets(OPEN, 1) == {};
    Begins(ENV, OPEN, 1, PAN_ONLY);
    var v1 := Run(ENV, OPEN, begin);
    Moves(ENV, v1, 1, PAN_ONLY, AtGate, C(1), p, AtFindPAN("arn"));
    var v2 := Run(ENV, v1, l);
    MovesTwice(OPEN, v1, v2, 1, PAN_ONLY, p, AtGate, i, p, AtFindPAN("arn"), i, {}, {});
    RunAppend(ENV, OPEN, begin, l);
    Moves(ENV, v2, 1, PAN_ONLY, AtFindPAN("arn"), C(1), p, AtInsertToken("arn"));
    MovesTwice(OPEN, v2, Run(ENV, v2, l), 1, PAN_ONLY, p, AtFindPAN("arn"), i, p, AtInsertToken("arn"), i, {}, {});
    RunAppend(ENV, OPEN, begin + l, l);
    ls := begin + l + l;
  }

  lemma CardRun() returns (ls: seq<Label>)
    ensures ValidRun(ENV, OPEN, ls)
    ensures MovedTo(OPEN, Run(ENV, OPEN, ls), 1, PAN_ONLY, CardStored(), CARD_DONE, Issued(), {})
  {
    CardInserts();
    IDsAreFine(1, 1);
    var p, l, pc := OPEN.store.plain, [Advance(1, C(1))], AtInsertPAN("arn", ID(1), SEALING);
    var arriving := CardArrives();
    var v1 := Run(ENV, OPEN, arriving);
    Moves(ENV, v1, 1, PAN_ONLY, AtInsertToken("arn"), C(1), TokenStored(), pc);
    var v2 := Run(ENV, v1, l);
    assert v1.issued[ID(1) := Birth(1, true, 0)] == Issued();
    MovesTwice(OPEN, v1, v2, 1, PAN_ONLY, p, AtInsertToken("arn"), map[], TokenStored(), pc, Issued(), {}, {});
    RunAppend(ENV, OPEN, arriving, l);
    Moves(ENV, v2, 1, PAN_ONLY, pc, C(1), CardStored(), CARD_DONE);
    MovesTwice(OPEN, v2, Run(ENV, v2, l), 1, PAN_ONLY, TokenStored(), pc, Issued(), CardStored(), CARD_DONE, Issued(), {}, {});
    RunAppend(ENV, OPEN, arriving + l, l);
    ls := arriving + l + l;
  }

  lemma CardIsKnown(v: World, rid: nat, n: byte)
    requires MovedTo(OPEN, v, 1, PAN_ONLY, CardStored(), CARD_DONE, Issued(), {}) && rid > 1 && n > 1
    ensures Quiet(v) && CanArrive(ENV, v, rid, PAN_AND_CVV, ID(n), SEALING)
  {
    CardIsValid();
    IDsAreFine(n, 1);
    IDsAreFine(1, 1);
    GeneratedIDsAreTokenShaped(ID(1));
  }

  /** A state with a known card and no request in progress, in which two more requests for the card can come. */
  lemma KnownCardIsReachable() returns (ls: seq<Label>)
    ensures Reached(ENV, 0, ls) && Quiet(WorldAt(ENV, 0, ls))
    ensures CanArrive(ENV, TwinAt(ENV, 0, ls), 2, PAN_AND_CVV, ID(2), SEALING)
    ensures CanArrive(ENV, TwinAt(ENV, 0, ls), 3, PAN_AND_CVV, ID(3), SEALING) && ID(2) != ID(3)
  {
    OpeningRun();
    var more := CardRun();
    ls := OPENING + more;
    RunAppend(ENV, PlainStart(0), OPENING, more);
    SealedRefinesPlain(ENV, 0, OPENING);
    SealedRefinesPlain(ENV, 0, ls);
    CardIsKnown(TwinAt(ENV, 0, ls), 2, 2);
    CardIsKnown(TwinAt(ENV, 0, ls), 3, 3);
    IDsAreFine(2, 3);
  }
}
