/**
  The handlers as step programs. A request waits at a `Pc` for one call to the store; `Resume` is the pure code
  between that call and the next. The same program runs over the sealed and the plain store.
 */
module Requests {
  import opened Options
  import opened Card
  import opened Identifiers
  import opened Envelope
  import opened Stores
  import J = Json
  import T = Tables

  type Body = map<string, J.Json>

  datatype Request =
    | Tokenize(tenant: string, body: Body)
    | Detokenize(tenant: string, token: string)
    | GetStatus(tenant: string, token: string)
    | Deactivate(tenant: string, token: string)
    | CreateTenant(tenant: string, name: string)
    | DeactivateTenant(tenant: string)

  datatype Reply =
    | Refused(status: nat, code: string)
    | Tokenized(created: bool, body: Body)
    | Revealed(value: string)
    | PANStatus(facts: TokenFacts)
    | CVVActive
    | Deactivated
    | TenantCreated(arn: string)
    | TenantDeactivated

  const INTERNAL := Refused(500, "INTERNAL_ERROR")
  const UNAVAILABLE := Refused(503, "SERVICE_UNAVAILABLE")
  const TENANT_NOT_FOUND := Refused(404, "TENANT_NOT_FOUND")
  const TOKEN_NOT_FOUND := Refused(404, "TOKEN_NOT_FOUND")

  /** What a tokenize request has done so far: the PAN token ("" if none), whether it is new, and the body to echo. */
  datatype Draft = Draft(created: bool, panToken: string, body: Body)

  datatype Pc =
    | AtGate
    | AtFindPAN(arn: string)
    | AtInsertToken(arn: string)
    | AtInsertPAN(arn: string, token: string, sealing: Sealing)
    | AtPutCVV(draft: Draft)
    | AtGetOwner(draft: Draft, cvvToken: string)
    | AtDropPrevious(draft: Draft, cvvToken: string, previous: string)
    | AtSetOwner(draft: Draft, cvvToken: string)
    | AtFindToken
    | AtReadPAN
    | AtTouch(value: string)
    | AtTakeCVV
    | AtProbeCVV
    | AtStopToken
    | AtFindTenant
    | AtInsertTenant
    | AtStopTenant
    | Done(reply: Reply, at: int)

  /** What the outside world supplies for one step: random ids and keys, a new key ARN, and what goes wrong. */
  datatype Choice = Choice(id: string, sealing: Sealing, arn: string, fault: Fault)

  predicate HasPAN(r: Request) {
    r.Tokenize? && "pan" in r.body && r.body["pan"].Str? && ValidPAN(r.body["pan"].text)
  }

  function PANOf(r: Request): string
    requires HasPAN(r)
  {
    r.body["pan"].text
  }

  predicate HasCVV(r: Request) {
    r.Tokenize? && "cvv" in r.body && r.body["cvv"].Str? && ValidCVV(r.body["cvv"].text)
  }

  function CVVOf(r: Request): string
    requires HasCVV(r)
  {
    r.body["cvv"].text
  }

  /** A tokenize request with valid fields. */
  predicate WellFormed(r: Request) {
    && r.Tokenize? && ("pan" in r.body || "cvv" in r.body)
    && ("pan" in r.body ==> HasPAN(r)) && ("cvv" in r.body ==> HasCVV(r))
  }

  /** Where a request begins; admin requests do not pass the tenant gate. */
  function Start(r: Request, now: int): Pc {
    match r
    case CreateTenant(t, name) =>
      if !ValidTenantID(t) then Done(Refused(400, "INVALID_TENANT_ID"), now)
      else if name == "" then Done(Refused(400, "MISSING_NAME"), now)
      else AtFindTenant
    case DeactivateTenant(_) => AtFindTenant
    case _ =>
      if r.tenant == "" then Done(Refused(400, "MISSING_TENANT"), now)
      else if !ValidTenantID(r.tenant) then Done(Refused(400, "INVALID_TENANT"), now)
      else AtGate
  }

  /** The call a request makes at `pc`. */
  function CallOf(r: Request, pc: Pc, c: Choice): Call
    requires !pc.Done?
  {
    match pc
    case AtGate => FindTenant(r.tenant)
    case AtFindPAN(_) => FindByPAN(r.tenant, TextField(r, "pan"))
    case AtInsertToken(_) => InsertToken(r.tenant, c.id, TextField(r, "pan"))
    case AtInsertPAN(arn, token, sealing) => InsertPAN(r.tenant, token, TextField(r, "pan"), arn, sealing)
    case AtPutCVV(_) => PutCVV(r.tenant, c.id, TextField(r, "cvv"), c.sealing)
    case AtGetOwner(d, _) => GetOwner(r.tenant, d.panToken)
    case AtDropPrevious(_, _, previous) => DropCVV(r.tenant, previous)
    case AtSetOwner(d, cvvToken) => SetOwner(r.tenant, d.panToken, cvvToken)
    case AtFindToken => FindToken(r.tenant, TokenOf(r))
    case AtReadPAN => ReadPAN(r.tenant, TokenOf(r))
    case AtTouch(_) => Touch(r.tenant, TokenOf(r))
    case AtTakeCVV => TakeCVV(r.tenant, TokenOf(r))
    case AtProbeCVV => ProbeCVV(r.tenant, TokenOf(r))
    case AtStopToken => StopToken(r.tenant, TokenOf(r))
    case AtFindTenant => FindTenant(r.tenant)
    case AtInsertTenant => InsertTenant(r.tenant, if r.CreateTenant? then r.name else "", c.arn)
    case AtStopTenant => StopTenant(r.tenant)
  }

  function TextField(r: Request, key: string): string {
    if r.Tokenize? && key in r.body && r.body[key].Str? then r.body[key].text else ""
  }

  function TokenOf(r: Request): string {
    if r.Detokenize? || r.GetStatus? || r.Deactivate? then r.token else ""
  }

  /** The code after the call at `pc` was answered. */
  function Resume(r: Request, pc: Pc, c: Choice, answer: Answer, now: int): Pc
    requires !pc.Done?
  {
    match pc
    case AtGate =>
      (match answer
       case TenantIs(None) => Done(TENANT_NOT_FOUND, now)
       case TenantIs(Some(row)) => if row.active then AfterGate(r, row.keyARN, now) else Done(Refused(403, "FORBIDDEN"), now)
       case _ => Done(INTERNAL, now))
    case AtFindPAN(arn) =>
      (match answer
       case TokenFor(None) => AtInsertToken(arn)
       case TokenFor(Some(token)) => AfterPAN(r, false, token, now)
       case _ => Done(INTERNAL, now))
    case AtInsertToken(arn) =>
      if answer == Ack then AtInsertPAN(arn, c.id, c.sealing)
      else Done(if answer == KeyFailed then UNAVAILABLE else INTERNAL, now)
    case AtInsertPAN(_, token, _) => if answer == Ack then AfterPAN(r, true, token, now) else Done(INTERNAL, now)
    case AtPutCVV(d) =>
      if answer != Ack then Done(INTERNAL, now)
      else if d.panToken != "" then AtGetOwner(d, c.id)
      else Echo(d, c.id, now)
    case AtGetOwner(d, cvvToken) =>
      (match answer
       case OwnerIs(Some(previous)) =>
         if previous != "" then AtDropPrevious(d, cvvToken, previous) else AtSetOwner(d, cvvToken)
       case _ => AtSetOwner(d, cvvToken))
    case AtDropPrevious(d, cvvToken, _) => AtSetOwner(d, cvvToken)
    case AtSetOwner(d, cvvToken) => Echo(d, cvvToken, now)
    case AtFindToken =>
      (match answer
       case TokenIs(facts) => AfterFindToken(r, facts, now)
       case _ => Done(INTERNAL, now))
    case AtReadPAN =>
      (match answer
       case Value(v) => AtTouch(v)
       case _ => Done(INTERNAL, now))
    case AtTouch(v) => Done(Revealed(v), now)
    case AtTakeCVV =>
      (match answer
       case Value(v) => Done(if v != "" then Revealed(v) else TOKEN_NOT_FOUND, now)
       case _ => Done(TOKEN_NOT_FOUND, now))
    case AtProbeCVV => Done(if answer == Present(true) then CVVActive else TOKEN_NOT_FOUND, now)
    case AtStopToken => Done(if answer == Ack then Deactivated else INTERNAL, now)
    case AtFindTenant =>
      (match answer
       case TenantIs(row) => AfterFindTenant(r, row, now)
       case _ => Done(INTERNAL, now))
    case AtInsertTenant =>
      Done(if answer == Ack then TenantCreated(c.arn) else if answer == KeyFailed then UNAVAILABLE else INTERNAL, now)
    case AtStopTenant => Done(if answer == Ack then TenantDeactivated else INTERNAL, now)
  }

  function AfterGate(r: Request, arn: string, now: int): Pc {
    if !r.Tokenize? then AtFindToken
    else if "pan" !in r.body && "cvv" !in r.body then Done(Refused(400, "NO_SENSITIVE_FIELDS"), now)
    else if "pan" !in r.body then CheckCVV(r, Draft(false, "", r.body), now)
    else if HasPAN(r) then AtFindPAN(arn)
    else Done(Refused(400, "INVALID_PAN"), now)
  }

  /** The PAN has its token: put it in the body and go on to the CVV. */
  function AfterPAN(r: Request, created: bool, token: string, now: int): Pc {
    if r.Tokenize? then CheckCVV(r, Draft(created, token, r.body["pan" := J.Str(token)]), now)
    else Done(INTERNAL, now)
  }

  function CheckCVV(r: Request, d: Draft, now: int): Pc {
    if r.Tokenize? && "cvv" !in r.body then Done(Tokenized(d.created, d.body), now)
    else if HasCVV(r) then AtPutCVV(d)
    else Done(Refused(400, "INVALID_CVV"), now)
  }

  function Echo(d: Draft, cvvToken: string, now: int): Pc {
    Done(Tokenized(d.created, d.body["cvv" := J.Str(cvvToken)]), now)
  }

  function AfterFindToken(r: Request, facts: Option<TokenFacts>, now: int): Pc {
    match r
    case Detokenize(_, _) =>
      if facts.None? then AtTakeCVV
      else if facts.value.active then AtReadPAN
      else Done(Refused(404, "TOKEN_INACTIVE"), now)
    case GetStatus(_, _) => if facts.None? then AtProbeCVV else Done(PANStatus(facts.value), now)
    case _ => if facts.None? then Done(TOKEN_NOT_FOUND, now) else AtStopToken
  }

  function AfterFindTenant(r: Request, row: Option<T.TenantRow>, now: int): Pc {
    if r.CreateTenant? then
      if row.Some? then Done(Refused(409, "TENANT_EXISTS"), now) else AtInsertTenant
    else
      if row.Some? then AtStopTenant else Done(TENANT_NOT_FOUND, now)
  }

  /** How many calls can still follow. */
  function Rank(pc: Pc): nat {
    match pc
    case AtGate => 9
    case AtFindPAN(_) => 8
    case AtInsertToken(_) => 7
    case AtInsertPAN(_, _, _) => 6
    case AtPutCVV(_) => 5
    case AtGetOwner(_, _) => 4
    case AtDropPrevious(_, _, _) => 3
    case AtSetOwner(_, _) => 2
    case AtFindToken => 4
    case AtReadPAN => 3
    case AtTouch(_) => 2
    case AtFindTenant => 2
    case Done(_, _) => 0
    case _ => 1
  }

  /** Every step leads closer to a reply: no request makes more than nine calls. */
  lemma ResumeDescends(r: Request, pc: Pc, c: Choice, answer: Answer, now: int)
    requires !pc.Done?
    ensures Rank(Resume(r, pc, c, answer, now)) < Rank(pc)
  {
  }

  /** One step of a request: the call, then the code after it. */
  function Step(env: Env, s: Store, r: Request, pc: Pc, c: Choice): (Store, Pc)
    requires !pc.Done?
  {
    var (s', answer) := Exec(env, s, CallOf(r, pc, c), c.fault);
    (s', Resume(r, pc, c, answer, Now(s)))
  }

  /** The choices for a request that runs alone, one for each place it may wait at. */
  datatype Script = Script(
    gate: Choice, find: Choice, insert: Choice, insertPAN: Choice, put: Choice, getOwner: Choice, drop: Choice,
    setOwner: Choice, read: Choice, touch: Choice, take: Choice, update: Choice)

  function ChoiceAt(script: Script, pc: Pc): Choice {
    match pc
    case AtGate => script.gate
    case AtFindPAN(_) => script.find
    case AtInsertToken(_) => script.insert
    case AtInsertPAN(_, _, _) => script.insertPAN
    case AtPutCVV(_) => script.put
    case AtGetOwner(_, _) => script.getOwner
    case AtDropPrevious(_, _, _) => script.drop
    case AtSetOwner(_, _) => script.setOwner
    case AtFindToken => script.find
    case AtFindTenant => script.find
    case AtReadPAN => script.read
    case AtTouch(_) => script.touch
    case AtTakeCVV => script.take
    case AtProbeCVV => script.take
    case _ => script.update
  }

  /** A request run to its reply with nothing in between. */
  function Complete(env: Env, s: Store, r: Request, pc: Pc, script: Script): (Store, Reply)
    decreases Rank(pc)
  {
    match pc
    case Done(reply, _) => (s, reply)
    case _ =>
      var c := ChoiceAt(script, pc);
      var (s', pc') := Step(env, s, r, pc, c);
      ResumeDescends(r, pc, c, Exec(env, s, CallOf(r, pc, c), c.fault).1, Now(s));
      Complete(env, s', r, pc', script)
  }

  lemma StepThenComplete(env: Env, s: Store, r: Request, pc: Pc, script: Script, s': Store, pc': Pc)
    requires !pc.Done? && Step(env, s, r, pc, ChoiceAt(script, pc)) == (s', pc')
    ensures Complete(env, s, r, pc, script) == Complete(env, s', r, pc', script)
  {
  }

  function Serve(env: Env, s: Store, r: Request, script: Script): (Store, Reply) {
    Complete(env, s, r, Start(r, Now(s)), script)
  }
}
