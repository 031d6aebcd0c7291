/**
  All requests at once. A world is a store, the requests begun so far with the place each waits at, and what is
  remembered about the past: which request generated which id and when, the key ARNs handed out, and which requests
  were in progress together. Each label of a run is one atomic step: a request arrives, a request makes its next call,
  or time passes.
 */
module Machine {
  import opened Options
  import opened Identifiers
  import opened Envelope
  import opened Stores
  import opened Requests
  import T = Tables

  datatype Progress = Progress(req: Request, pc: Pc)

  /** The request that generated an id, whether it is a PAN token, and when. */
  datatype Birth = Birth(rid: nat, isPAN: bool, at: int)

  datatype World = World(
    store: Store,
    reqs: map<nat, Progress>,
    issued: map<string, Birth>,
    arns: set<string>,
    met: set<(nat, nat)>,
    redisOk: bool)

  datatype Label =
    | Begin(rid: nat, req: Request)
    | Advance(rid: nat, choice: Choice)
    | Tick(d: nat)

  predicate NeedsID(pc: Pc) {
    pc.AtInsertToken? || pc.AtPutCVV?
  }

  /** The random source, the key service and the HMAC keep their promises for the step at `pc`. */
  ghost predicate ChoiceFits(env: Env, w: World, pc: Pc, c: Choice) {
    && (NeedsID(pc) ==> IsGeneratedID(c.id) && c.id !in w.issued)
    && (NeedsID(pc) ==> ValidSealing(c.sealing))
    && (pc.AtInsertTenant? ==> c.arn !in w.arns)
  }

  predicate InProgress(w: World, rid: nat) {
    rid in w.reqs && !w.reqs[rid].pc.Done?
  }

  ghost predicate Enabled(env: Env, w: World, l: Label) {
    match l
    case Begin(rid, r) => rid !in w.reqs && (HasPAN(r) ==> BlindPreimage(r.tenant, PANOf(r)) in env.used)
    case Advance(rid, c) => InProgress(w, rid) && ChoiceFits(env, w, w.reqs[rid].pc, c)
    case Tick(_) => true
  }

  predicate UsesOwnerKeys(pc: Pc) {
    pc.AtPutCVV? || pc.AtGetOwner? || pc.AtDropPrevious? || pc.AtSetOwner?
  }

  /** A new request `rid` and the requests in progress, both ways. */
  function Meets(w: World, rid: nat): set<(nat, nat)> {
    (set q | q in w.reqs && !w.reqs[q].pc.Done? :: (rid, q)) + (set q | q in w.reqs && !w.reqs[q].pc.Done? :: (q, rid))
  }

  function Next(env: Env, w: World, l: Label): World {
    match l
    case Begin(rid, r) =>
      w.(reqs := w.reqs[rid := Progress(r, Start(r, Now(w.store)))],
         met := w.met + Meets(w, rid))
    case Advance(rid, c) => if InProgress(w, rid) then AdvanceOne(env, w, rid, c) else w
    case Tick(d) => w.(store := Wait(w.store, d))
  }

  function AdvanceOne(env: Env, w: World, rid: nat, c: Choice): World
    requires InProgress(w, rid)
  {
    var Progress(r, pc) := w.reqs[rid];
    var (s', pc') := Step(env, w.store, r, pc, c);
    World(
      s',
      w.reqs[rid := Progress(r, pc')],
      if NeedsID(pc) then w.issued[c.id := Birth(rid, pc.AtInsertToken?, Now(w.store))] else w.issued,
      if pc.AtInsertTenant? then w.arns + {c.arn} else w.arns,
      w.met,
      w.redisOk && (UsesOwnerKeys(pc) ==> c.fault == Fine))
  }

  ghost predicate ValidRun(env: Env, w: World, ls: seq<Label>)
    decreases |ls|
  {
    ls == [] || (Enabled(env, w, ls[0]) && ValidRun(env, Next(env, w, ls[0]), ls[1..]))
  }

  function Run(env: Env, w: World, ls: seq<Label>): (w': World)
    ensures w'.store.Sealed? == w.store.Sealed?
    decreases |ls|
  {
    if ls == [] then w else Run(env, Next(env, w, ls[0]), ls[1..])
  }

  lemma {:induction false} RunAppend(env: Env, w: World, a: seq<Label>, b: seq<Label>)
    ensures Run(env, w, a + b) == Run(env, Run(env, w, a), b)
    ensures ValidRun(env, w, a + b) <==> ValidRun(env, w, a) && ValidRun(env, Run(env, w, a), b)
    decreases |a|
  {
    if a == [] {
      assert a + b == b;
    } else {
      assert (a + b)[0] == a[0] && (a + b)[1..] == a[1..] + b;
      RunAppend(env, Next(env, w, a[0]), a[1..], b);
    }
  }

  function Empty(s: Store): World {
    World(s, map[], map[], {}, {}, true)
  }

  /** The service with empty tables and an empty Redis at time `now`. */
  function SealedStart(now: int): World {
    Empty(Sealed(SealedStore(now, T.Tables(map[], map[], map[], map[]), map[])))
  }

  function PlainStart(now: int): World {
    Empty(Plain(PlainStore(now, map[], map[], map[], map[], map[], map[])))
  }
}
