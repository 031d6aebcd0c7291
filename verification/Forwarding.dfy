/** The forward endpoint of the proxy: reveal first, then send the payload on, or send nothing. */
module Forwarding {
  import opened Options
  import opened Stores
  import opened Requests
  import opened Machine
  import opened Lockstep
  import opened Guarantees
  import opened Lookups
  import opened Service
  import opened Json
  import opened Walks
  import opened Reveal
  import opened RevealRuns
  import opened Payloads
  import opened Proxy

  type Headers = map<string, string>

  /** A request handed to the HTTP client for a destination. */
  datatype Delivery = Delivery(destination: string, verb: string, headers: Headers, payload: Json)

  /** What the destination does: the request cannot be built, there is no answer, or an answer. */
  datatype Destination = Unsendable | NoAnswer | Answers(status: nat, body: string)

  datatype ForwardReply = Rejected(status: nat, code: string) | Forwarded(status: nat, body: string)

  const MISSING_TENANT := Rejected(400, "MISSING_TENANT")
  const MISSING_DESTINATION := Rejected(400, "MISSING_DESTINATION")
  const DETOKENIZE_FAILED := Rejected(404, "DETOKENIZE_FAILED")
  const PROVIDER_ERROR := Rejected(502, "PROVIDER_ERROR")

  /** A forward request without its payload. */
  datatype Order = Order(tenant: string, destination: string, verb: string, headers: Headers)

  /** The state left, what was sent and the reply. */
  datatype Effect = Effect(state: Remote, sent: seq<Delivery>, reply: ForwardReply)

  const JSON_TYPE: Headers := map["Content-Type" := "application/json"]

  function Sends(order: Order, payload: Json, there: Destination): seq<Delivery> {
    if there.Unsendable? then []
    else
      var verb := if order.verb == "" then "POST" else order.verb;
      [Delivery(order.destination, verb, JSON_TYPE + order.headers, payload)]
  }

  function ReplyFor(there: Destination): ForwardReply {
    if there.Answers? then Forwarded(there.status, there.body) else PROVIDER_ERROR
  }

  /** A forward request served alone, its payload walked in the order `o`. */
  function Forward(env: Env, s: Remote, order: Order, o: Visit, weather: Weather, there: Destination): Effect {
    if order.tenant == "" then Effect(s, [], MISSING_TENANT)
    else if order.destination == "" then Effect(s, [], MISSING_DESTINATION)
    else
      var w := Walk(env, s, order.tenant, o, weather);
      if w.result.None? then Effect(w.state, [], DETOKENIZE_FAILED)
      else Effect(w.state, Sends(order, w.result.value, there), ReplyFor(there))
  }

  /**
    `d` goes where the order says, with its verb, or as a POST exactly when it names none, with all its headers, which come
    before the content type that is there without them, and with `payload`.
   */
  ghost predicate Carries(d: Delivery, order: Order, payload: Json) {
    && d.destination == order.destination && d.payload == payload
    && (order.verb != "" ==> d.verb == order.verb) && (order.verb == "" ==> d.verb == "POST")
    && d.headers.Keys == order.headers.Keys + {"Content-Type"}
    && (forall h :: h in order.headers ==> d.headers[h] == order.headers[h])
    && ("Content-Type" !in order.headers ==> d.headers["Content-Type"] == "application/json")
  }

  /** `payload` was handed over once, or not at all if no request could be made of it, and the caller is told the outcome. */
  ghost predicate HandedOver(sent: seq<Delivery>, reply: ForwardReply, order: Order, payload: Json, there: Destination) {
    match there
    case Unsendable => sent == [] && reply == Rejected(502, "PROVIDER_ERROR")
    case NoAnswer => |sent| == 1 && Carries(sent[0], order, payload) && reply == Rejected(502, "PROVIDER_ERROR")
    case Answers(status, body) => |sent| == 1 && Carries(sent[0], order, payload) && reply == Forwarded(status, body)
  }

  /**
    What a forward request served alone comes to: refused without a tenant or destination, with nothing done; ended by a
    failed walk, with nothing sent; otherwise the tree the walk produced is handed over.
   */
  lemma ForwardOutcome(env: Env, s: Remote, order: Order, o: Visit, weather: Weather, there: Destination)
    ensures var e, w := Forward(env, s, order, o, weather, there), Walk(env, s, order.tenant, o, weather);
      if order.tenant == "" then e == Effect(s, [], Rejected(400, "MISSING_TENANT"))
      else if order.destination == "" then e == Effect(s, [], Rejected(400, "MISSING_DESTINATION"))
      else && e.state == w.state
           && if w.result.None? then e.sent == [] && e.reply == Rejected(404, "DETOKENIZE_FAILED")
              else HandedOver(e.sent, e.reply, order, w.result.value, there)
  {
    assert (JSON_TYPE + order.headers).Keys == order.headers.Keys + {"Content-Type"};
  }

  /** The HTTP client for destinations; `sent` is what it was told to send. */
  class Forwarder {
    ghost var sent: seq<Delivery>

    constructor ()
      ensures sent == []
    {
      sent := [];
    }

    method Forward(order: Order, payload: Value, there: Destination, ghost j: Json, ghost f: Foot)
      returns (answer: Option<(nat, string)>)
      requires order.verb != "" && Spells(payload, j, f)
      modifies this
      ensures sent == old(sent) + Sends(order, j, there)
      ensures answer == if there.Answers? then Some((there.status, there.body)) else None
    {
      var headers := JSON_TYPE + order.headers;
      match there
      case Unsendable => return None;
      case NoAnswer =>
        sent := sent + [Delivery(order.destination, order.verb, headers, j)];
        return None;
      case Answers(status, body) =>
        sent := sent + [Delivery(order.destination, order.verb, headers, j)];
        return Some((status, body));
    }
  }

  class ForwardHandler {
    const revealer: Revealer
    const forwarder: Forwarder

    constructor (revealer: Revealer, forwarder: Forwarder)
      ensures this.revealer == revealer && this.forwarder == forwarder
    {
      this.revealer, this.forwarder := revealer, forwarder;
    }

    ghost predicate Ready(payload: Value, j: Json, f: Foot)
      reads Objects(f)
    {
      revealer.client.tokenizer.Valid() && revealer.Fits(payload, j, f) && forwarder !in Objects(f)
    }

    /** The state left, what was sent and the reply are those of `e`. */
    ghost predicate Ends(e: Effect, sent: seq<Delivery>, reply: ForwardReply)
      reads forwarder, revealer.client, revealer.client.tokenizer.db, revealer.client.tokenizer.redis
    {
      revealer.client.State() == e.state && forwarder.sent == sent + e.sent && reply == e.reply
    }

    /** The payload is revealed where it lies; only what was fully revealed is sent. */
    method ServeHTTP(order: Order, payload: Value, weather: Weather, there: Destination, ghost j: Json, ghost f: Foot)
      returns (reply: ForwardReply, ghost o: Visit)
      requires Ready(payload, j, f)
      modifies Objects(f), forwarder, revealer.client, revealer.client.tokenizer.db, revealer.client.tokenizer.redis`keys
      ensures Visits(o, j)
      ensures Ends(Forward(revealer.client.tokenizer.env, old(revealer.client.State()), order, o, weather, there),
                   old(forwarder.sent), reply)
    {
      o := SomeVisit(j);
      if order.tenant == "" {
        return MISSING_TENANT, o;
      }
      if order.destination == "" {
        return MISSING_DESTINATION, o;
      }
      reply, o := RevealAndSend(order, payload, weather, there, j, f);
    }

    method RevealAndSend(order: Order, payload: Value, weather: Weather, there: Destination, ghost j: Json, ghost f: Foot)
      returns (reply: ForwardReply, ghost o: Visit)
      requires Ready(payload, j, f) && order.tenant != "" && order.destination != ""
      modifies Objects(f), forwarder, revealer.client, revealer.client.tokenizer.db, revealer.client.tokenizer.redis`keys
      ensures Visits(o, j)
      ensures Ends(Forward(revealer.client.tokenizer.env, old(revealer.client.State()), order, o, weather, there),
                   old(forwarder.sent), reply)
    {
      var full := if order.verb == "" then order.(verb := "POST") else order;
      ghost var value;
      var revealed;
      revealed, o, value := RevealPayload(order.tenant, payload, weather, j, f);
      if revealed.None? {
        return DETOKENIZE_FAILED, o;
      }
      var answer := forwarder.Forward(full, revealed.value, there, value, f);
      return if answer.Some? then Forwarded(answer.value.0, answer.value.1) else PROVIDER_ERROR, o;
    }

    method RevealPayload(tenant: string, payload: Value, weather: Weather, ghost j: Json, ghost f: Foot)
      returns (revealed: Option<Value>, ghost o: Visit, ghost value: Json)
      requires Ready(payload, j, f)
      modifies Objects(f), revealer.client, revealer.client.tokenizer.db, revealer.client.tokenizer.redis`keys
      ensures Visits(o, j)
      ensures var w := Walk(revealer.client.tokenizer.env, old(revealer.client.State()), tenant, o, weather);
        && revealer.client.State() == w.state && w.result == (if revealed.Some? then Some(value) else None)
      ensures revealed.Some? ==> Spells(revealed.value, value, f)
    {
      ghost var env, s := revealer.client.tokenizer.env, revealer.client.State();
      ghost var ask := AskTokenizer(env, tenant, weather);
      revealed, o := revealer.ScanAndReveal(tenant, payload, weather, ask, j, f);
      ghost var w := WalkBy(ask, s, o);
      value := if w.result.Some? then w.result.value else j;
    }
  }

  /**
    At any point of any run, whatever fails and whatever the destination does: either nothing is sent and the caller is told
    that the reveal failed, or every call of the walk was answered and its reply arrived, and what is handed to the
    destination, once, is the payload with each token leaf replaced by the value its token had at that point. It has the
    shape of the original and holds no token-shaped string.
   */
  lemma ForwardsWholeOrNothing(
    env: Env, now: int, ls: seq<Label>, n: nat, order: Order, j: Json, o: Visit, weather: Weather, there: Destination)
    requires Reached(env, now, ls) && WeatherFits(env, weather) && Visits(o, j)
    requires order.tenant != "" && order.destination != ""
    ensures var e := Forward(env, Remote(WorldAt(env, now, ls).store, n), order, o, weather, there);
      var payload := Fill(TwinAt(env, now, ls).store.plain, order.tenant, j);
      || (e.sent == [] && e.reply == Rejected(404, "DETOKENIZE_FAILED"))
      || (&& HandedOver(e.sent, e.reply, order, payload, there) && SameShape(j, payload) && TokenFree(payload)
          && forall i :: n <= i < n + |LeafBag(j)| ==> weather(i).net == Delivered)
  {
    var s := Remote(WorldAt(env, now, ls).store, n);
    ForwardOutcome(env, s, order, o, weather, there);
    RevealFills(env, now, ls, n, order.tenant, j, o, weather);
    RevealKeepsShape(env, now, ls, n, order.tenant, j, o, weather);
  }

  /**
    At any point of any run, with nothing else going on and whatever the destination does: if every token leaf of the
    payload can be resolved, the fully revealed payload is handed to the destination once and nothing else is; otherwise
    nothing is sent at all and the caller is told so. No token-shaped string ever leaves.
   */
  lemma ForwardsAllOrNothing(
    env: Env, now: int, ls: seq<Label>, n: nat, order: Order, j: Json, o: Visit, weather: Weather, there: Destination)
    requires Reached(env, now, ls) && Calm(weather) && WeatherFits(env, weather) && Visits(o, j)
    requires order.tenant != "" && order.destination != ""
    ensures var p := TwinAt(env, now, ls).store.plain;
      var payload, e := Fill(p, order.tenant, j), Forward(env, Remote(WorldAt(env, now, ls).store, n), order, o, weather, there);
      if AllResolvable(p, order.tenant, LeafBag(j))
      then HandedOver(e.sent, e.reply, order, payload, there) && SameShape(j, payload) && TokenFree(payload)
      else e.sent == [] && e.reply == Rejected(404, "DETOKENIZE_FAILED")
  {
    ForwardOutcome(env, Remote(WorldAt(env, now, ls).store, n), order, o, weather, there);
    RevealIsDetermined(env, now, ls, n, order.tenant, j, o, weather);
    var p := TwinAt(env, now, ls).store.plain;
    if AllResolvable(p, order.tenant, LeafBag(j)) {
      ShapedIsTokenFree(j, Fill(p, order.tenant, j));
    }
  }
}
