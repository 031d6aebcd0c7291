/**
  The reveal walk on the sealed store, at any point of any run: what it does when nothing goes wrong, what holds of it
  whatever goes wrong, and what holds of it when other requests come in between.
 */
module RevealRuns {
  import opened Options
  import opened Card
  import opened Identifiers
  import opened Envelope
  import opened Stores
  import opened Refinement
  import opened Requests
  import opened Machine
  import opened Lockstep
  import opened Invariants
  import opened Guarantees
  import opened Lookups
  import opened Json
  import opened Walks
  import opened Reveal

  ghost predicate SameOutcome<T>(env: Env, a: Outcome<Remote, T>, b: Outcome<Remote, T>) {
    && SameStore(env, a.state.store, b.state.store) && a.state.calls == b.state.calls
    && a.calls == b.calls && a.result == b.result
  }

  ghost predicate WeatherFits(env: Env, weather: Weather) {
    forall n :: ScriptFits(env, weather(n).script)
  }

  lemma AskAgrees(env: Env, s: Remote, q: Remote, t: string, token: string, weather: Weather)
    requires Lawful(env.crypto, env.used) && SameStore(env, s.store, q.store) && s.calls == q.calls && WeatherFits(env, weather)
    ensures var (s', value), (q', value') := AskTokenizer(env, t, weather)(s, token), AskTokenizer(env, t, weather)(q, token);
      SameStore(env, s'.store, q'.store) && s'.calls == q'.calls && value == value'
  {
    assert ScriptFits(env, weather(s.calls).script);
    ServeAgrees(env, s.store, q.store, Detokenize(t, token), weather(s.calls).script);
  }

  lemma {:induction false} WalkAgrees(env: Env, s: Remote, q: Remote, t: string, o: Visit, weather: Weather)
    requires Lawful(env.crypto, env.used) && SameStore(env, s.store, q.store) && s.calls == q.calls && WeatherFits(env, weather)
    ensures SameOutcome(env, Walk(env, s, t, o, weather), Walk(env, q, t, o, weather))
    decreases o
  {
    match o
    case Leaf(Str(text)) => AskAgrees(env, s, q, t, text, weather);
    case Leaf(_) =>
    case List(items) => WalkAllAgrees(env, s, q, t, items, weather);
    case Fields(_, items) => WalkAllAgrees(env, s, q, t, items, weather);
  }

  lemma {:induction false} WalkAllAgrees(env: Env, s: Remote, q: Remote, t: string, os: seq<Visit>, weather: Weather)
    requires Lawful(env.crypto, env.used) && SameStore(env, s.store, q.store) && s.calls == q.calls && WeatherFits(env, weather)
    ensures var ask := AskTokenizer(env, t, weather);
      SameOutcome(env, WalkAllBy(ask, s, os), WalkAllBy(ask, q, os))
    decreases os
  {
    if os != [] {
      WalkAgrees(env, s, q, t, os[0], weather);
      WalkAllAgrees(env, Walk(env, s, t, os[0], weather).state, Walk(env, q, t, os[0], weather).state, t, os[1..], weather);
    }
  }

  lemma StoredValuesAreDigits(env: Env, v: World)
    requires Inv(env, v)
    ensures OnlyDigits(v.store.plain) && NoEmptyCVV(v.store.plain)
  {
    var p := v.store.plain;
    StoredCVVsAreNotEmpty(env, v);
    forall id | id in p.vault
      ensures AllDigits(p.vault[id].pan)
    {
      assert BornPAN(v, id, p.tokens[id].tenant, p.tokens[id].pan);
    }
    forall k | k in p.cvvs
      ensures AllDigits(p.cvvs[k].value)
    {
      assert (k.0, k.1) == k;
      assert BornCVV(v, k.1, k.0, p.cvvs[k].value);
    }
  }

  // Whatever goes wrong

  /**
    At any point of any run and whatever fails: a walk that succeeds gives the payload with each token leaf replaced by the
    value its token had when the walk began, and nothing else changed. Every call that was answered was sent and its reply
    arrived: all calls of a walk that succeeds, and all but the last of one that fails.
   */
  lemma RevealFills(env: Env, now: int, ls: seq<Label>, n: nat, t: string, j: Json, o: Visit, weather: Weather)
    requires Reached(env, now, ls) && WeatherFits(env, weather) && Visits(o, j)
    ensures var r := Walk(env, Remote(WorldAt(env, now, ls).store, n), t, o, weather);
      && (r.result.Some? ==> r.result.value == Fill(TwinAt(env, now, ls).store.plain, t, j))
      && (r.result.None? ==> r.calls > 0)
      && forall i :: n <= i < n + (if r.result.Some? then r.calls else r.calls - 1) ==> weather(i).net == Delivered
  {
    TwinHolds(env, now, ls);
    var s, q := Remote(WorldAt(env, now, ls).store, n), Remote(TwinAt(env, now, ls).store, n);
    WalkAgrees(env, s, q, t, o, weather);
    WalkFills(env, q.store.plain, n, t, j, o, weather);
    TokenizerDelivers(env, t, weather);
    WalkAsksLeaves(AskTokenizer(env, t, weather), s, o);
    AnsweredWereDelivered(AskTokenizer(env, t, weather), s, TokensOf(o), weather);
  }

  /**
    At any point of any run and whatever fails, requests or network: a walk that succeeds has left keys, lengths and all
    other leaves as they were and no token-shaped string, with one call for each token leaf; a walk that fails has made no
    more calls than there are token leaves.
   */
  lemma RevealKeepsShape(env: Env, now: int, ls: seq<Label>, n: nat, t: string, j: Json, o: Visit, weather: Weather)
    requires Reached(env, now, ls) && WeatherFits(env, weather) && Visits(o, j)
    ensures var r := Walk(env, Remote(WorldAt(env, now, ls).store, n), t, o, weather);
      && r.calls <= |LeafBag(j)|
      && (r.result.Some? ==> SameShape(j, r.result.value) && TokenFree(r.result.value) && r.calls == |LeafBag(j)|)
  {
    TwinHolds(env, now, ls);
    var s, p := Remote(WorldAt(env, now, ls).store, n), TwinAt(env, now, ls).store.plain;
    RevealFills(env, now, ls, n, t, j, o, weather);
    StoredValuesAreDigits(env, TwinAt(env, now, ls));
    FillKeepsShape(p, t, j);
    ShapedIsTokenFree(j, Fill(p, t, j));
    WalkAsksLeaves(AskTokenizer(env, t, weather), s, o);
    VisitMeetsLeaves(o, j);
    assert |multiset(TokensOf(o))| == |TokensOf(o)|;
  }

  /**
    What a walk revealed, in whatever weather, holds no tokens: walking it again, in any order and with any oracle, makes
    no call and changes nothing.
   */
  lemma SecondWalkDoesNothing<S>(
    env: Env, now: int, ls: seq<Label>, n: nat, t: string, j: Json, o: Visit, weather: Weather,
    ask: Oracle<S>, s: S, o': Visit)
    requires Reached(env, now, ls) && WeatherFits(env, weather) && Visits(o, j)
    requires var r := Walk(env, Remote(WorldAt(env, now, ls).store, n), t, o, weather);
      r.result.Some? && Visits(o', r.result.value)
    ensures WalkBy(ask, s, o') == Outcome(s, 0, Walk(env, Remote(WorldAt(env, now, ls).store, n), t, o, weather).result)
  {
    RevealKeepsShape(env, now, ls, n, t, j, o, weather);
    TokenFreeIsUntouched(ask, s, Walk(env, Remote(WorldAt(env, now, ls).store, n), t, o, weather).result.value, o');
  }

  // Other requests in between

  /** Every value a detokenize reply carries, in any run, is digits. */
  lemma RevealedValuesAreDigits(env: Env, now: int, ls: seq<Label>, rid: nat, value: string)
    requires Reached(env, now, ls) && GotValue(WorldAt(env, now, ls), rid, value)
    ensures AllDigits(value)
  {
    NeverAWrongValue(env, now, ls, rid, value);
  }

  /**
    What happens up to the answer of one call of the proxy: steps of any requests, the request the call is served by, and
    what the network does.
   */
  datatype Segment = Segment(steps: seq<Label>, rid: nat, net: Net)

  /** A point of a run. */
  datatype Moment = Moment(ls: seq<Label>, calls: nat)

  /** The tokenizer among all other requests: the n-th call takes the n-th segment and gets its request's reply. */
  ghost function AskInRun(env: Env, now: int, t: string, plan: nat -> Segment): Oracle<Moment> {
    (m: Moment, token: string) =>
      var Segment(steps, rid, net) := plan(m.calls);
      if !Reached(env, now, m.ls + steps) then (m.(calls := m.calls + 1), None)
      else
        (Moment(m.ls + steps, m.calls + 1),
         if net.Delivered? then ReplyTo(WorldAt(env, now, m.ls + steps), rid, Detokenize(t, token)) else None)
  }

  function ReplyTo(w: World, rid: nat, r: Request): Option<string> {
    if rid in w.reqs && w.reqs[rid].req == r && w.reqs[rid].pc.Done? && w.reqs[rid].pc.reply.Revealed?
    then Some(w.reqs[rid].pc.reply.value) else None
  }

  /** `value` is what the tokenize request of tenant `t` that generated `token` was given, or "" for a PAN token. */
  ghost predicate Given(w: World, t: string, token: string, value: string) {
    && token in w.issued && w.issued[token].rid in w.reqs
    && var source := w.reqs[w.issued[token].rid].req;
       && source.Tokenize? && source.tenant == t
       && if w.issued[token].isPAN then HasPAN(source) && (value == PANOf(source) || value == "")
          else HasCVV(source) && value == CVVOf(source)
  }

  ghost function GivenAt(env: Env, now: int, t: string): Judge<Moment> {
    (m: Moment, token: string, value: string) => Given(WorldAt(env, now, m.ls), t, token, value)
  }

  lemma GivenIsNoToken(w: World, t: string, token: string, value: string)
    requires Given(w, t, token, value)
    ensures !IsTokenShaped(value)
  {
    DigitsAreNotTokenShaped(value);
  }

  lemma StaysGiven(env: Env, now: int, ls: seq<Label>, more: seq<Label>, t: string, token: string, value: string)
    requires Reached(env, now, ls + more) && Given(WorldAt(env, now, ls), t, token, value)
    ensures Given(WorldAt(env, now, ls + more), t, token, value)
  {
    TwinGoesOn(env, now, ls, more);
    TwinHolds(env, now, ls);
  }

  lemma AnswersInRunAreRight(env: Env, now: int, t: string, plan: nat -> Segment)
    ensures AnswersRight(AskInRun(env, now, t, plan), (m: Moment) => Reached(env, now, m.ls), GivenAt(env, now, t))
  {
    var ask, ok := AskInRun(env, now, t, plan), GivenAt(env, now, t);
    forall m: Moment, token | Reached(env, now, m.ls)
      ensures Reached(env, now, ask(m, token).0.ls) && StaysRight(ok, m, ask(m, token).0)
      ensures ask(m, token).1.Some? ==> ok(ask(m, token).0, token, ask(m, token).1.value)
    {
      var (m', value) := ask(m, token);
      forall x, y | ok(m, x, y)
        ensures ok(m', x, y)
      {
        if Reached(env, now, m.ls + plan(m.calls).steps) {
          StaysGiven(env, now, m.ls, plan(m.calls).steps, t, x, y);
        }
      }
      if value.Some? {
        NeverAWrongValue(env, now, m'.ls, plan(m.calls).rid, value.value);
      }
    }
  }

  /**
    A walk with any other requests in between, whatever steps of whatever requests come before, during and between its
    calls, and whatever fails: if it succeeds, each token leaf became what the request that generated that token for this
    tenant was given, nothing else changed, and no token-shaped string is left.
   */
  lemma InterleavedRevealIsRight(env: Env, now: int, ls: seq<Label>, t: string, j: Json, o: Visit, plan: nat -> Segment)
    requires Reached(env, now, ls) && Visits(o, j)
    ensures var r := WalkBy(AskInRun(env, now, t, plan), Moment(ls, 0), o);
      && r.calls <= |LeafBag(j)|
      && (r.result.Some? ==>
            && Replaced(AsOf(GivenAt(env, now, t), r.state), j, r.result.value)
            && SameShape(j, r.result.value) && TokenFree(r.result.value) && r.calls == |LeafBag(j)|)
  {
    var ask, ok := AskInRun(env, now, t, plan), GivenAt(env, now, t);
    AnswersInRunAreRight(env, now, t, plan);
    WalkIsRight(ask, (m: Moment) => Reached(env, now, m.ls), ok, Moment(ls, 0), o, j);
    WalkAsksLeaves(ask, Moment(ls, 0), o);
    VisitMeetsLeaves(o, j);
    assert |multiset(TokensOf(o))| == |TokensOf(o)|;
    var r := WalkBy(ask, Moment(ls, 0), o);
    if r.result.Some? {
      forall x, y | AsOf(ok, r.state)(x, y)
        ensures NoToken()(x, y)
      {
        GivenIsNoToken(WorldAt(env, now, r.state.ls), t, x, y);
      }
      ReplacedWeaker(AsOf(ok, r.state), NoToken(), j, r.result.value);
      ShapedIsTokenFree(j, r.result.value);
    }
  }

  // Nothing goes wrong

  /**
    At any point of any run, with nothing else going on: a walk over a payload succeeds in every order or in none, and
    exactly when each token leaf names an active PAN token or a live CVV token of the tenant and no CVV token is there
    twice; every order that succeeds gives the same tree, of the same shape and without tokens, makes one call for each
    token leaf, and leaves the same tokens used.
   */
  lemma RevealIsDetermined(env: Env, now: int, ls: seq<Label>, n: nat, t: string, j: Json, o: Visit, weather: Weather)
    requires Reached(env, now, ls) && Calm(weather) && WeatherFits(env, weather) && Visits(o, j)
    ensures var p := TwinAt(env, now, ls).store.plain;
      var r := Walk(env, Remote(WorldAt(env, now, ls).store, n), t, o, weather);
      && (r.result.Some? <==> AllResolvable(p, t, LeafBag(j)))
      && (r.result.Some? ==>
            && r.result.value == Fill(p, t, j) && SameShape(j, r.result.value)
            && r.calls == |LeafBag(j)|
            && SameStore(env, r.state.store, Plain(After(p, t, set tok | tok in LeafBag(j)))))
  {
    TwinHolds(env, now, ls);
    var s, q := Remote(WorldAt(env, now, ls).store, n), Remote(TwinAt(env, now, ls).store, n);
    StoredValuesAreDigits(env, TwinAt(env, now, ls));
    WalkAgrees(env, s, q, t, o, weather);
    OrderDoesNotMatter(env, q.store.plain, n, t, j, o, weather);
    FillKeepsShape(q.store.plain, t, j);
  }

  /**
    A walk that fails has resolved exactly the token leaves before the failing one in the order taken: their CVV tokens
    are gone and none is restored; it made one call for each of them and one for the failing leaf, and stopped.
   */
  lemma FailedReveal(env: Env, now: int, ls: seq<Label>, n: nat, t: string, j: Json, o: Visit, weather: Weather)
    returns (k: nat)
    requires Reached(env, now, ls) && Calm(weather) && WeatherFits(env, weather) && Visits(o, j)
    requires Walk(env, Remote(WorldAt(env, now, ls).store, n), t, o, weather).result.None?
    ensures var p, toks := TwinAt(env, now, ls).store.plain, TokensOf(o);
      && k < |toks| && (forall i :: 0 <= i < k ==> GoesOn(p, t, toks, i)) && !GoesOn(p, t, toks, k)
    ensures var p := TwinAt(env, now, ls).store.plain;
      var r := Walk(env, Remote(WorldAt(env, now, ls).store, n), t, o, weather);
      r.state.calls == n + k + 1 && SameStore(env, r.state.store, Plain(After(p, t, Elements(TokensOf(o)[..k]))))
  {
    TwinHolds(env, now, ls);
    var s, q := Remote(WorldAt(env, now, ls).store, n), Remote(TwinAt(env, now, ls).store, n);
    StoredValuesAreDigits(env, TwinAt(env, now, ls));
    WalkAgrees(env, s, q, t, o, weather);
    k := FailedWalk(env, q.store.plain, n, t, j, o, weather);
  }
}
