/**
  The reveal walk of the proxy: the walk that asks the tokenizer, one detokenize request for each token leaf, with
  whatever goes wrong with a request or on the network; and what it does when nothing goes wrong.
 */
module Reveal {
  import opened Options
  import opened Card
  import opened Identifiers
  import opened Stores
  import opened Requests
  import opened Lookups
  import opened Json
  import opened Walks

  // The tokenizer as the oracle

  /** What the network does with one call of the proxy. */
  datatype Net = Delivered | Unsent | ReplyLost

  /** The choices of the detokenize request of one call, and its network. */
  datatype Fate = Fate(script: Script, net: Net)

  /** The fate of the n-th call the proxy makes. */
  type Weather = nat -> Fate

  /** The tokenizer's store and the number of calls the proxy made so far. */
  datatype Remote = Remote(store: Store, calls: nat)

  /** One call: the value of a 200 reply that arrived. */
  function Asked(env: Env, s: Remote, t: string, token: string, fate: Fate): (Remote, Option<string>) {
    if fate.net.Unsent? then (s.(calls := s.calls + 1), None)
    else
      var (s', reply) := Serve(env, s.store, Detokenize(t, token), fate.script);
      (Remote(s', s.calls + 1), if fate.net.Delivered? && reply.Revealed? then Some(reply.value) else None)
  }

  function AskTokenizer(env: Env, t: string, weather: Weather): Oracle<Remote> {
    (s: Remote, token: string) => Asked(env, s, t, token, weather(s.calls))
  }

  /** The walk for tenant `t`. */
  function Walk(env: Env, s: Remote, t: string, o: Visit, weather: Weather): Outcome<Remote, Json> {
    WalkBy(AskTokenizer(env, t, weather), s, o)
  }

  /** Nothing goes wrong with any call. */
  ghost predicate Calm(weather: Weather) {
    forall n :: AllFine(weather(n).script) && weather(n).net.Delivered?
  }

  // A calm walk on the plain store

  /** Resolves tokens in order up to the first refusal; the number is how many were resolved. */
  function ResolveAll(p: PlainStore, t: string, toks: seq<string>): (r: (PlainStore, nat))
    ensures r.1 <= |toks|
    decreases |toks|
  {
    if toks == [] then (p, 0)
    else
      var (p', value) := Resolve(p, t, toks[0]);
      if value.None? then (p, 0)
      else var (p'', n) := ResolveAll(p', t, toks[1..]); (p'', n + 1)
  }

  // What a successful walk produces: it depends on the payload and the store it started from, not on the order

  function ValueOf(p: PlainStore, t: string, token: string): string {
    if HasToken(p, t, token) then StoredPAN(p, t, token)
    else if (t, token) in p.cvvs then p.cvvs[(t, token)].value else ""
  }

  function Fill(p: PlainStore, t: string, j: Json): Json
    decreases j
  {
    match j
    case Str(text) => if IsTokenShaped(text) then Str(ValueOf(p, t, text)) else j
    case Arr(items) => Arr(seq(|items|, i requires 0 <= i < |items| => Fill(p, t, items[i])))
    case Obj(fields) => Obj(map k | k in fields :: Fill(p, t, fields[k]))
    case _ => j
  }

  /** `p` is `p0` after some tokens were resolved: only CVVs are gone and last-used times changed. */
  ghost predicate Later(p0: PlainStore, p: PlainStore) {
    && p.now == p0.now && p.tenants == p0.tenants && p.vault == p0.vault
    && p.tokens.Keys == p0.tokens.Keys
    && (forall id :: id in p.tokens ==> p.tokens[id].tenant == p0.tokens[id].tenant && p.tokens[id].active == p0.tokens[id].active)
    && (forall k :: k in p.cvvs ==> k in p0.cvvs && p.cvvs[k] == p0.cvvs[k])
  }

  lemma ResolveLater(p0: PlainStore, p: PlainStore, t: string, token: string)
    requires Later(p0, p)
    ensures Later(p0, Resolve(p, t, token).0)
    ensures Resolve(p, t, token).1.Some? ==> Resolve(p, t, token).1.value == ValueOf(p0, t, token)
    ensures Resolve(p, t, token).1.None? ==> Resolve(p, t, token).0 == p
  {
  }

  lemma AskIsResolve(env: Env, p: PlainStore, n: nat, t: string, token: string, weather: Weather)
    requires Calm(weather) && NoEmptyCVV(p)
    ensures AskTokenizer(env, t, weather)(Remote(Plain(p), n), token)
         == (Remote(Plain(Resolve(p, t, token).0), n + 1), Resolve(p, t, token).1)
  {
    assert AllFine(weather(n).script) && weather(n).net.Delivered?;
    DetokenizeResolves(env, p, t, token, weather(n).script);
  }

  /** On plain stores without empty CVVs, the oracle does what `Resolve` says. */
  ghost predicate Resolves(ask: Oracle<Remote>, t: string) {
    forall p: PlainStore, n: nat, token: string {:trigger ask(Remote(Plain(p), n), token)} :: NoEmptyCVV(p) ==>
      ask(Remote(Plain(p), n), token) == (Remote(Plain(Resolve(p, t, token).0), n + 1), Resolve(p, t, token).1)
  }

  lemma TokenizerResolves(env: Env, t: string, weather: Weather)
    requires Calm(weather)
    ensures Resolves(AskTokenizer(env, t, weather), t)
  {
    var ask := AskTokenizer(env, t, weather);
    forall p: PlainStore, n: nat, token: string | NoEmptyCVV(p)
      ensures ask(Remote(Plain(p), n), token) == (Remote(Plain(Resolve(p, t, token).0), n + 1), Resolve(p, t, token).1)
    {
      AskIsResolve(env, p, n, t, token, weather);
    }
  }

  lemma {:induction false} AskAllIsResolveAll(
    ask: Oracle<Remote>, p0: PlainStore, p: PlainStore, n: nat, t: string, toks: seq<string>)
    requires Resolves(ask, t) && NoEmptyCVV(p0) && Later(p0, p)
    ensures var (p', k) := ResolveAll(p, t, toks);
      AskAll(ask, Remote(Plain(p), n), toks) == (Remote(Plain(p'), n + if k == |toks| then k else k + 1), k)
    decreases |toks|
  {
    if toks != [] {
      AskAllStep(ask, Remote(Plain(p), n), toks);
      ResolveAllStep(p, t, toks);
      ResolveLater(p0, p, t, toks[0]);
      if Resolve(p, t, toks[0]).1.Some? {
        AskAllIsResolveAll(ask, p0, Resolve(p, t, toks[0]).0, n + 1, t, toks[1..]);
      }
    }
  }

  /** The value a token has in `p`. */
  function IsValue(p: PlainStore, t: string): (string, string) -> bool {
    (token, value) => value == ValueOf(p, t, token)
  }

  lemma {:induction false} ReplacedByValues(p: PlainStore, t: string, j: Json, r: Json)
    requires Replaced(IsValue(p, t), j, r)
    ensures r == Fill(p, t, j)
    decreases j
  {
    match j
    case Arr(items) =>
      forall i | 0 <= i < |items|
        ensures r.items[i] == Fill(p, t, items[i])
      {
        ReplacedByValues(p, t, items[i], r.items[i]);
      }
    case Obj(fields) =>
      forall k | k in fields
        ensures r.fields[k] == Fill(p, t, fields[k])
      {
        ReplacedByValues(p, t, fields[k], r.fields[k]);
      }
      assert r.fields == map k | k in fields :: Fill(p, t, fields[k]);
    case _ =>
  }

  /** What a detokenize request for `token` knows when the store it began on was one later than `p0`. */
  ghost predicate KnowsValue(p0: PlainStore, t: string, token: string, pc: Pc) {
    match pc
    case AtGate => true
    case AtFindToken => true
    case AtReadPAN => HasToken(p0, t, token)
    case AtTouch(v) => v == ValueOf(p0, t, token)
    case AtTakeCVV => !HasToken(p0, t, token)
    case Done(reply, _) => reply.Revealed? ==> reply.value == ValueOf(p0, t, token)
    case _ => false
  }

  lemma LookupKnows(env: Env, p0: PlainStore, p: PlainStore, t: string, token: string, pc: Pc, c: Choice)
    requires Later(p0, p) && (pc.AtGate? || pc.AtFindToken?)
    ensures var (s', pc') := Step(env, Plain(p), Detokenize(t, token), pc, c);
      s' == Plain(p) && KnowsValue(p0, t, token, pc')
  {
  }

  lemma ReadKnows(env: Env, p0: PlainStore, p: PlainStore, t: string, token: string, c: Choice)
    requires Later(p0, p) && HasToken(p0, t, token)
    ensures var (s', pc') := Step(env, Plain(p), Detokenize(t, token), AtReadPAN, c);
      s' == Plain(p) && KnowsValue(p0, t, token, pc')
  {
  }

  function Touched(p: PlainStore, token: string): PlainStore
    requires token in p.tokens
  {
    p.(tokens := p.tokens[token := p.tokens[token].(lastUsed := Some(p.now))])
  }

  lemma TouchStep(env: Env, p: PlainStore, t: string, token: string, v: string, c: Choice)
    ensures var (s', pc') := Step(env, Plain(p), Detokenize(t, token), AtTouch(v), c);
      (s' == Plain(p) || (token in p.tokens && s' == Plain(Touched(p, token)))) && pc' == Done(Revealed(v), p.now)
  {
  }

  lemma TouchKnows(env: Env, p0: PlainStore, p: PlainStore, t: string, token: string, v: string, c: Choice)
    requires Later(p0, p)
    ensures var (s', pc') := Step(env, Plain(p), Detokenize(t, token), AtTouch(v), c);
      s'.Plain? && Later(p0, s'.plain) && pc' == Done(Revealed(v), p.now)
  {
    TouchStep(env, p, t, token, v, c);
  }

  lemma TakeKnows(env: Env, p0: PlainStore, p: PlainStore, t: string, token: string, c: Choice)
    requires Later(p0, p) && !HasToken(p0, t, token)
    ensures var (s', pc') := Step(env, Plain(p), Detokenize(t, token), AtTakeCVV, c);
      s'.Plain? && Later(p0, s'.plain) && pc'.Done? && KnowsValue(p0, t, token, pc')
  {
  }

  lemma ValueStep(env: Env, p0: PlainStore, p: PlainStore, t: string, token: string, pc: Pc, c: Choice)
    requires Later(p0, p) && KnowsValue(p0, t, token, pc) && !pc.Done?
    ensures var (s', pc') := Step(env, Plain(p), Detokenize(t, token), pc, c);
      s'.Plain? && Later(p0, s'.plain) && KnowsValue(p0, t, token, pc')
  {
    match pc
    case AtGate => LookupKnows(env, p0, p, t, token, pc, c);
    case AtFindToken => LookupKnows(env, p0, p, t, token, pc, c);
    case AtReadPAN => ReadKnows(env, p0, p, t, token, c);
    case AtTouch(v) => TouchKnows(env, p0, p, t, token, v, c);
    case AtTakeCVV => TakeKnows(env, p0, p, t, token, c);
  }

  /** Whatever fails, a detokenize request answers with the value its token has, or with none. */
  lemma {:induction false} AnswersWithValue(
    env: Env, p0: PlainStore, p: PlainStore, t: string, token: string, pc: Pc, script: Script)
    requires Later(p0, p) && KnowsValue(p0, t, token, pc)
    ensures var (s', reply) := Complete(env, Plain(p), Detokenize(t, token), pc, script);
      s'.Plain? && Later(p0, s'.plain) && (reply.Revealed? ==> reply.value == ValueOf(p0, t, token))
    decreases Rank(pc)
  {
    if !pc.Done? {
      var r, c := Detokenize(t, token), ChoiceAt(script, pc);
      ValueStep(env, p0, p, t, token, pc, c);
      ResumeDescends(r, pc, c, Exec(env, Plain(p), CallOf(r, pc, c), c.fault).1, p.now);
      var (s', pc') := Step(env, Plain(p), r, pc, c);
      StepThenComplete(env, Plain(p), r, pc, script, s', pc');
      AnswersWithValue(env, p0, s'.plain, t, token, pc', script);
    }
  }

  lemma TokenizerAnswers(env: Env, p0: PlainStore, t: string, weather: Weather)
    ensures Answers(AskTokenizer(env, t, weather), (s: Remote) => s.store.Plain? && Later(p0, s.store.plain), IsValue(p0, t))
  {
    var ask := AskTokenizer(env, t, weather);
    forall s: Remote, token | s.store.Plain? && Later(p0, s.store.plain)
      ensures ask(s, token).0.store.Plain? && Later(p0, ask(s, token).0.store.plain)
      ensures ask(s, token).1.Some? ==> ask(s, token).1.value == ValueOf(p0, t, token)
    {
      var r := Detokenize(t, token);
      AnswersWithValue(env, p0, s.store.plain, t, token, Start(r, s.store.plain.now), weather(s.calls).script);
    }
  }

  /** Whatever goes wrong, a walk that succeeds produces the payload filled with the values the tokens had at its start. */
  lemma WalkFills(env: Env, p: PlainStore, n: nat, t: string, j: Json, o: Visit, weather: Weather)
    requires Visits(o, j)
    ensures var r := Walk(env, Remote(Plain(p), n), t, o, weather).result; r.Some? ==> r.value == Fill(p, t, j)
  {
    TokenizerAnswers(env, p, t, weather);
    var inv := (s: Remote) => s.store.Plain? && Later(p, s.store.plain);
    WalkReplaces(AskTokenizer(env, t, weather), inv, IsValue(p, t), Remote(Plain(p), n), o, j);
    var r := Walk(env, Remote(Plain(p), n), t, o, weather).result;
    if r.Some? {
      ReplacedByValues(p, t, j, r.value);
    }
  }

  /** Every call is counted, and one that is answered was sent and its reply arrived. */
  ghost predicate DeliversAnswers(ask: Oracle<Remote>, weather: Weather) {
    forall s, token {:trigger ask(s, token)} ::
      ask(s, token).0.calls == s.calls + 1 && (ask(s, token).1.Some? ==> weather(s.calls).net == Delivered)
  }

  lemma TokenizerDelivers(env: Env, t: string, weather: Weather)
    ensures DeliversAnswers(AskTokenizer(env, t, weather), weather)
  {
  }

  lemma {:induction false} AnsweredWereDelivered(ask: Oracle<Remote>, s: Remote, toks: seq<string>, weather: Weather)
    requires DeliversAnswers(ask, weather)
    ensures var (s', k) := AskAll(ask, s, toks);
      && s'.calls == s.calls + (if k == |toks| then k else k + 1)
      && forall i :: s.calls <= i < s.calls + k ==> weather(i).net == Delivered
    decreases |toks|
  {
    if toks != [] {
      AskAllStep(ask, s, toks);
      var (s', value) := ask(s, toks[0]);
      if value.Some? {
        AnsweredWereDelivered(ask, s', toks[1..], weather);
      }
    }
  }

  lemma CalmWalkResolves(env: Env, p: PlainStore, n: nat, t: string, o: Visit, weather: Weather)
    requires Calm(weather) && NoEmptyCVV(p)
    ensures var r, toks := Walk(env, Remote(Plain(p), n), t, o, weather), TokensOf(o);
      var (p', k) := ResolveAll(p, t, toks);
      && (r.result.Some? <==> k == |toks|) && r.calls == (if k == |toks| then k else k + 1)
      && r.state == Remote(Plain(p'), n + r.calls)
  {
    WalkAsksLeaves(AskTokenizer(env, t, weather), Remote(Plain(p), n), o);
    TokenizerResolves(env, t, weather);
    AskAllIsResolveAll(AskTokenizer(env, t, weather), p, p, n, t, TokensOf(o));
  }

  // Which token stops a walk, and what is left

  /** A token that has a value: an active PAN token or a live CVV token of the tenant. */
  predicate Resolvable(p: PlainStore, t: string, token: string) {
    Admitted(p, t) && (if HasToken(p, t, token) then p.tokens[token].active else LiveCVV(p, t, token))
  }

  /** The token at `i` can be resolved after those before it: a CVV token must not have been met before. */
  ghost predicate GoesOn(p: PlainStore, t: string, toks: seq<string>, i: nat)
    requires i < |toks|
  {
    Resolvable(p, t, toks[i]) && (HasToken(p, t, toks[i]) || toks[i] !in toks[..i])
  }

  /** `p` with the tokens in `done` resolved: the PAN tokens used now, the CVV tokens gone, nothing else changed. */
  function After(p: PlainStore, t: string, done: set<string>): PlainStore {
    p.(tokens := map id | id in p.tokens ::
                   if id in done && HasToken(p, t, id) then p.tokens[id].(lastUsed := Some(p.now)) else p.tokens[id],
       cvvs := map k | k in p.cvvs && !(k.0 == t && k.1 in done && !HasToken(p, t, k.1)) :: p.cvvs[k])
  }

  function Elements(toks: seq<string>): set<string> {
    set x | x in toks
  }

  lemma ResolveAfter(p: PlainStore, t: string, done: set<string>, token: string)
    requires Resolvable(p, t, token) && (HasToken(p, t, token) || token !in done)
    ensures Resolve(After(p, t, done), t, token).1.Some?
    ensures Resolve(After(p, t, done), t, token).0 == After(p, t, done + {token})
  {
    var q, q' := After(p, t, done), After(p, t, done + {token});
    if HasToken(p, t, token) {
      assert q.tokens[token := q.tokens[token].(lastUsed := Some(p.now))] == q'.tokens;
      assert q.cvvs == q'.cvvs;
    } else {
      assert (t, token) in q.cvvs;
      assert q.cvvs - {(t, token)} == q'.cvvs;
      assert q.tokens == q'.tokens;
    }
  }

  lemma StopsAfter(p: PlainStore, t: string, done: set<string>, token: string)
    requires !(Resolvable(p, t, token) && (HasToken(p, t, token) || token !in done))
    ensures Resolve(After(p, t, done), t, token) == (After(p, t, done), None)
  {
  }

  /** `p` with the first `n` tokens resolved. */
  function AfterFirst(p: PlainStore, t: string, toks: seq<string>, n: nat): PlainStore
    requires n <= |toks|
  {
    After(p, t, Elements(toks[..n]))
  }

  lemma ResolveOne(p: PlainStore, t: string, toks: seq<string>, i: nat)
    requires i < |toks|
    ensures var s := AfterFirst(p, t, toks, i); var (s', value) := Resolve(s, t, toks[i]);
      if GoesOn(p, t, toks, i) then value.Some? && s' == AfterFirst(p, t, toks, i + 1) else value.None? && s' == s
  {
    var done := Elements(toks[..i]);
    assert toks[..i + 1] == toks[..i] + [toks[i]];
    assert Elements(toks[..i + 1]) == done + {toks[i]};
    assert toks[i] in done <==> toks[i] in toks[..i];
    if GoesOn(p, t, toks, i) {
      ResolveAfter(p, t, done, toks[i]);
    } else {
      StopsAfter(p, t, done, toks[i]);
    }
  }

  lemma ResolveAllStep(p: PlainStore, t: string, toks: seq<string>)
    requires toks != []
    ensures var (p', value) := Resolve(p, t, toks[0]);
      ResolveAll(p, t, toks) == if value.None? then (p, 0) else (ResolveAll(p', t, toks[1..]).0, ResolveAll(p', t, toks[1..]).1 + 1)
  {
  }

  /** `n` is the first position from `i` on where the walk cannot go on. */
  ghost predicate StopsAt(p: PlainStore, t: string, toks: seq<string>, i: nat, n: nat) {
    && i <= n <= |toks| && (forall k :: i <= k < n ==> GoesOn(p, t, toks, k))
    && (n < |toks| ==> !GoesOn(p, t, toks, n))
  }

  /** Resolving the token at `i` takes `left[i]` to `left[i + 1]` if the walk can go on there, and fails otherwise. */
  ghost predicate LeavesAt(p: PlainStore, t: string, toks: seq<string>, left: seq<PlainStore>, i: nat)
    requires |left| == |toks| + 1 && i < |toks|
  {
    var (s', value) := Resolve(left[i], t, toks[i]);
    if GoesOn(p, t, toks, i) then value.Some? && s' == left[i + 1] else value.None? && s' == left[i]
  }

  ghost predicate Leaves(p: PlainStore, t: string, toks: seq<string>, left: seq<PlainStore>) {
    |left| == |toks| + 1 && forall i :: 0 <= i < |toks| ==> LeavesAt(p, t, toks, left, i)
  }

  /** A walk resolves the tokens before the first one that cannot go on, and leaves exactly those resolved. */
  lemma {:induction false} ResolveAllFrom(p: PlainStore, t: string, toks: seq<string>, left: seq<PlainStore>, i: nat)
    requires i <= |toks| && Leaves(p, t, toks, left)
    ensures var (p', m) := ResolveAll(left[i], t, toks[i..]);
      StopsAt(p, t, toks, i, i + m) && p' == left[i + m]
    decreases |toks| - i
  {
    if i < |toks| {
      assert toks[i..][0] == toks[i] && toks[i..][1..] == toks[i + 1..];
      assert LeavesAt(p, t, toks, left, i);
      ResolveAllStep(left[i], t, toks[i..]);
      if GoesOn(p, t, toks, i) {
        ResolveAllFrom(p, t, toks, left, i + 1);
      }
    }
  }

  lemma ResolveAllIs(p: PlainStore, t: string, toks: seq<string>)
    ensures var (p', n) := ResolveAll(p, t, toks);
      StopsAt(p, t, toks, 0, n) && p' == AfterFirst(p, t, toks, n)
  {
    assert AfterFirst(p, t, toks, 0) == p by {
      assert Elements(toks[..0]) == {};
      assert After(p, t, {}).tokens == p.tokens && After(p, t, {}).cvvs == p.cvvs;
    }
    var left := seq(|toks| + 1, n requires 0 <= n <= |toks| => AfterFirst(p, t, toks, n));
    forall i | 0 <= i < |toks|
      ensures LeavesAt(p, t, toks, left, i)
    {
      ResolveOne(p, t, toks, i);
    }
    assert toks[0..] == toks;
    assert left[0] == p;
    ResolveAllFrom(p, t, toks, left, 0);
  }

  // The guarantees

  /** Every token leaf has a value, and no CVV token is there twice. */
  ghost predicate AllResolvable(p: PlainStore, t: string, leaves: multiset<string>) {
    forall tok :: tok in leaves ==> Resolvable(p, t, tok) && (HasToken(p, t, tok) || leaves[tok] == 1)
  }

  lemma {:induction false} CountsRepeats(toks: seq<string>, i: nat)
    requires i < |toks| && multiset(toks)[toks[i]] == 1
    ensures toks[i] !in toks[..i]
  {
    assert toks == toks[..i] + [toks[i]] + toks[i + 1..];
    assert multiset(toks) == multiset(toks[..i]) + multiset{toks[i]} + multiset(toks[i + 1..]);
  }

  lemma {:induction false} RepeatStops(toks: seq<string>, tok: string) returns (i: nat)
    requires multiset(toks)[tok] > 1
    ensures i < |toks| && toks[i] == tok && tok in toks[..i]
    decreases |toks|
  {
    var n := |toks| - 1;
    assert toks == toks[..n] + [toks[n]];
    if toks[n] == tok {
      assert tok in multiset(toks[..n]);
      i := n;
    } else {
      i := RepeatStops(toks[..n], tok);
      assert toks[..n][..i] == toks[..i];
    }
  }

  /** A walk gets through exactly when every token leaf can be resolved, in whatever order. */
  lemma GetsThrough(p: PlainStore, t: string, toks: seq<string>)
    ensures (forall i :: 0 <= i < |toks| ==> GoesOn(p, t, toks, i)) <==> AllResolvable(p, t, multiset(toks))
  {
    if forall i :: 0 <= i < |toks| ==> GoesOn(p, t, toks, i) {
      forall tok | tok in multiset(toks)
        ensures Resolvable(p, t, tok) && (HasToken(p, t, tok) || multiset(toks)[tok] == 1)
      {
        var i :| 0 <= i < |toks| && toks[i] == tok;
        assert GoesOn(p, t, toks, i);
        if multiset(toks)[tok] > 1 {
          var k := RepeatStops(toks, tok);
          assert GoesOn(p, t, toks, k);
        }
      }
    }
    if AllResolvable(p, t, multiset(toks)) {
      forall i | 0 <= i < |toks|
        ensures GoesOn(p, t, toks, i)
      {
        assert toks[i] in multiset(toks);
        if !HasToken(p, t, toks[i]) {
          CountsRepeats(toks, i);
        }
      }
    }
  }

  /**
    With no other request and no failure in between, every order succeeds or every order fails, and success gives the
    same tree, the same store and the same number of calls: one for each token leaf.
   */
  lemma OrderDoesNotMatter(env: Env, p: PlainStore, n: nat, t: string, j: Json, o: Visit, weather: Weather)
    requires Calm(weather) && NoEmptyCVV(p) && Visits(o, j)
    ensures var r := Walk(env, Remote(Plain(p), n), t, o, weather);
      && (r.result.Some? <==> AllResolvable(p, t, LeafBag(j)))
      && (r.result.Some? ==>
            && r.result.value == Fill(p, t, j)
            && r.state.store == Plain(After(p, t, set tok | tok in LeafBag(j)))
            && r.calls == |LeafBag(j)|)
  {
    var toks := TokensOf(o);
    CalmWalkResolves(env, p, n, t, o, weather);
    WalkFills(env, p, n, t, j, o, weather);
    ResolveAllIs(p, t, toks);
    VisitMeetsLeaves(o, j);
    GetsThrough(p, t, toks);
    assert toks[..|toks|] == toks;
    assert Elements(toks) == set tok | tok in LeafBag(j) by {
      assert forall tok :: tok in toks <==> tok in multiset(toks);
    }
  }

  /**
    A calm walk that fails has resolved exactly the token leaves before the failing one in the order taken: their CVV
    tokens are gone and none is restored; it made one call for each and one for the failing leaf, and stopped.
   */
  lemma FailedWalk(env: Env, p: PlainStore, n: nat, t: string, j: Json, o: Visit, weather: Weather) returns (k: nat)
    requires Calm(weather) && NoEmptyCVV(p) && Visits(o, j)
    requires Walk(env, Remote(Plain(p), n), t, o, weather).result.None?
    ensures k < |TokensOf(o)|
    ensures forall i :: 0 <= i < k ==> GoesOn(p, t, TokensOf(o), i)
    ensures !GoesOn(p, t, TokensOf(o), k)
    ensures Walk(env, Remote(Plain(p), n), t, o, weather).state
         == Remote(Plain(After(p, t, Elements(TokensOf(o)[..k]))), n + k + 1)
  {
    CalmWalkResolves(env, p, n, t, o, weather);
    ResolveAllIs(p, t, TokensOf(o));
    k := ResolveAll(p, t, TokensOf(o)).1;
  }

  /** Stored values are digits. */
  ghost predicate OnlyDigits(p: PlainStore) {
    && (forall id :: id in p.vault ==> AllDigits(p.vault[id].pan))
    && (forall k :: k in p.cvvs ==> AllDigits(p.cvvs[k].value))
  }

  lemma {:induction false} FillKeepsShape(p: PlainStore, t: string, j: Json)
    requires OnlyDigits(p)
    ensures SameShape(j, Fill(p, t, j))
    decreases j
  {
    match j
    case Str(text) => DigitsAreNotTokenShaped(ValueOf(p, t, text));
    case Arr(items) =>
      forall i | 0 <= i < |items|
        ensures SameShape(items[i], Fill(p, t, items[i]))
      {
        FillKeepsShape(p, t, items[i]);
      }
    case Obj(fields) =>
      forall k | k in fields
        ensures SameShape(fields[k], Fill(p, t, fields[k]))
      {
        FillKeepsShape(p, t, fields[k]);
      }
    case _ =>
  }

  lemma {:induction false} FillOfTokenFree(p: PlainStore, t: string, j: Json)
    requires TokenFree(j)
    ensures Fill(p, t, j) == j
    decreases j
  {
    match j
    case Arr(items) =>
      forall i | 0 <= i < |items|
        ensures Fill(p, t, items[i]) == items[i]
      {
        FillOfTokenFree(p, t, items[i]);
      }
    case Obj(fields) =>
      forall k | k in fields
        ensures Fill(p, t, fields[k]) == fields[k]
      {
        FillOfTokenFree(p, t, fields[k]);
      }
      assert (map k | k in fields :: Fill(p, t, fields[k])) == fields;
    case _ =>
  }
}
