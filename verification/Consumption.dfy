/** Which CVV tokens a walk uses up, whatever goes wrong with its calls. */
module Consumption {
  import opened Options
  import opened Identifiers
  import opened Stores
  import opened Refinement
  import opened Requests
  import opened Machine
  import opened Lockstep
  import opened Invariants
  import opened Guarantees
  import opened Lookups
  import opened Json
  import opened Walks
  import opened Reveal
  import opened RevealRuns

  /** The CVVs of `p` without those of the CVV tokens among `toks`. */
  function CVVsWithout(p: PlainStore, t: string, toks: seq<string>): map<(string, string), Timed> {
    map k | k in p.cvvs && !(k.0 == t && k.1 in toks && !HasToken(p, t, k.1)) :: p.cvvs[k]
  }

  /** The request of the call gets as far as to send the command that takes the CVV, and finds it alive. */
  predicate Takes(p: PlainStore, t: string, token: string, script: Script) {
    && Admitted(p, t) && script.gate.fault == Fine && script.find.fault == Fine
    && !HasToken(p, t, token) && LiveCVV(p, t, token) && (script.take.fault == Fine || script.take.fault == LostReply)
  }

  /** The CVVs a detokenize request leaves, whatever fails, and when it may have got a value. */
  ghost predicate Took(p: PlainStore, s: Store, t: string, token: string, got: bool, takes: bool) {
    && s.Plain? && s.plain.cvvs == (if takes then p.cvvs - {(t, token)} else p.cvvs)
    && (got ==> takes || HasToken(p, t, token))
  }

  lemma GateTakesNothing(env: Env, p: PlainStore, t: string, token: string, c: Choice)
    requires ValidTenantID(t)
    ensures var (s', pc') := Step(env, Plain(p), Detokenize(t, token), AtGate, c);
      && s' == Plain(p)
      && if Admitted(p, t) && c.fault == Fine then pc' == AtFindToken else pc'.Done? && pc'.reply.Refused?
  {
  }

  lemma LookupTakesNothing(env: Env, p: PlainStore, t: string, token: string, c: Choice)
    ensures var (s', pc') := Step(env, Plain(p), Detokenize(t, token), AtFindToken, c);
      && s' == Plain(p)
      && if c.fault != Fine then pc'.Done? && pc'.reply.Refused?
         else if HasToken(p, t, token) then pc'.AtReadPAN? || (pc'.Done? && pc'.reply.Refused?) else pc' == AtTakeCVV
  {
  }

  lemma {:induction false} ReadTakesNothing(env: Env, p: PlainStore, t: string, token: string, pc: Pc, script: Script)
    requires pc.AtReadPAN? || pc.AtTouch? || pc.Done?
    ensures var s' := Complete(env, Plain(p), Detokenize(t, token), pc, script).0; s'.Plain? && s'.plain.cvvs == p.cvvs
    decreases Rank(pc)
  {
    if !pc.Done? {
      var r, c := Detokenize(t, token), ChoiceAt(script, pc);
      CallFootprint(env, p, CallOf(r, pc, c), c.fault);
      ResumeDescends(r, pc, c, Exec(env, Plain(p), CallOf(r, pc, c), c.fault).1, p.now);
      var (s', pc') := Step(env, Plain(p), r, pc, c);
      StepThenComplete(env, Plain(p), r, pc, script, s', pc');
      ReadTakesNothing(env, s'.plain, t, token, pc', script);
    }
  }

  lemma TakeTakes(env: Env, p: PlainStore, t: string, token: string, c: Choice)
    ensures var (s', pc') := Step(env, Plain(p), Detokenize(t, token), AtTakeCVV, c);
      var takes := LiveCVV(p, t, token) && (c.fault == Fine || c.fault == LostReply);
      pc'.Done? && s'.Plain? && (pc'.reply.Revealed? ==> takes)
      && s'.plain.cvvs == if takes then p.cvvs - {(t, token)} else p.cvvs
  {
  }

  lemma PastGateTakes(env: Env, p: PlainStore, t: string, token: string, script: Script)
    requires Admitted(p, t) && script.gate.fault == Fine
    ensures var (s', reply) := Complete(env, Plain(p), Detokenize(t, token), AtFindToken, script);
      Took(p, s', t, token, reply.Revealed?, Takes(p, t, token, script))
  {
    var s, r := Plain(p), Detokenize(t, token);
    LookupTakesNothing(env, p, t, token, script.find);
    var pc' := Step(env, s, r, AtFindToken, script.find).1;
    StepThenComplete(env, s, r, AtFindToken, script, s, pc');
    if pc'.AtTakeCVV? {
      TakeTakes(env, p, t, token, script.take);
      var (s', pc'') := Step(env, s, r, AtTakeCVV, script.take);
      StepThenComplete(env, s, r, AtTakeCVV, script, s', pc'');
    } else {
      ReadTakesNothing(env, p, t, token, pc', script);
    }
  }

  lemma RequestTakes(env: Env, p: PlainStore, t: string, token: string, script: Script)
    ensures var (s', reply) := Serve(env, Plain(p), Detokenize(t, token), script);
      Took(p, s', t, token, reply.Revealed?, Takes(p, t, token, script))
  {
    var s, r := Plain(p), Detokenize(t, token);
    if ValidTenantID(t) {
      GateTakesNothing(env, p, t, token, script.gate);
      var pc' := Step(env, s, r, AtGate, script.gate).1;
      StepThenComplete(env, s, r, AtGate, script, s, pc');
      if pc' == AtFindToken {
        PastGateTakes(env, p, t, token, script);
      }
    }
  }

  /** The call reached the tokenizer, and its request takes the CVV. */
  predicate TakenBy(p: PlainStore, t: string, token: string, fate: Fate) {
    !fate.net.Unsent? && Takes(p, t, token, fate.script)
  }

  /** What one call of a walk did to the store. */
  ghost predicate CallTook(p0: PlainStore, p: PlainStore, s: Store, t: string, token: string, got: bool, fate: Fate) {
    Took(p, s, t, token, got, TakenBy(p, t, token, fate)) && Later(p0, s.plain)
  }

  /** Each call of the oracle does to the CVVs what a detokenize request does. */
  ghost predicate TakesOne(ask: Oracle<Remote>, p0: PlainStore, t: string, weather: Weather) {
    forall p: PlainStore, n: nat, token: string {:trigger ask(Remote(Plain(p), n), token)} :: Later(p0, p) ==>
      var (s', value) := ask(Remote(Plain(p), n), token);
      s'.calls == n + 1 && CallTook(p0, p, s'.store, t, token, value.Some?, weather(n))
  }

  lemma TokenizerTakesOne(env: Env, p0: PlainStore, t: string, weather: Weather)
    ensures TakesOne(AskTokenizer(env, t, weather), p0, t, weather)
  {
    TokenizerAnswers(env, p0, t, weather);
    var ask := AskTokenizer(env, t, weather);
    forall p: PlainStore, n: nat, token: string | Later(p0, p)
      ensures var (s', value) := ask(Remote(Plain(p), n), token);
        s'.calls == n + 1 && CallTook(p0, p, s'.store, t, token, value.Some?, weather(n))
    {
      RequestTakes(env, p, t, token, weather(n).script);
    }
  }

  /** The tokens at which a CVV was taken by a walk that got to position `k`. */
  function UsedUp(p: PlainStore, t: string, toks: seq<string>, k: nat, fate: Fate): seq<string>
    requires k <= |toks|
  {
    if k < |toks| && TakenBy(p, t, toks[k], fate) then toks[..k + 1] else toks[..k]
  }

  lemma OneMoreTaken(
    p0: PlainStore, p: PlainStore, s: Store, t: string, toks: seq<string>, i: nat, got: bool, fate: Fate)
    requires i < |toks| && Later(p0, p) && p.cvvs == CVVsWithout(p0, t, toks[..i])
    requires CallTook(p0, p, s, t, toks[i], got, fate)
    ensures s.plain.cvvs == CVVsWithout(p0, t, if got then toks[..i + 1] else UsedUp(p0, t, toks, i, fate))
  {
    assert toks[..i + 1] == toks[..i] + [toks[i]];
    assert HasToken(p, t, toks[i]) <==> HasToken(p0, t, toks[i]);
    assert (t, toks[i]) in p.cvvs ==> p.cvvs[(t, toks[i])] == p0.cvvs[(t, toks[i])];
    assert (t, toks[i]) !in p.cvvs && (t, toks[i]) in p0.cvvs ==> toks[i] in toks[..i];
    assert toks[i] in toks[..i] ==> CVVsWithout(p0, t, toks[..i + 1]) == CVVsWithout(p0, t, toks[..i]);
  }

  /** `at` is the position, and `call` the number of the call, where asking from position `i` on stops. */
  lemma {:induction false} AskAllUsesUp(
    ask: Oracle<Remote>, p0: PlainStore, p: PlainStore, n: nat, t: string, toks: seq<string>, i: nat, weather: Weather)
    returns (at: nat, call: nat)
    requires TakesOne(ask, p0, t, weather)
    requires i <= |toks| && Later(p0, p) && p.cvvs == CVVsWithout(p0, t, toks[..i])
    ensures var (s', k) := AskAll(ask, Remote(Plain(p), n), toks[i..]);
      && at == i + k <= |toks| && call == n + k && s'.store.Plain?
      && s'.store.plain.cvvs == CVVsWithout(p0, t, UsedUp(p0, t, toks, at, weather(call)))
    decreases |toks| - i
  {
    at, call := i, n;
    if i < |toks| {
      assert toks[i..][0] == toks[i] && toks[i..][1..] == toks[i + 1..];
      AskAllStep(ask, Remote(Plain(p), n), toks[i..]);
      var (s', value) := ask(Remote(Plain(p), n), toks[i]);
      OneMoreTaken(p0, p, s'.store, t, toks, i, value.Some?, weather(n));
      if value.Some? {
        assert s' == Remote(Plain(s'.store.plain), n + 1);
        at, call := AskAllUsesUp(ask, p0, s'.store.plain, n + 1, t, toks, i + 1, weather);
      }
    }
  }

  lemma OracleWalkUsesUp(ask: Oracle<Remote>, p: PlainStore, n: nat, t: string, o: Visit, weather: Weather) returns (k: nat)
    requires TakesOne(ask, p, t, weather)
    ensures var r := WalkBy(ask, Remote(Plain(p), n), o);
      && k <= |TokensOf(o)| && r.state.store.Plain?
      && r.state.store.plain.cvvs == CVVsWithout(p, t, UsedUp(p, t, TokensOf(o), k, weather(n + k)))
      && (r.result.Some? <==> k == |TokensOf(o)|) && r.calls == if k == |TokensOf(o)| then k else k + 1
  {
    var toks := TokensOf(o);
    assert toks[..0] == [] && toks[0..] == toks;
    assert CVVsWithout(p, t, []) == p.cvvs;
    WalkAsksLeaves(ask, Remote(Plain(p), n), o);
    var call;
    k, call := AskAllUsesUp(ask, p, p, n, t, toks, 0, weather);
  }

  /**
    At any point of any run and whatever goes wrong with its calls: the CVV tokens a walk has used up are exactly those at
    the token leaves that were answered before it stopped, in the order taken, and none is restored; the one it stopped at
    is used up as well exactly when its call reached the tokenizer, was let through, and sent the command that took it: then
    the reply was lost, and the CVV with it.
   */
  lemma RevealUsesUp(env: Env, now: int, ls: seq<Label>, n: nat, t: string, o: Visit, weather: Weather)
    returns (k: nat, q: Store)
    requires Reached(env, now, ls) && WeatherFits(env, weather)
    ensures var r, p := Walk(env, Remote(WorldAt(env, now, ls).store, n), t, o, weather), TwinAt(env, now, ls).store.plain;
      && SameStore(env, r.state.store, q) && k <= |TokensOf(o)|
      && q.plain.cvvs == CVVsWithout(p, t, UsedUp(p, t, TokensOf(o), k, weather(n + k)))
      && (r.result.Some? <==> k == |TokensOf(o)|) && r.calls == if k == |TokensOf(o)| then k else k + 1
  {
    TwinHolds(env, now, ls);
    var s, p := Remote(WorldAt(env, now, ls).store, n), TwinAt(env, now, ls).store;
    WalkAgrees(env, s, Remote(p, n), t, o, weather);
    TokenizerTakesOne(env, p.plain, t, weather);
    k := OracleWalkUsesUp(AskTokenizer(env, t, weather), p.plain, n, t, o, weather);
    q := Walk(env, Remote(p, n), t, o, weather).state.store;
  }
}
