/** The sealed store stands for the plain one, and every call keeps it so and gives the same answer on both. */
module Refinement {
  import opened Options
  import opened Bytes
  import opened Card
  import opened Identifiers
  import opened Envelope
  import opened Stores
  import T = Tables

  predicate Known(env: Env, t: string, pan: string) {
    ColonFree(t) && BlindPreimage(t, pan) in env.used
  }

  ghost predicate RowMatches(env: Env, row: T.TokenRow, token: PlainToken) {
    && row.tenant == token.tenant && row.active == token.active && row.lastUsed == token.lastUsed
    && row.blindIndex == BlindIndex(env.crypto, token.tenant, token.pan)
  }

  ghost predicate TokensMatch(env: Env, rows: map<string, T.TokenRow>, tokens: map<string, PlainToken>) {
    && rows.Keys == tokens.Keys
    && forall id :: id in tokens ==> RowMatches(env, rows[id], tokens[id])
  }

  ghost predicate IndexAt(
    env: Env, byBlind: map<(string, string), string>, byPan: map<(string, string), string>, t: string, pan: string)
  {
    var k := (t, BlindIndex(env.crypto, t, pan));
    && (k in byBlind <==> (t, pan) in byPan)
    && (k in byBlind ==> byBlind[k] == byPan[(t, pan)])
  }

  ghost predicate IndexMatches(
    env: Env, byBlind: map<(string, string), string>, byPan: map<(string, string), string>)
  {
    forall t, pan :: Known(env, t, pan) ==> IndexAt(env, byBlind, byPan, t, pan)
  }

  ghost predicate PANMatches(env: Env, row: T.VaultRow, pan: PlainPAN) {
    && row.tenant == pan.tenant && row.keyID == pan.keyID
    && OpenPAN(env.crypto, row.sealed) == Some(pan.pan) && row.sealed.wrapped.arn == row.keyID
  }

  ghost predicate VaultMatches(env: Env, rows: map<string, T.VaultRow>, vault: map<string, PlainPAN>) {
    && rows.Keys == vault.Keys
    && forall id :: id in vault ==> PANMatches(env, rows[id], vault[id])
  }

  ghost predicate CVVAt(env: Env, ks: T.Keyspace, cvvs: map<(string, string), Timed>, t: string, id: string) {
    var k := CvvTokenKey(t, id);
    && (k in ks <==> (t, id) in cvvs)
    && (k in ks ==> ks[k].expires == cvvs[(t, id)].expires && OpenCVV(env.crypto, ks[k].value) == cvvs[(t, id)].value)
  }

  ghost predicate OwnerAt(ks: T.Keyspace, owners: map<(string, string), Timed>, t: string, id: string) {
    var k := CvvOwnerKey(t, id);
    && (k in ks <==> (t, id) in owners)
    && (k in ks ==> ks[k].expires == owners[(t, id)].expires && Decode(ks[k].value) == owners[(t, id)].value)
  }

  ghost predicate CVVsMatch(env: Env, ks: T.Keyspace, cvvs: map<(string, string), Timed>) {
    forall t, id :: ColonFree(t) ==> CVVAt(env, ks, cvvs, t, id)
  }

  ghost predicate OwnersMatch(ks: T.Keyspace, owners: map<(string, string), Timed>) {
    forall t, id :: ColonFree(t) ==> OwnerAt(ks, owners, t, id)
  }

  /** `c` holds, in sealed form and under string keys, exactly what `p` holds. */
  ghost predicate Represents(env: Env, c: SealedStore, p: PlainStore) {
    && c.now == p.now
    && c.tables.tenants == p.tenants
    && TokensMatch(env, c.tables.tokens, p.tokens)
    && IndexMatches(env, c.tables.byBlind, p.byPan)
    && VaultMatches(env, c.tables.vault, p.vault)
    && CVVsMatch(env, c.keys, p.cvvs)
    && OwnersMatch(c.keys, p.owners)
  }

  /** What the handlers guarantee about their calls. */
  ghost predicate CallFits(env: Env, call: Call) {
    match call
    case FindByPAN(t, pan) => Known(env, t, pan)
    case InsertToken(t, _, pan) => Known(env, t, pan)
    case InsertPAN(_, _, pan, _, sealing) => Latin(pan) && ValidSealing(sealing)
    case PutCVV(t, _, cvv, sealing) =>
      ColonFree(t) && ValidCVV(cvv) && ValidSealing(sealing)
    case TakeCVV(t, _) => ColonFree(t)
    case ProbeCVV(t, _) => ColonFree(t)
    case GetOwner(t, _) => ColonFree(t)
    case DropCVV(t, _) => ColonFree(t)
    case SetOwner(t, _, token) => ColonFree(t) && Latin(token)
    case _ => true
  }

  /** A new index entry for `(t, pan)` changes the lookups of no other tenant or PAN. */
  lemma IndexAfterInsert(
    env: Env, byBlind: map<(string, string), string>, byPan: map<(string, string), string>, t: string, pan: string,
    token: string)
    requires Lawful(env.crypto, env.used) && IndexMatches(env, byBlind, byPan) && Known(env, t, pan)
    ensures IndexMatches(env, byBlind[(t, BlindIndex(env.crypto, t, pan)) := token], byPan[(t, pan) := token])
  {
    forall t', pan' | Known(env, t', pan')
      ensures IndexAt(env, byBlind[(t, BlindIndex(env.crypto, t, pan)) := token], byPan[(t, pan) := token], t', pan')
    {
      BlindIndexInjective(env.crypto, env.used, t, pan, t', pan');
      assert IndexAt(env, byBlind, byPan, t', pan');
    }
  }

  lemma TokensAfterSet(
    env: Env, rows: map<string, T.TokenRow>, tokens: map<string, PlainToken>, id: string, row: T.TokenRow, token: PlainToken)
    requires TokensMatch(env, rows, tokens) && RowMatches(env, row, token)
    ensures TokensMatch(env, rows[id := row], tokens[id := token])
  {
  }

  lemma InsertTokenAnswers(env: Env, c: SealedStore, p: PlainStore, call: Call)
    requires Represents(env, c, p) && call.InsertToken? && CallFits(env, call)
    ensures ApplySealed(env, c, call).1 == ApplyPlain(env, p, call).1
    ensures ApplyPlain(env, p, call).1 != Ack ==> ApplySealed(env, c, call).0 == c && ApplyPlain(env, p, call).0 == p
  {
    assert IndexAt(env, c.tables.byBlind, p.byPan, call.tenant, call.pan);
  }

  lemma InsertTokenAgrees(env: Env, c: SealedStore, p: PlainStore, call: Call)
    requires Lawful(env.crypto, env.used) && Represents(env, c, p) && call.InsertToken? && CallFits(env, call)
    ensures ApplySealed(env, c, call).1 == ApplyPlain(env, p, call).1
    ensures Represents(env, ApplySealed(env, c, call).0, ApplyPlain(env, p, call).0)
  {
    InsertTokenAnswers(env, c, p, call);
    if ApplyPlain(env, p, call).1 == Ack {
      var t, pan, id := call.tenant, call.pan, call.token;
      IndexAfterInsert(env, c.tables.byBlind, p.byPan, t, pan, id);
      TokensAfterSet(env, c.tables.tokens, p.tokens, id,
                     T.TokenRow(t, BlindIndex(env.crypto, t, pan), true, None), PlainToken(t, pan, true, None));
    }
  }

  lemma VaultAfterSet(
    env: Env, rows: map<string, T.VaultRow>, vault: map<string, PlainPAN>, id: string, row: T.VaultRow, pan: PlainPAN)
    requires VaultMatches(env, rows, vault) && PANMatches(env, row, pan)
    ensures VaultMatches(env, rows[id := row], vault[id := pan])
  {
  }

  lemma InsertPANAgrees(env: Env, c: SealedStore, p: PlainStore, call: Call)
    requires Lawful(env.crypto, env.used) && Represents(env, c, p) && call.InsertPAN? && CallFits(env, call)
    ensures ApplySealed(env, c, call).1 == ApplyPlain(env, p, call).1
    ensures Represents(env, ApplySealed(env, c, call).0, ApplyPlain(env, p, call).0)
  {
    var t, id, pan, arn := call.tenant, call.token, call.pan, call.arn;
    PANRoundTrip(env.crypto, env.used, pan, arn, call.sealing);
    VaultAfterSet(env, c.tables.vault, p.vault, id,
                  T.VaultRow(t, SealPAN(env.crypto, pan, arn, call.sealing), arn), PlainPAN(t, pan, arn));
  }

  lemma TokenUpdateAgrees(env: Env, c: SealedStore, p: PlainStore, call: Call)
    requires Represents(env, c, p) && (call.StopToken? || call.Touch?)
    ensures ApplySealed(env, c, call).1 == ApplyPlain(env, p, call).1
    ensures Represents(env, ApplySealed(env, c, call).0, ApplyPlain(env, p, call).0)
  {
    var id := call.token;
    if HasToken(p, call.tenant, id) {
      assert RowMatches(env, c.tables.tokens[id], p.tokens[id]);
      var row, token := c.tables.tokens[id], p.tokens[id];
      if call.StopToken? {
        TokensAfterSet(env, c.tables.tokens, p.tokens, id, row.(active := false), token.(active := false));
      } else {
        TokensAfterSet(env, c.tables.tokens, p.tokens, id, row.(lastUsed := Some(c.now)), token.(lastUsed := Some(c.now)));
      }
    } else if id in p.tokens {
      assert RowMatches(env, c.tables.tokens[id], p.tokens[id]);
    }
  }

  lemma TenantUpdateAgrees(env: Env, c: SealedStore, p: PlainStore, call: Call)
    requires Represents(env, c, p) && (call.StopTenant? || call.InsertTenant?)
    ensures ApplySealed(env, c, call).1 == ApplyPlain(env, p, call).1
    ensures Represents(env, ApplySealed(env, c, call).0, ApplyPlain(env, p, call).0)
  {
  }

  lemma RowReadAgrees(env: Env, c: SealedStore, p: PlainStore, call: Call)
    requires Represents(env, c, p) && CallFits(env, call)
    requires call.FindTenant? || call.FindByPAN? || call.FindToken? || call.ReadPAN?
    ensures ApplySealed(env, c, call) == (c, ApplyPlain(env, p, call).1) && ApplyPlain(env, p, call).0 == p
  {
    if call.FindByPAN? {
      assert IndexAt(env, c.tables.byBlind, p.byPan, call.tenant, call.pan);
    }
  }

  /** Writing one CVV key touches one CVV entry and no owner entry. */
  lemma CVVsAfterSet(env: Env, ks: T.Keyspace, cvvs: map<(string, string), Timed>, owners: map<(string, string), Timed>,
                     t: string, id: string, e: T.Entry, v: Timed)
    requires CVVsMatch(env, ks, cvvs) && OwnersMatch(ks, owners) && ColonFree(t)
    requires e.expires == v.expires && OpenCVV(env.crypto, e.value) == v.value
    ensures CVVsMatch(env, ks[CvvTokenKey(t, id) := e], cvvs[(t, id) := v])
    ensures OwnersMatch(ks[CvvTokenKey(t, id) := e], owners)
  {
    var ks', cvvs' := ks[CvvTokenKey(t, id) := e], cvvs[(t, id) := v];
    forall t', id' | ColonFree(t')
      ensures CVVAt(env, ks', cvvs', t', id') && OwnerAt(ks', owners, t', id')
    {
      CvvTokenKeyInjective(t, id, t', id');
      KeyFamiliesDisjoint(t, id, t', id');
      assert CVVAt(env, ks, cvvs, t', id') && OwnerAt(ks, owners, t', id');
    }
  }

  lemma CVVsAfterDrop(env: Env, ks: T.Keyspace, cvvs: map<(string, string), Timed>, owners: map<(string, string), Timed>,
                      t: string, id: string)
    requires CVVsMatch(env, ks, cvvs) && OwnersMatch(ks, owners) && ColonFree(t)
    ensures CVVsMatch(env, ks - {CvvTokenKey(t, id)}, cvvs - {(t, id)})
    ensures OwnersMatch(ks - {CvvTokenKey(t, id)}, owners)
  {
    var ks', cvvs' := ks - {CvvTokenKey(t, id)}, cvvs - {(t, id)};
    forall t', id' | ColonFree(t')
      ensures CVVAt(env, ks', cvvs', t', id') && OwnerAt(ks', owners, t', id')
    {
      CvvTokenKeyInjective(t, id, t', id');
      KeyFamiliesDisjoint(t, id, t', id');
      assert CVVAt(env, ks, cvvs, t', id') && OwnerAt(ks, owners, t', id');
    }
  }

  lemma OwnersAfterSet(env: Env, ks: T.Keyspace, cvvs: map<(string, string), Timed>, owners: map<(string, string), Timed>,
                       t: string, id: string, e: T.Entry, v: Timed)
    requires CVVsMatch(env, ks, cvvs) && OwnersMatch(ks, owners) && ColonFree(t)
    requires e.expires == v.expires && Decode(e.value) == v.value
    ensures CVVsMatch(env, ks[CvvOwnerKey(t, id) := e], cvvs)
    ensures OwnersMatch(ks[CvvOwnerKey(t, id) := e], owners[(t, id) := v])
  {
    var ks', owners' := ks[CvvOwnerKey(t, id) := e], owners[(t, id) := v];
    forall t', id' | ColonFree(t')
      ensures CVVAt(env, ks', cvvs, t', id') && OwnerAt(ks', owners', t', id')
    {
      CvvOwnerKeyInjective(t, id, t', id');
      KeyFamiliesDisjoint(t', id', t, id);
      assert CVVAt(env, ks, cvvs, t', id') && OwnerAt(ks, owners, t', id');
    }
  }

  lemma CVVCallAgrees(env: Env, c: SealedStore, p: PlainStore, call: Call)
    requires Lawful(env.crypto, env.used) && Represents(env, c, p) && CallFits(env, call)
    requires call.PutCVV? || call.TakeCVV? || call.ProbeCVV? || call.DropCVV?
    ensures ApplySealed(env, c, call).1 == ApplyPlain(env, p, call).1
    ensures Represents(env, ApplySealed(env, c, call).0, ApplyPlain(env, p, call).0)
  {
    var t, id := call.tenant, call.token;
    assert CVVAt(env, c.keys, p.cvvs, t, id);
    if call.PutCVV? {
      CVVRoundTrip(env.crypto, env.used, call.cvv, call.sealing);
      CVVsAfterSet(env, c.keys, p.cvvs, p.owners, t, id,
                   T.Entry(SealCVV(env.crypto, call.cvv, call.sealing), T.ExpiryAfter(c.now, env.ttl)),
                   Timed(call.cvv, T.ExpiryAfter(p.now, env.ttl)));
    } else {
      CVVsAfterDrop(env, c.keys, p.cvvs, p.owners, t, id);
    }
  }

  lemma OwnerCallAgrees(env: Env, c: SealedStore, p: PlainStore, call: Call)
    requires Represents(env, c, p) && CallFits(env, call) && (call.GetOwner? || call.SetOwner?)
    ensures ApplySealed(env, c, call).1 == ApplyPlain(env, p, call).1
    ensures Represents(env, ApplySealed(env, c, call).0, ApplyPlain(env, p, call).0)
  {
    assert OwnerAt(c.keys, p.owners, call.tenant, call.panToken);
    if call.SetOwner? {
      DecodeEncode(call.token);
      OwnersAfterSet(env, c.keys, p.cvvs, p.owners, call.tenant, call.panToken,
                     T.Entry(Encode(call.token), T.ExpiryAfter(c.now, env.ttl)), Timed(call.token, T.ExpiryAfter(p.now, env.ttl)));
    }
  }

  /** One call: the same answer from both stores, and they still hold the same. */
  lemma CallAgrees(env: Env, c: SealedStore, p: PlainStore, call: Call)
    requires Lawful(env.crypto, env.used) && Represents(env, c, p) && CallFits(env, call)
    ensures ApplySealed(env, c, call).1 == ApplyPlain(env, p, call).1
    ensures Represents(env, ApplySealed(env, c, call).0, ApplyPlain(env, p, call).0)
  {
    match call
    case InsertToken(_, _, _) => InsertTokenAgrees(env, c, p, call);
    case InsertPAN(_, _, _, _, _) => InsertPANAgrees(env, c, p, call);
    case StopToken(_, _) => TokenUpdateAgrees(env, c, p, call);
    case Touch(_, _) => TokenUpdateAgrees(env, c, p, call);
    case StopTenant(_) => TenantUpdateAgrees(env, c, p, call);
    case InsertTenant(_, _, _) => TenantUpdateAgrees(env, c, p, call);
    case PutCVV(_, _, _, _) => CVVCallAgrees(env, c, p, call);
    case TakeCVV(_, _) => CVVCallAgrees(env, c, p, call);
    case ProbeCVV(_, _) => CVVCallAgrees(env, c, p, call);
    case DropCVV(_, _) => CVVCallAgrees(env, c, p, call);
    case GetOwner(_, _) => OwnerCallAgrees(env, c, p, call);
    case SetOwner(_, _, _) => OwnerCallAgrees(env, c, p, call);
    case _ => RowReadAgrees(env, c, p, call);
  }
}
