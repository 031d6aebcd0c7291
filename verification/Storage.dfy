/**
  The database, the Redis server and the repositories in front of them, as objects whose fields the methods update.
  Each call may fail: before it took effect, or after it with the reply lost.
 */
module Storage {
  import opened Options
  import opened Bytes
  import opened Identifiers
  import opened Stores
  import T = Tables

  /** Whether a statement takes effect. */
  predicate Sent(fault: Fault) {
    fault == Fine || fault == LostReply
  }

  class Postgres {
    var tenants: map<string, T.TenantRow>
    var tokens: map<string, T.TokenRow>
    var byBlind: map<(string, string), string>
    var vault: map<string, T.VaultRow>

    function Tables(): T.Tables
      reads this
    {
      T.Tables(tenants, tokens, byBlind, vault)
    }
  }

  class RedisServer {
    var now: int
    var keys: T.Keyspace

    method Set(key: string, value: Bytes, ttl: int, fault: Fault) returns (ok: bool)
      modifies this`keys
      ensures keys == if Sent(fault) then T.RedisSet(old(keys), now, key, value, ttl) else old(keys)
      ensures ok <==> fault == Fine
    {
      if Sent(fault) {
        keys := keys[key := T.Entry(value, T.ExpiryAfter(now, ttl))];
      }
      return fault == Fine;
    }

    method Get(key: string, fault: Fault) returns (ok: bool, value: Option<Bytes>)
      ensures ok <==> fault == Fine
      ensures value == if ok then T.RedisGet(keys, now, key) else None
    {
      if fault != Fine {
        return false, None;
      }
      return true, if key in keys && T.Alive(now, keys[key].expires) then Some(keys[key].value) else None;
    }

    /** GETDEL: reads and deletes in one command. */
    method GetDel(key: string, fault: Fault) returns (ok: bool, value: Option<Bytes>)
      modifies this`keys
      ensures ok <==> fault == Fine
      ensures value == if ok then T.RedisGet(old(keys), now, key) else None
      ensures keys == if Sent(fault) && T.RedisGet(old(keys), now, key).Some? then T.RedisDel(old(keys), key) else old(keys)
    {
      value := if key in keys && T.Alive(now, keys[key].expires) then Some(keys[key].value) else None;
      if Sent(fault) && value.Some? {
        keys := keys - {key};
      }
      ok := fault == Fine;
      if !ok {
        value := None;
      }
    }

    /** What is left of a key's lifetime; -1 for a key that stays and -2 for one that is not there. */
    method TTL(key: string, fault: Fault) returns (ok: bool, left: int)
      ensures ok <==> fault == Fine
      ensures ok ==> (left >= 0 <==> T.RedisHasTTL(keys, now, key))
    {
      if key !in keys || !T.Alive(now, keys[key].expires) {
        return fault == Fine, -2;
      }
      match keys[key].expires
      case None => return fault == Fine, -1;
      case Some(time) => return fault == Fine, time - now;
    }

    method Del(key: string, fault: Fault)
      modifies this`keys
      ensures keys == if Sent(fault) then T.RedisDel(old(keys), key) else old(keys)
    {
      if Sent(fault) {
        keys := keys - {key};
      }
    }
  }

  /** The tables after an insert was sent, and whether the caller saw it succeed. */
  function InsertSent(before: T.Tables, inserted: Option<T.Tables>, fault: Fault): (T.Tables, bool) {
    if !Sent(fault) || inserted.None? then (before, false) else (inserted.value, fault == Fine)
  }

  function UpdateSent(before: T.Tables, after: T.Tables, fault: Fault): (T.Tables, bool) {
    if Sent(fault) then (after, fault == Fine) else (before, false)
  }

  class TenantRepo {
    const pool: Postgres

    constructor (pool: Postgres)
      ensures this.pool == pool
    {
      this.pool := pool;
    }

    method Create(id: string, row: T.TenantRow, fault: Fault) returns (ok: bool)
      modifies pool
      ensures (pool.Tables(), ok) == InsertSent(old(pool.Tables()), T.InsertTenant(old(pool.Tables()), id, row), fault)
      ensures ok <==> fault == Fine && id !in old(pool.tenants) && T.Characters(row.name) <= 256 && T.Characters(row.keyARN) <= 256
    {
      if !Sent(fault) || id in pool.tenants || T.Characters(row.name) > T.NAME_WIDTH || T.Characters(row.keyARN) > T.NAME_WIDTH {
        return false;
      }
      pool.tenants := pool.tenants[id := row];
      return fault == Fine;
    }

    method FindByTenantID(id: string, fault: Fault) returns (ok: bool, row: Option<T.TenantRow>)
      ensures ok <==> fault == Fine
      ensures ok ==> row == T.FindTenant(pool.Tables(), id)
    {
      if fault != Fine {
        return false, None;
      }
      return true, if id in pool.tenants then Some(pool.tenants[id]) else None;
    }

    method UpdateStatusInactive(id: string, fault: Fault) returns (ok: bool)
      modifies pool
      ensures (pool.Tables(), ok) == UpdateSent(old(pool.Tables()), T.SetTenantInactive(old(pool.Tables()), id), fault)
    {
      if Sent(fault) && id in pool.tenants {
        pool.tenants := pool.tenants[id := pool.tenants[id].(active := false)];
      }
      return fault == Fine;
    }
  }

  class TokenRepo {
    const pool: Postgres

    constructor (pool: Postgres)
      ensures this.pool == pool
    {
      this.pool := pool;
    }

    method Create(id: string, row: T.TokenRow, fault: Fault) returns (ok: bool)
      modifies pool
      ensures (pool.Tables(), ok) == InsertSent(old(pool.Tables()), T.InsertToken(old(pool.Tables()), id, row), fault)
      ensures ok <==> fault == Fine && row.tenant in old(pool.tenants) && id !in old(pool.tokens)
                      && (row.tenant, row.blindIndex) !in old(pool.byBlind)
    {
      var key := (row.tenant, row.blindIndex);
      if !Sent(fault) || row.tenant !in pool.tenants || id in pool.tokens || key in pool.byBlind {
        return false;
      }
      pool.tokens := pool.tokens[id := row];
      pool.byBlind := pool.byBlind[key := id];
      return fault == Fine;
    }

    method FindByBlindIndex(tenant: string, blindIndex: string, fault: Fault) returns (ok: bool, id: Option<string>)
      ensures ok <==> fault == Fine
      ensures ok ==> id == T.FindByBlindIndex(pool.Tables(), tenant, blindIndex)
    {
      if fault != Fine {
        return false, None;
      }
      return true, if (tenant, blindIndex) in pool.byBlind then Some(pool.byBlind[(tenant, blindIndex)]) else None;
    }

    method FindByTokenID(tenant: string, id: string, fault: Fault) returns (ok: bool, row: Option<T.TokenRow>)
      ensures ok <==> fault == Fine
      ensures ok ==> row == T.FindToken(pool.Tables(), tenant, id)
    {
      if fault != Fine {
        return false, None;
      }
      return true, if id in pool.tokens && pool.tokens[id].tenant == tenant then Some(pool.tokens[id]) else None;
    }

    method UpdateStatusInactive(tenant: string, id: string, fault: Fault) returns (ok: bool)
      modifies pool
      ensures (pool.Tables(), ok) == UpdateSent(old(pool.Tables()), T.SetTokenInactive(old(pool.Tables()), tenant, id), fault)
    {
      if Sent(fault) && id in pool.tokens && pool.tokens[id].tenant == tenant {
        pool.tokens := pool.tokens[id := pool.tokens[id].(active := false)];
      }
      return fault == Fine;
    }

    /** The error is ignored by the only caller. */
    method UpdateLastUsed(tenant: string, id: string, now: int, fault: Fault)
      modifies pool
      ensures pool.Tables() == UpdateSent(old(pool.Tables()), T.SetLastUsed(old(pool.Tables()), tenant, id, now), fault).0
    {
      if Sent(fault) && id in pool.tokens && pool.tokens[id].tenant == tenant {
        pool.tokens := pool.tokens[id := pool.tokens[id].(lastUsed := Some(now))];
      }
    }
  }

  class VaultRepo {
    const pool: Postgres

    constructor (pool: Postgres)
      ensures this.pool == pool
    {
      this.pool := pool;
    }

    method Create(id: string, row: T.VaultRow, fault: Fault) returns (ok: bool)
      modifies pool
      ensures (pool.Tables(), ok) == InsertSent(old(pool.Tables()), T.InsertVaultRow(old(pool.Tables()), id, row), fault)
      ensures ok <==> fault == Fine && id in old(pool.tokens) && id !in old(pool.vault)
    {
      if !Sent(fault) || id !in pool.tokens || id in pool.vault {
        return false;
      }
      pool.vault := pool.vault[id := row];
      return fault == Fine;
    }

    method FindByTokenID(tenant: string, id: string, fault: Fault) returns (ok: bool, row: Option<T.VaultRow>)
      ensures ok <==> fault == Fine
      ensures ok ==> row == T.FindVaultRow(pool.Tables(), tenant, id)
    {
      if fault != Fine {
        return false, None;
      }
      return true, if id in pool.vault && pool.vault[id].tenant == tenant then Some(pool.vault[id]) else None;
    }
  }

  class CVVStore {
    const client: RedisServer

    constructor (client: RedisServer)
      ensures this.client == client
    {
      this.client := client;
    }

    method StoreCVVToken(tenant: string, id: string, encrypted: Bytes, ttl: int, fault: Fault) returns (ok: bool)
      modifies client`keys
      ensures ok <==> fault == Fine
      ensures client.keys == if Sent(fault)
        then T.RedisSet(old(client.keys), client.now, CvvTokenKey(tenant, id), encrypted, ttl) else old(client.keys)
    {
      ok := client.Set(CvvTokenKey(tenant, id), encrypted, ttl, fault);
    }

    method RetrieveCVVToken(tenant: string, id: string, fault: Fault) returns (ok: bool, value: Option<Bytes>)
      modifies client`keys
      ensures ok <==> fault == Fine
      ensures var found := T.RedisGet(old(client.keys), client.now, CvvTokenKey(tenant, id));
        && value == (if ok then found else None)
        && client.keys == if Sent(fault) && found.Some? then T.RedisDel(old(client.keys), CvvTokenKey(tenant, id)) else old(client.keys)
    {
      ok, value := client.GetDel(CvvTokenKey(tenant, id), fault);
    }

    method ExistsCVVToken(tenant: string, id: string, fault: Fault) returns (yes: bool)
      ensures yes <==> fault == Fine && T.RedisHasTTL(client.keys, client.now, CvvTokenKey(tenant, id))
    {
      var ok, left := client.TTL(CvvTokenKey(tenant, id), fault);
      return ok && left >= 0;
    }

    method SetCVVTokenOwner(tenant: string, panToken: string, id: string, ttl: int, fault: Fault) returns (ok: bool)
      modifies client`keys
      ensures ok <==> fault == Fine
      ensures client.keys == if Sent(fault)
        then T.RedisSet(old(client.keys), client.now, CvvOwnerKey(tenant, panToken), Encode(id), ttl) else old(client.keys)
    {
      ok := client.Set(CvvOwnerKey(tenant, panToken), Encode(id), ttl, fault);
    }

    /** The id the owner key holds; errors and a missing key look alike to the caller. */
    method GetCVVTokenOwner(tenant: string, panToken: string, fault: Fault) returns (previous: string)
      ensures previous == OwnerRead(client.keys, client.now, tenant, panToken, fault)
    {
      var ok, value := client.Get(CvvOwnerKey(tenant, panToken), fault);
      match value
      case None => previous := "";
      case Some(id) => previous := Decode(id);
    }

    /** Three commands: read the owner key, delete the CVV token it names if any, write the key. */
    method InvalidatePreviousCVVToken(
      tenant: string, panToken: string, newID: string, ttl: int, get: Fault, drop: Fault, set_: Fault)
      returns (ok: bool)
      modifies client`keys
      ensures client.keys == OwnerReplaced(old(client.keys), client.now, tenant, panToken, newID, ttl, get, drop, set_)
    {
      var previous := GetCVVTokenOwner(tenant, panToken, get);
      if previous != "" {
        client.Del(CvvTokenKey(tenant, previous), drop);
      }
      ok := SetCVVTokenOwner(tenant, panToken, newID, ttl, set_);
    }
  }

  function OwnerRead(ks: T.Keyspace, now: int, tenant: string, panToken: string, get: Fault): string {
    match T.RedisGet(ks, now, CvvOwnerKey(tenant, panToken))
    case None => ""
    case Some(id) => if get == Fine then Decode(id) else ""
  }

  function Dropped(ks: T.Keyspace, tenant: string, previous: string, drop: Fault): T.Keyspace {
    if previous != "" && Sent(drop) then T.RedisDel(ks, CvvTokenKey(tenant, previous)) else ks
  }

  function OwnerReplaced(
    ks: T.Keyspace, now: int, tenant: string, panToken: string, newID: string, ttl: int, get: Fault, drop: Fault, set_: Fault)
    : T.Keyspace
  {
    var ks' := Dropped(ks, tenant, OwnerRead(ks, now, tenant, panToken, get), drop);
    if Sent(set_) then T.RedisSet(ks', now, CvvOwnerKey(tenant, panToken), Encode(newID), ttl) else ks'
  }
}
