/**
 Loading request and response bodies from a store by locator, one at a time or in a batch.
 The digest and the cipher are functions the loader is given; nothing is assumed of them.
 */
module BodyLoader {
  import opened Basics

  datatype StoreError = UnknownDriver | OtherError

  datatype Result<+T> = Ok(value: T) | Err(error: StoreError)

  datatype Enc = Enc(alg: string, kid: string, nonce: string)

  datatype Locator = Locator(
    store: string,
    driver: string,
    key: string,
    unavailable: string,
    sha256: string,
    processedSha256: string,
    truncated: bool,
    enc: Option<Enc>)

  datatype Body = Body(data: Bytes, truncated: bool, unavailable: string, fault: bool, sha256: string)

  const NO_BODY := Body([], false, "", false, "")

  function Fault(reason: string): Body {
    Body([], false, reason, true, "")
  }

  const NO_STORE := "store_unconfigured"
  const STORE_ERROR := "store_error"
  const UNKNOWN_DRIVER := "unknown_driver"
  const DECRYPT_FAIL := "decrypt_failed"
  const DIGEST_FAIL := "digest_mismatch"

  /** A store, with the batched read if it has one. */
  datatype Store = Store(
    get: (string, string, string) -> Result<Bytes>,
    getMany: Option<(string, string, seq<string>) -> Result<seq<Option<Bytes>>>>)

  datatype Loader = Loader(
    store: Option<Store>,
    keys: Option<string -> Option<Bytes>>,
    digest: Bytes -> string,
    open: (Bytes, string, Bytes) -> Option<Bytes>)

  function Decrypt(l: Loader, enc: Enc, raw: Bytes): Option<Bytes> {
    if l.keys.None? then None
    else if enc.alg != "aes-256-gcm" then None
    else match l.keys.value(enc.kid)
      case None => None
      case Some(key) => l.open(key, enc.nonce, raw)
  }

  function Finish(l: Loader, loc: Locator, raw: Bytes): Body {
    var plain := if loc.enc.Some? then Decrypt(l, loc.enc.value, raw) else Some(raw);
    if plain.None? then Fault(DECRYPT_FAIL)
    else
      var sum := l.digest(plain.value);
      var want := if loc.processedSha256 != "" then loc.processedSha256
                  else if loc.truncated then "" else loc.sha256;
      if want != "" && want != sum then Fault(DIGEST_FAIL)
      else Body(plain.value, loc.truncated, "", false, sum)
  }

  function Load(l: Loader, loc: Option<Locator>): Body {
    if loc.None? then NO_BODY
    else if loc.value.unavailable != "" then Body([], false, loc.value.unavailable, false, "")
    else if loc.value.driver != "" then
      if l.store.None? then Fault(NO_STORE)
      else match l.store.value.get(loc.value.driver, loc.value.store, loc.value.key)
        case Err(UnknownDriver) => Fault(UNKNOWN_DRIVER)
        case Err(OtherError) => Fault(STORE_ERROR)
        case Ok(raw) => Finish(l, loc.value, raw)
    else NO_BODY
  }

  /** The batched read says of every key what a single read would say: a missing entry is a failing single read,
      and a failing batch is a batch of single reads that fail the same way. */
  ghost predicate Agrees(s: Store) {
    s.getMany.Some? ==>
      forall driver: string, store: string, keys: seq<string> ::
        BatchAgrees(s, driver, store, keys, s.getMany.value(driver, store, keys))
  }

  ghost predicate BatchAgrees(s: Store, driver: string, store: string, keys: seq<string>, r: Result<seq<Option<Bytes>>>) {
    match r
    case Err(e) => forall n :: 0 <= n < |keys| ==> s.get(driver, store, keys[n]) == Err(e)
    case Ok(raws) =>
      && |raws| == |keys|
      && forall n :: 0 <= n < |keys| ==>
           s.get(driver, store, keys[n]) == if raws[n].Some? then Ok(raws[n].value) else Err(OtherError)
  }

  /** The locator at this position is placed in this store under this key. */
  predicate Batched(locs: seq<Option<Locator>>, i: nat, driver: string, store: string, key: string) {
    && i < |locs| && locs[i].Some?
    && locs[i].value.unavailable == "" && locs[i].value.driver == driver != ""
    && locs[i].value.store == store && locs[i].value.key == key
  }

  /** Every position is loaded except those still to come. */
  ghost predicate LoadedBut(l: Loader, locs: seq<Option<Locator>>, out: seq<Body>, rest: seq<nat>) {
    |out| == |locs| && forall k: nat :: k < |locs| ==> out[k] == Load(l, locs[k]) || k in rest
  }

  lemma OneLess(l: Loader, locs: seq<Option<Locator>>, out: seq<Body>, at: seq<nat>, n: nat, body: Body)
    requires n < |at| && LoadedBut(l, locs, out, at[n..]) && at[n] < |locs| && body == Load(l, locs[at[n]])
    ensures LoadedBut(l, locs, out[at[n] := body], at[n + 1..])
  {
    assert at[n..] == [at[n]] + at[n + 1..];
  }

  /** The first loop: what cannot go into the batch is loaded alone, the rest is put down for it. */
  method Gather(l: Loader, locs: seq<Option<Locator>>)
    returns (out: seq<Body>, keys: seq<string>, at: seq<nat>, driver: string, store: string)
    ensures |keys| == |at| && LoadedBut(l, locs, out, at)
    ensures forall k :: 0 <= k < |at| ==> Batched(locs, at[k], driver, store, keys[k])
  {
    out := seq(|locs|, _ => NO_BODY);
    keys, at := [], [];
    driver, store := "", "";
    var batched := false;
    for i := 0 to |locs|
      invariant |out| == |locs| && |keys| == |at|
      invariant batched <==> |keys| > 0
      invariant forall k :: 0 <= k < |at| ==> Batched(locs, at[k], driver, store, keys[k])
      invariant forall k :: 0 <= k < i ==> out[k] == Load(l, locs[k]) || k in at
    {
      var loc := locs[i];
      if loc.None? || loc.value.unavailable != "" || loc.value.driver == "" {
        out := out[i := Load(l, loc)];
        continue;
      }
      if batched && (loc.value.driver != driver || loc.value.store != store) {
        out := out[i := Load(l, loc)];
        continue;
      }
      driver, store, batched := loc.value.driver, loc.value.store, true;
      keys := keys + [loc.value.key];
      at := at + [i];
      assert forall k :: k in at[..|at| - 1] ==> k in at;
    }
  }

  method FillSingly(l: Loader, locs: seq<Option<Locator>>, done: seq<Body>, at: seq<nat>) returns (out: seq<Body>)
    requires LoadedBut(l, locs, done, at) && forall n :: 0 <= n < |at| ==> at[n] < |locs|
    ensures LoadedBut(l, locs, out, [])
  {
    out := done;
    assert at[0..] == at;
    for n := 0 to |at|
      invariant LoadedBut(l, locs, out, at[n..])
    {
      OneLess(l, locs, out, at, n, Load(l, locs[at[n]]));
      out := out[at[n] := Load(l, locs[at[n]])];
    }
  }

  method FillFailed(l: Loader, locs: seq<Option<Locator>>, done: seq<Body>, at: seq<nat>, failed: Body) returns (out: seq<Body>)
    requires LoadedBut(l, locs, done, at)
    requires forall n :: 0 <= n < |at| ==> at[n] < |locs| && Load(l, locs[at[n]]) == failed
    ensures LoadedBut(l, locs, out, [])
  {
    out := done;
    assert at[0..] == at;
    for n := 0 to |at|
      invariant LoadedBut(l, locs, out, at[n..])
    {
      OneLess(l, locs, out, at, n, failed);
      out := out[at[n] := failed];
    }
  }

  /** What a position of the batch gets. */
  function Got(l: Loader, loc: Locator, raw: Option<Bytes>): Body {
    if raw.None? then Fault(STORE_ERROR) else Finish(l, loc, raw.value)
  }

  method FillFound(l: Loader, locs: seq<Option<Locator>>, done: seq<Body>, at: seq<nat>, raws: seq<Option<Bytes>>)
    returns (out: seq<Body>)
    requires LoadedBut(l, locs, done, at) && |raws| == |at|
    requires forall n :: 0 <= n < |at| ==>
      at[n] < |locs| && locs[at[n]].Some? && Load(l, locs[at[n]]) == Got(l, locs[at[n]].value, raws[n])
    ensures LoadedBut(l, locs, out, [])
  {
    out := done;
    assert at[0..] == at;
    for n := 0 to |at|
      invariant LoadedBut(l, locs, out, at[n..])
    {
      OneLess(l, locs, out, at, n, Got(l, locs[at[n]].value, raws[n]));
      out := out[at[n] := if raws[n].None? then Fault(STORE_ERROR) else Finish(l, locs[at[n]].value, raws[n].value)];
    }
  }

  /** Position by position, the batch returns what Load returns for each locator alone. */
  method LoadMany(l: Loader, locs: seq<Option<Locator>>) returns (out: seq<Body>)
    requires l.store.Some? ==> Agrees(l.store.value)
    ensures |out| == |locs|
    ensures forall i :: 0 <= i < |locs| ==> out[i] == Load(l, locs[i])
  {
    if l.store.None? || l.store.value.getMany.None? {
      out := seq(|locs|, _ => NO_BODY);
      for i := 0 to |locs|
        invariant |out| == |locs|
        invariant forall k :: 0 <= k < i ==> out[k] == Load(l, locs[k])
      {
        out := out[i := Load(l, locs[i])];
      }
      return;
    }
    var keys, at, driver, store;
    out, keys, at, driver, store := Gather(l, locs);
    if |keys| < 2 {
      out := FillSingly(l, locs, out, at);
      return;
    }
    var r := l.store.value.getMany.value(driver, store, keys);
    assert BatchAgrees(l.store.value, driver, store, keys, r);
    if r.Err? {
      out := FillFailed(l, locs, out, at, Fault(if r.error.UnknownDriver? then UNKNOWN_DRIVER else STORE_ERROR));
      return;
    }
    out := FillFound(l, locs, out, at, r.value);
  }

  // ------------------------------------------------ the shipped store

  datatype Entry = Text(bytes: Bytes) | OtherType

  /** What Redis holds, and whether it answers. */
  datatype Redis = Redis(held: map<string, Entry>, up: bool)

  function RedisGet(db: Redis, driver: string, key: string): Result<Bytes> {
    if driver != "redis" then Err(UnknownDriver)
    else if !db.up || key !in db.held || !db.held[key].Text? then Err(OtherError)
    else Ok(db.held[key].bytes)
  }

  function RedisGetMany(db: Redis, driver: string, keys: seq<string>): Result<seq<Option<Bytes>>> {
    if driver != "redis" then Err(UnknownDriver)
    else if keys == [] then Ok([])
    else if !db.up then Err(OtherError)
    else Ok(seq(|keys|, n requires 0 <= n < |keys| =>
      if keys[n] in db.held && db.held[keys[n]].Text? then Some(db.held[keys[n]].bytes) else None))
  }

  function RedisStore(db: Redis): Store {
    Store((driver, store, key) => RedisGet(db, driver, key),
          Some((driver, store, keys) => RedisGetMany(db, driver, keys)))
  }

  /** The shipped store meets the assumption, so on it the batch is always the list of single loads. */
  lemma RedisAgrees(db: Redis)
    ensures Agrees(RedisStore(db))
  {
    var s := RedisStore(db);
    forall driver: string, store: string, keys: seq<string>
      ensures BatchAgrees(s, driver, store, keys, s.getMany.value(driver, store, keys))
    {
      assert s.getMany.value(driver, store, keys) == RedisGetMany(db, driver, keys);
      assert forall n :: 0 <= n < |keys| ==> s.get(driver, store, keys[n]) == RedisGet(db, driver, keys[n]);
    }
  }

  /** A body that loads clean is the stored bytes, opened if they were sealed, and matches the digest
      the locator asks for, unless it is a declared prefix without one. */
  lemma CleanBodyIsAuthentic(l: Loader, loc: Locator)
    requires loc.unavailable == "" && loc.driver != "" && Load(l, Some(loc)).unavailable == ""
    ensures l.store.Some? && l.store.value.get(loc.driver, loc.store, loc.key).Ok?
    ensures var raw := l.store.value.get(loc.driver, loc.store, loc.key).value;
            var b := Load(l, Some(loc));
      && (loc.enc.None? ==> b.data == raw)
      && (loc.enc.Some? ==> Decrypt(l, loc.enc.value, raw) == Some(b.data))
      && b.sha256 == l.digest(b.data) && b.truncated == loc.truncated && !b.fault
      && (loc.processedSha256 != "" ==> b.sha256 == loc.processedSha256)
      && (loc.processedSha256 == "" && !loc.truncated && loc.sha256 != "" ==> b.sha256 == loc.sha256)
  {
  }

  /** What a locator asks the digest of the opened bytes to be: its own for processed bodies, else the plain one unless
      only a prefix is stored. */
  function Wanted(loc: Locator): string {
    if loc.processedSha256 != "" then loc.processedSha256 else if !loc.truncated then loc.sha256 else ""
  }

  /** The opened bytes: those stored, or what they open to under the named key and the one cipher there is. */
  function Opened(l: Loader, loc: Locator, raw: Bytes): Option<Bytes> {
    if loc.enc.None? then Some(raw)
    else if l.keys.None? || loc.enc.value.alg != "aes-256-gcm" || l.keys.value(loc.enc.value.kid).None? then None
    else l.open(l.keys.value(loc.enc.value.kid).value, loc.enc.value.nonce, raw)
  }

  /** What loading comes to, case by case: no locator and no place mean no body; a declared reason is passed on, and is no
      fault; and a placed body is clean exactly when the store has it, it opens, and its digest is the one wanted, if
      any is. Each other case is a fault with its own reason. */
  lemma LoadsExactly(l: Loader, loc: Locator)
    ensures Load(l, None) == Body([], false, "", false, "")
    ensures loc.unavailable != "" ==> Load(l, Some(loc)) == Body([], false, loc.unavailable, false, "")
    ensures loc.unavailable == "" && loc.driver == "" ==> Load(l, Some(loc)) == Body([], false, "", false, "")
    ensures loc.unavailable == "" && loc.driver != "" ==>
      if l.store.None? then Load(l, Some(loc)) == Fault("store_unconfigured")
      else match l.store.value.get(loc.driver, loc.store, loc.key)
        case Err(UnknownDriver) => Load(l, Some(loc)) == Fault("unknown_driver")
        case Err(OtherError) => Load(l, Some(loc)) == Fault("store_error")
        case Ok(raw) =>
          if Opened(l, loc, raw).None? then Load(l, Some(loc)) == Fault("decrypt_failed")
          else
            var plain := Opened(l, loc, raw).value;
            if Wanted(loc) == "" || Wanted(loc) == l.digest(plain)
            then Load(l, Some(loc)) == Body(plain, loc.truncated, "", false, l.digest(plain))
            else Load(l, Some(loc)) == Fault("digest_mismatch")
  {
  }
}
