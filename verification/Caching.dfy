/** The shared cache, as far as the services use it: entries with a time to live. */
module Caching {
  import opened Common

  datatype Entry = Entry(value: nat, expiresAt: nat)

  datatype Cache = Cache(now: nat, entries: map<string, Entry>)

  predicate Live(c: Cache, key: string) {
    key in c.entries && c.now < c.entries[key].expiresAt
  }

  function Get(c: Cache, key: string, default: nat): nat {
    if Live(c, key) then c.entries[key].value else default
  }

  function Set(c: Cache, key: string, value: nat, timeout: nat): Cache {
    c.(entries := c.entries[key := Entry(value, c.now + timeout)])
  }

  /** Stores only if the key is absent or expired; atomic across processes. */
  function Add(c: Cache, key: string, value: nat, timeout: nat): (Cache, bool) {
    if Live(c, key) then (c, false) else (Set(c, key, value, timeout), true)
  }

  /** Fails on a missing key; keeps the expiry. */
  function Incr(c: Cache, key: string): (Cache, Option<nat>) {
    if !Live(c, key) then (c, None)
    else
      var e := c.entries[key];
      (c.(entries := c.entries[key := e.(value := e.value + 1)]), Some(e.value + 1))
  }

  function Delete(c: Cache, key: string): Cache {
    c.(entries := c.entries - {key})
  }

  function Pass(c: Cache, seconds: nat): Cache {
    c.(now := c.now + seconds)
  }
}
