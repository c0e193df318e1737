/** The short-lived cache of successful logins. */
module AuthCache {

  type Digest = int

  datatype Entry = Entry(plainHash: Digest, storedHash: string, expiry: int)

  const TTL := 60

  class Logins {
    var cache: map<string, Entry>
    /** The salted digest of a user name and a plaintext, and the full password check. */
    const digest: (string, string) -> Digest
    const verify: (string, string) -> bool

    constructor (digest: (string, string) -> Digest, verify: (string, string) -> bool)
      ensures Valid() && cache == map[] && this.digest == digest && this.verify == verify
    {
      this.digest, this.verify, cache := digest, verify, map[];
    }

    /** Every entry was made by a password that passed the full check against the stored hash. */
    ghost predicate Valid()
      reads this
    {
      forall name | name in cache ::
        exists plain :: digest(name, plain) == cache[name].plainHash && verify(plain, cache[name].storedHash)
    }

    ghost predicate CollisionFree()
    {
      forall name, p, q :: digest(name, p) == digest(name, q) ==> p == q
    }

    /** The cached check answers as the full check does, also after the stored hash has changed.
        The full check is left out exactly when the same password passed it against the same hash
        less than a minute ago; when it passes, that is what is remembered. */
    method VerifyPasswordCached(name: string, plain: string, hash: string, now: int) returns (ok: bool, ghost checked: bool)
      requires Valid() && CollisionFree()
      modifies this`cache
      ensures Valid() && ok == verify(plain, hash)
      ensures !checked <==> name in old(cache) && old(cache[name].expiry) > now
                            && old(cache[name].storedHash) == hash && old(cache[name].plainHash) == digest(name, plain)
      ensures cache == if ok && checked then old(cache)[name := Entry(digest(name, plain), hash, now + 60)] else old(cache)
    {
      checked := true;
      var d := digest(name, plain);
      if name in cache {
        var e := cache[name];
        if e.expiry > now && e.storedHash == hash && e.plainHash == d {
          checked := false;
          return true, checked;
        }
      }
      if !verify(plain, hash) {
        return false, checked;
      }
      cache := cache[name := Entry(d, hash, now + TTL)];
      assert digest(name, plain) == cache[name].plainHash;
      ok := true;
    }

    method InvalidateAuthUser(name: string)
      requires Valid()
      modifies this`cache
      ensures Valid() && cache == old(cache) - {name}
    {
      cache := cache - {name};
    }
  }
}
