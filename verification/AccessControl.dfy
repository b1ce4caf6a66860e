/** The two AccessController implementations of internal/share/access_control.go.
    Each method is one critical section or one Redis script; the clock reading
    is a parameter. */
module AccessControls {
  import opened Options
  import RateLimit
  import Lockout

  datatype AccessKey = AccessKey(token: string, ipHash: string)

  class AccessControl {
    var download: map<AccessKey, RateLimit.DownloadWindow>
    var password: map<AccessKey, Lockout.Failures>

    constructor ()
      ensures download == map[] && password == map[]
    {
      download := map[];
      password := map[];
    }

    function Window(key: AccessKey): Option<RateLimit.DownloadWindow>
      reads this
    {
      RateLimit.Lookup(download, key)
    }

    function Entry(key: AccessKey): Lockout.Failures
      reads this
    {
      if key in password then password[key] else Lockout.NO_FAILURES
    }

    method AllowDownload(token: string, ipHash: string, now: Time) returns (allowed: bool)
      modifies this`download
      ensures var key := AccessKey(token, ipHash);
              && allowed == RateLimit.Decide(old(Window(key)), now).allowed
              && download == RateLimit.Serve(old(download), RateLimit.Request(key, now))
    {
      var key := AccessKey(token, ipHash);
      if key !in download || now - download[key].startedAt >= RateLimit.WINDOW {
        download := download[key := RateLimit.DownloadWindow(now, 1)];
        return true;
      }
      var window := download[key];
      if window.count >= RateLimit.LIMIT {
        assert download == download[key := window];
        return false;
      }
      window := window.(count := window.count + 1);
      download := download[key := window];
      return true;
    }

    method PasswordLocked(token: string, ipHash: string, now: Time) returns (locked: bool)
      ensures locked == Lockout.Locked(Entry(AccessKey(token, ipHash)), now)
    {
      var entry := Entry(AccessKey(token, ipHash));
      locked := entry.lockedTil.Some? && now < entry.lockedTil.value;
    }

    method RecordPasswordFailure(token: string, ipHash: string, now: Time)
      modifies this`password
      ensures Entry(AccessKey(token, ipHash)) == Lockout.Record(old(Entry(AccessKey(token, ipHash))), now)
      ensures forall k :: k != AccessKey(token, ipHash) ==> Entry(k) == old(Entry(k))
    {
      var key := AccessKey(token, ipHash);
      var entry := Entry(key);
      if Lockout.Locked(entry, now) {
        return;
      }
      entry := entry.(count := entry.count + 1);
      if entry.count >= Lockout.FAILURE_LIMIT {
        entry := entry.(count := 0, lockedTil := Some(now + Lockout.LOCK));
      }
      password := password[key := entry];
    }

    method ClearPasswordFailures(token: string, ipHash: string)
      modifies this`password
      ensures password == old(password) - {AccessKey(token, ipHash)}
    {
      password := password - {AccessKey(token, ipHash)};
    }
  }

  const KEY_PREFIX := "cloudbox:share-access:"

  function RedisDownloadKey(token: string, ipHash: string): string {
    KEY_PREFIX + "download:" + token + ":" + ipHash
  }

  function RedisPasswordFailureKey(token: string, ipHash: string): string {
    KEY_PREFIX + "password-failures:" + token + ":" + ipHash
  }

  function RedisPasswordLockKey(token: string, ipHash: string): string {
    KEY_PREFIX + "password-lock:" + token + ":" + ipHash
  }

  /** Keys of different kinds never meet, and within a kind the pair can be read
      back, because an IP hash is raw base64url and holds no colon. */
  lemma KeysNeverCollide(token: string, ipHash: string, token': string, ipHash': string)
    requires ':' !in ipHash && ':' !in ipHash'
    ensures RedisDownloadKey(token, ipHash) == RedisDownloadKey(token', ipHash') ==>
              token == token' && ipHash == ipHash'
    ensures RedisPasswordFailureKey(token, ipHash) == RedisPasswordFailureKey(token', ipHash') ==>
              token == token' && ipHash == ipHash'
    ensures RedisPasswordLockKey(token, ipHash) == RedisPasswordLockKey(token', ipHash') ==>
              token == token' && ipHash == ipHash'
    ensures RedisDownloadKey(token, ipHash) != RedisPasswordFailureKey(token', ipHash')
    ensures RedisDownloadKey(token, ipHash) != RedisPasswordLockKey(token', ipHash')
    ensures RedisPasswordFailureKey(token, ipHash) != RedisPasswordLockKey(token', ipHash')
  {
    PairReadsBack(KEY_PREFIX + "download:", token, ipHash, token', ipHash');
    PairReadsBack(KEY_PREFIX + "password-failures:", token, ipHash, token', ipHash');
    PairReadsBack(KEY_PREFIX + "password-lock:", token, ipHash, token', ipHash');
    var n := |KEY_PREFIX|;
    assert RedisDownloadKey(token, ipHash)[n] == 'd';
    assert RedisPasswordFailureKey(token', ipHash')[n] == 'p';
    assert RedisPasswordLockKey(token', ipHash')[n] == 'p';
    assert RedisPasswordFailureKey(token, ipHash)[n + 9] == 'f';
    assert RedisPasswordLockKey(token', ipHash')[n + 9] == 'l';
  }

  lemma PairReadsBack(prefix: string, token: string, ipHash: string, token': string, ipHash': string)
    requires ':' !in ipHash && ':' !in ipHash'
    ensures prefix + token + ":" + ipHash == prefix + token' + ":" + ipHash' ==> token == token' && ipHash == ipHash'
  {
    var s := prefix + token + ":" + ipHash;
    var s' := prefix + token' + ":" + ipHash';
    if s == s' {
      var n := |prefix| + |token|;
      var n' := |prefix| + |token'|;
      assert s[n] == ':' && s'[n'] == ':';
      assert forall i :: n < i < |s| ==> s[i] == ipHash[i - n - 1];
      assert forall i :: n' < i < |s'| ==> s'[i] == ipHash'[i - n' - 1];
      assert n == n';
      assert s[|prefix|..n] == token && s'[|prefix|..n] == token';
      assert s[n + 1..] == ipHash && s'[n + 1..] == ipHash';
    }
  }

  type Counter = RateLimit.Counter

  class RedisAccessControl {
    var entries: map<string, Counter>

    /** INCR starts at 1 and SET stores "1": no key holds less. */
    ghost predicate Valid()
      reads this
    {
      forall key :: key in entries ==> entries[key].value >= 1
    }

    constructor ()
      ensures Valid() && entries == map[]
    {
      entries := map[];
    }

    function Get(key: string): Option<Counter>
      reads this
    {
      if key in entries then Some(entries[key]) else None
    }

    function Pair(token: string, ipHash: string): Lockout.RedisFailures
      reads this
    {
      Lockout.RedisFailures(Get(RedisPasswordFailureKey(token, ipHash)), Get(RedisPasswordLockKey(token, ipHash)))
    }

    /** The INCR command: an expired key counts as missing, a live one keeps
        its expiry. */
    method Incr(key: string, now: Time) returns (count: int)
      modifies this`entries
      ensures var live := RateLimit.Live(old(Get(key)), now);
              && count == (if live.Some? then live.value.value else 0) + 1
              && var expiresAt := if live.Some? then live.value.expiresAt else None;
                 entries == old(entries)[key := RateLimit.Counter(count, expiresAt)]
    {
      var live := RateLimit.Live(Get(key), now);
      count := (if live.Some? then live.value.value else 0) + 1;
      entries := entries[key := RateLimit.Counter(count, if live.Some? then live.value.expiresAt else None)];
    }

    /** The EXPIRE command. */
    method Expire(key: string, at: Time)
      requires key in entries
      modifies this`entries
      ensures entries == old(entries)[key := old(entries)[key].(expiresAt := Some(at))]
    {
      entries := entries[key := entries[key].(expiresAt := Some(at))];
    }

    method AllowDownload(token: string, ipHash: string, now: Time) returns (allowed: bool)
      requires Valid()
      modifies this`entries
      ensures Valid()
      ensures var key := RedisDownloadKey(token, ipHash);
              && RateLimit.RedisDecision(allowed, Get(key)) == RateLimit.RedisDecide(old(Get(key)), now)
              && entries == old(entries)[key := entries[key]]
    {
      var key := RedisDownloadKey(token, ipHash);
      var count := Incr(key, now);
      if count == 1 {
        Expire(key, now + RateLimit.WINDOW);
      }
      allowed := count <= RateLimit.LIMIT;
    }

    method PasswordLocked(token: string, ipHash: string, now: Time) returns (locked: bool)
      ensures locked == Lockout.RedisLocked(Pair(token, ipHash), now)
    {
      locked := RateLimit.Live(Get(RedisPasswordLockKey(token, ipHash)), now).Some?;
    }

    method RecordPasswordFailure(token: string, ipHash: string, now: Time)
      requires Valid() && ':' !in ipHash
      modifies this`entries
      ensures Valid()
      ensures Pair(token, ipHash) == Lockout.RedisRecord(old(Pair(token, ipHash)), now)
      ensures forall key :: key != RedisPasswordFailureKey(token, ipHash) && key != RedisPasswordLockKey(token, ipHash)
                ==> Get(key) == old(Get(key))
    {
      var failuresKey := RedisPasswordFailureKey(token, ipHash);
      var lockKey := RedisPasswordLockKey(token, ipHash);
      KeysNeverCollide(token, ipHash, token, ipHash);
      if RateLimit.Live(Get(lockKey), now).Some? {
        return;
      }
      var failures := Incr(failuresKey, now);
      if failures == 1 {
        Expire(failuresKey, now + Lockout.LOCK);
      }
      if failures >= Lockout.FAILURE_LIMIT {
        entries := entries[lockKey := RateLimit.Counter(1, Some(now + Lockout.LOCK))];
        entries := entries - {failuresKey};
      }
    }

    method ClearPasswordFailures(token: string, ipHash: string)
      requires Valid() && ':' !in ipHash
      modifies this`entries
      ensures Valid() && entries == old(entries) - {RedisPasswordFailureKey(token, ipHash)}
      ensures Pair(token, ipHash) == Lockout.RedisClear(old(Pair(token, ipHash)))
    {
      KeysNeverCollide(token, ipHash, token, ipHash);
      entries := entries - {RedisPasswordFailureKey(token, ipHash)};
    }
  }
}
