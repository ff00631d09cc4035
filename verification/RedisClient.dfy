/** The helpers around Redis: values with an expiry time, one-shot codes, the
    refresh whitelist and its revocation loop. */
module RedisClient {
  import opened Options
  import opened Keys

  type Time = int

  datatype Entry = Entry(value: int, expires: Time)

  type Db = map<Key, Entry>

  predicate Alive(db: Db, now: Time, k: Key) {
    k in db && now < db[k].expires
  }

  function Get(db: Db, now: Time, k: Key): Option<int> {
    if Alive(db, now, k) then Some(db[k].value) else None
  }

  function SetEx(db: Db, now: Time, k: Key, value: int, ttl: int): Db {
    db[k := Entry(value, now + ttl)]
  }

  /** What readers see after a SET with expiry: the value until it expires, then
      nothing, and every other key as before, at all times. */
  lemma StoredIsRead(db: Db, now: Time, k: Key, value: int, ttl: int, k': Key, later: Time)
    ensures Get(SetEx(db, now, k, value, ttl), later, k') ==
            if k' != k then Get(db, later, k') else if later - now < ttl then Some(value) else None
  {
  }

  /** GET and DEL in one transaction. */
  function Take(db: Db, now: Time, k: Key): (Option<int>, Db) {
    (Get(db, now, k), db - {k})
  }

  /** A value stored can be taken until it expires, and only once: whoever takes
      it later gets nothing, and takes of other keys do not disturb it. */
  lemma StoredIsTakenOnce(db: Db, now: Time, k: Key, value: int, ttl: int, other: Key, t1: Time, t2: Time)
    requires other != k
    ensures var (_, stored) := Take(SetEx(db, now, k, value, ttl), t1, other);
            var (first, left) := Take(stored, t1, k);
            && (first == if t1 - now < ttl then Some(value) else None)
            && Take(left, t2, k).0 == None
            && Get(left, t2, other) == None
            && forall k' | k' != k && k' != other :: Get(left, t2, k') == Get(db, t2, k')
  {
  }

  /** The whitelist entries that SCAN with the user's pattern can find. */
  function Sessions(db: Db, now: Time, user: int): set<Key> {
    set k | k in db && Alive(db, now, k) && SessionOf(k, user)
  }

  function ScanMatches(db: Db, now: Time, pattern: string): set<Key> {
    set k | k in db && Alive(db, now, k) && Glob(pattern, Name(k))
  }

  lemma ScanFindsSessions(db: Db, now: Time, user: int)
    ensures ScanMatches(db, now, SessionsPattern(user)) == Sessions(db, now, user)
  {
    forall k | k in db
      ensures k in ScanMatches(db, now, SessionsPattern(user)) <==> k in Sessions(db, now, user)
    {
      PatternSelectsOneUser(user, k);
    }
  }

  /** The store after a whole rotation call. */
  function Rotation(db: Db, shown: Sid, issued: Sid, now: Time, ttl: int): Db {
    var moved := SetEx(db - {Refresh(shown)}, now, Refresh(issued), 1, ttl);
    if Alive(db, now, Refresh(shown)) then SetEx(moved, now, RefreshUsed(shown), 1, ttl) else moved
  }

  /** A rotation moves validity from the old jti to the new one, marks the old
      one exactly when it was valid, and touches no other key. */
  lemma RotationMovesValidity(db: Db, shown: Sid, issued: Sid, now: Time, ttl: int, k: Key)
    requires shown != issued && ttl > 0
    ensures var db' := Rotation(db, shown, issued, now, ttl);
            && !Alive(db', now, Refresh(shown)) && Alive(db', now, Refresh(issued))
            && (Alive(db', now, RefreshUsed(shown)) <==>
                  Alive(db, now, Refresh(shown)) || Alive(db, now, RefreshUsed(shown)))
            && (k !in {Refresh(shown), Refresh(issued), RefreshUsed(shown)} ==>
                  Get(db', now, k) == Get(db, now, k))
  {
  }

  /** For how long: the new jti is valid for the lifetime given, the old one never
      again, and its mark, if it was valid, lasts as long as the new jti. */
  lemma RotationLasts(db: Db, shown: Sid, issued: Sid, now: Time, ttl: int, later: Time)
    requires shown != issued
    ensures var db' := Rotation(db, shown, issued, now, ttl);
            && Get(db', later, Refresh(shown)) == None
            && (Get(db', later, Refresh(issued)) == if later - now < ttl then Some(1) else None)
            && (Alive(db, now, Refresh(shown)) ==>
                  Get(db', later, RefreshUsed(shown)) == if later - now < ttl then Some(1) else None)
            && (!Alive(db, now, Refresh(shown)) ==>
                  Get(db', later, RefreshUsed(shown)) == Get(db, later, RefreshUsed(shown)))
  {
  }

  class Client {
    var db: Db

    constructor ()
      ensures db == map[]
    {
      db := map[];
    }

    /** store_tg_link_code, store_password_reset_token, set_pending_delete and
        store_refresh_jti. */
    method Store(k: Key, value: int, now: Time, ttl: int)
      modifies this
      ensures db == SetEx(old(db), now, k, value, ttl)
      ensures forall k', later ::
                Get(db, later, k') ==
                if k' != k then Get(old(db), later, k') else if later - now < ttl then Some(value) else None
    {
      db := SetEx(db, now, k, value, ttl);
    }

    /** consume_tg_link_code and consume_password_reset_token: GET and DEL in
        one transaction. */
    method Consume(k: Key, now: Time) returns (r: Option<int>)
      modifies this
      ensures (r, db) == Take(old(db), now, k)
      ensures forall k', later :: Get(db, later, k') == if k' != k then Get(old(db), later, k') else None
    {
      r := Get(db, now, k);
      db := db - {k};
    }

    /** consume_pending_delete: a confirmation that does not match consumes the
        pending request all the same. */
    method ConsumePendingDelete(chat: int, server: int, now: Time) returns (ok: bool)
      modifies this
      ensures ok <==> Get(old(db), now, PendingDelete(chat)) == Some(server)
      ensures db == old(db) - {PendingDelete(chat)}
    {
      var raw := Consume(PendingDelete(chat), now);
      ok := raw == Some(server);
    }

    /** rotate_refresh_jti when nothing else runs in between. */
    method RotateRefreshJti(shown: Sid, issued: Sid, now: Time, ttl: int) returns (ok: bool)
      modifies this
      ensures ok <==> Alive(old(db), now, Refresh(shown))
      ensures db == Rotation(old(db), shown, issued, now, ttl)
    {
      ok := Alive(db, now, Refresh(shown));
      db := db - {Refresh(shown)};
      db := SetEx(db, now, Refresh(issued), 1, ttl);
      if ok {
        db := SetEx(db, now, RefreshUsed(shown), 1, ttl);
      }
    }

    /** revoke_all_refresh_for_user when nothing else runs in between: all of
        the user's sessions go, nothing else does, and the count is right. */
    method RevokeAll(user: int, now: Time) returns (deleted: nat)
      modifies this
      ensures db == old(db) - Sessions(old(db), now, user)
      ensures deleted == |Sessions(old(db), now, user)|
    {
      ScanFindsSessions(db, now, user);
      var found := ScanMatches(db, now, SessionsPattern(user));
      var left := found;
      deleted := 0;
      while left != {}
        invariant left <= found
        invariant db == old(db) - (found - left)
        invariant deleted + |left| == |found|
        decreases left
      {
        var k :| k in left;
        db := db - {k};
        left := left - {k};
        deleted := deleted + 1;
      }
    }
  }
}
