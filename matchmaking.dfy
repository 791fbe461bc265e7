/**
 * The matchmaking back end: the `findPartner` callable and the `cleanupUser`
 * account-deletion hook. The store is three document collections keyed by
 * document id: `waitingUsers` (keyed by uid), `sessions` (keyed by a generated
 * id) and `users` (keyed by uid, holding the active-session pointer). The
 * Firestore transaction is treated as one atomic step.
 */
module Matchmaking {
  import opened Wrappers

  type Uid = string
  type SessionId = string

  /** The display profile a caller supplies (`username`, `avatar`); the client's own copy is `ChatHistory.Profile`. */
  datatype Profile = Profile(username: string, avatar: string)

  /** A document of `waitingUsers`; its server timestamp is not modelled. */
  datatype WaitingEntry = WaitingEntry(uid: Uid, username: string, avatar: string)

  /** A document of `sessions`; its server timestamp is not modelled. */
  datatype Session = Session(participants: seq<Uid>, participantInfo: map<Uid, Profile>)

  /** A document of `users`, written whole (no merge) by the transaction. */
  datatype UserDoc = UserDoc(activeSessionId: SessionId)

  datatype Status = Waiting | Matched(sessionId: SessionId)

  /**
   * Why a call fails without writing anything: it carries no auth, or its
   * payload cannot be stored (null, or `username` or `avatar` undefined, which
   * the destructuring or the transaction's `set` rejects).
   */
  datatype Error = Unauthenticated | Rejected

  /** The three collections as one value. */
  datatype Db = Db(
    waitingUsers: map<Uid, WaitingEntry>,
    sessions: map<SessionId, Session>,
    users: map<Uid, UserDoc>)

  // ---------------------------------------------------------------------------
  // Invariants of the store
  // ---------------------------------------------------------------------------

  /** Every waiting document is stored under its own uid, so a uid has at most one. */
  ghost predicate WaitingKeyedByUid(w: map<Uid, WaitingEntry>)
  {
    forall k :: k in w ==> w[k].uid == k
  }

  /** A session pairs two distinct users and holds a profile for each of them. */
  ghost predicate WellFormedSession(s: Session)
  {
    && |s.participants| == 2
    && s.participants[0] != s.participants[1]
    && s.participantInfo.Keys == {s.participants[0], s.participants[1]}
  }

  ghost predicate Valid(db: Db)
  {
    && WaitingKeyedByUid(db.waitingUsers)
    && (forall id :: id in db.sessions ==> WellFormedSession(db.sessions[id]))
  }

  /** Every active-session pointer names an existing session the user takes part in. */
  ghost predicate PointersResolve(db: Db)
  {
    forall u :: u in db.users ==>
      db.users[u].activeSessionId in db.sessions &&
      u in db.sessions[db.users[u].activeSessionId].participants
  }

  // ---------------------------------------------------------------------------
  // The partner query: `where("uid", "!=", uid).limit(1)`
  // ---------------------------------------------------------------------------

  /**
   * The first document, in the store's enumeration `order`, whose `uid` field
   * differs from `uid`. Which document `limit(1)` returns is up to the store;
   * `order` is that tie-break.
   */
  function FirstWaitingOther(w: map<Uid, WaitingEntry>, uid: Uid, order: seq<Uid>): (k: Option<Uid>)
    ensures k.Some? ==> k.value in w && w[k.value].uid != uid && k.value in order
    ensures k.None? ==> forall j :: j in order && j in w ==> w[j].uid == uid
  {
    if order == [] then None
    else if order[0] in w && w[order[0]].uid != uid then Some(order[0])
    else FirstWaitingOther(w, uid, order[1..])
  }

  /** When `order` enumerates the whole collection, the query finds a document exactly when one exists. */
  lemma QueryFindsOtherIffOneWaits(w: map<Uid, WaitingEntry>, uid: Uid, order: seq<Uid>)
    requires w.Keys <= set k | k in order
    ensures FirstWaitingOther(w, uid, order).Some? <==> exists k :: k in w && w[k].uid != uid
  {
    if exists k :: k in w && w[k].uid != uid {
      var k :| k in w && w[k].uid != uid;
      assert k in order;
    }
  }

  // ---------------------------------------------------------------------------
  // findPartner and cleanupUser as functions on the store value
  // ---------------------------------------------------------------------------

  /** The session a match creates, with both profile snapshots. */
  function NewSession(uid: Uid, profile: Profile, partner: WaitingEntry): (s: Session)
    ensures s.participantInfo.Keys == {uid, partner.uid}
    ensures s.participantInfo[partner.uid] == Profile(partner.username, partner.avatar)
    ensures uid != partner.uid ==> s.participantInfo[uid] == profile && WellFormedSession(s)
  {
    Session([uid, partner.uid],
            map[uid := profile, partner.uid := Profile(partner.username, partner.avatar)])
  }

  /**
   * The effect of one `findPartner` call: the new store and the reply.
   * `caller` is the authenticated uid (None when the call carries no auth),
   * `newId` the id the store generates for `sessions.doc()`.
   */
  function Pair(db: Db, caller: Option<Uid>, profile: Profile, order: seq<Uid>, newId: SessionId)
    : (r: (Db, Result<Status, Error>))
    ensures r.1.Err? <==> caller.None?
    ensures r.1.Err? ==> r.0 == db
    ensures r.1 == Ok(Waiting) ==> r.0.sessions == db.sessions && r.0.users == db.users
    ensures r.1.Ok? && r.1.value.Matched? ==> r.1.value.sessionId == newId && newId in r.0.sessions
    ensures caller.Some? ==> r.0.waitingUsers.Keys <= db.waitingUsers.Keys + {caller.value}
  {
    match caller
    case None => (db, Err(Unauthenticated))
    case Some(uid) =>
      match FirstWaitingOther(db.waitingUsers, uid, order)
      case None =>
        (db.(waitingUsers := db.waitingUsers[uid := WaitingEntry(uid, profile.username, profile.avatar)]),
         Ok(Waiting))
      case Some(k) =>
        var partner := db.waitingUsers[k];
        (Db(db.waitingUsers - {k},
            db.sessions[newId := NewSession(uid, profile, partner)],
            db.users[uid := UserDoc(newId)][partner.uid := UserDoc(newId)]),
         Ok(Matched(newId)))
  }

  /**
   * One `findPartner` call as the client makes it: the auth check comes first,
   * then a payload that cannot be stored (`request` None) fails the call, and
   * otherwise the transaction runs. A failed call writes nothing.
   */
  function FindPartnerCall(db: Db, caller: Option<Uid>, request: Option<Profile>, order: seq<Uid>, newId: SessionId)
    : (r: (Db, Result<Status, Error>))
    ensures r.1.Err? ==> r.0 == db
    ensures r.1 == Err(Unauthenticated) <==> caller.None?
    ensures r.1 == Err(Rejected) <==> caller.Some? && request.None?
    ensures request.Some? ==> r == Pair(db, caller, request.value, order, newId)
  {
    if caller.Some? && request.None? then (db, Err(Rejected))
    else if caller.None? then (db, Err(Unauthenticated))
    else Pair(db, caller, request.value, order, newId)
  }

  /** The effect of `cleanupUser`: delete the user's waiting document, if any. */
  function Cleanup(db: Db, uid: Uid): (db': Db)
    ensures db'.sessions == db.sessions && db'.users == db.users
    ensures uid !in db'.waitingUsers
    ensures forall k :: k in db.waitingUsers && k != uid ==> k in db'.waitingUsers && db'.waitingUsers[k] == db.waitingUsers[k]
    ensures db'.waitingUsers.Keys <= db.waitingUsers.Keys
  {
    db.(waitingUsers := db.waitingUsers - {uid})
  }

  // ---------------------------------------------------------------------------
  // Properties of findPartner
  // ---------------------------------------------------------------------------

  /** An unauthenticated call is rejected and writes nothing. */
  lemma UnauthenticatedChangesNothing(db: Db, profile: Profile, order: seq<Uid>, newId: SessionId)
    ensures Pair(db, None, profile, order, newId) == (db, Err(Unauthenticated))
  {
  }

  /**
   * When no waiting document has a uid other than the caller's, the caller is
   * enqueued under its uid (overwriting any entry it already had) and the
   * sessions and users collections are untouched.
   */
  lemma NoOtherWaiterEnqueues(db: Db, uid: Uid, profile: Profile, order: seq<Uid>, newId: SessionId)
    requires forall k :: k in db.waitingUsers ==> db.waitingUsers[k].uid == uid
    ensures var (db', r) := Pair(db, Some(uid), profile, order, newId);
      && r == Ok(Waiting)
      && db'.waitingUsers == db.waitingUsers[uid := WaitingEntry(uid, profile.username, profile.avatar)]
      && db'.sessions == db.sessions
      && db'.users == db.users
  {
  }

  /** Enqueueing keeps at most one waiting document per uid: a second request overwrites, never duplicates. */
  lemma EnqueueKeepsOneEntryPerUser(db: Db, uid: Uid, profile: Profile, order: seq<Uid>, newId: SessionId)
    requires Valid(db)
    requires Pair(db, Some(uid), profile, order, newId).1 == Ok(Waiting)
    ensures var w' := Pair(db, Some(uid), profile, order, newId).0.waitingUsers;
      && WaitingKeyedByUid(w')
      && uid in w' && w'[uid] == WaitingEntry(uid, profile.username, profile.avatar)
      && w'.Keys == db.waitingUsers.Keys + {uid}
      && |w'| == (if uid in db.waitingUsers then |db.waitingUsers| else |db.waitingUsers| + 1)
  {
    var w := db.waitingUsers;
    var e := WaitingEntry(uid, profile.username, profile.avatar);
    match FirstWaitingOther(w, uid, order)
    case None =>
      UpdateSize(w, uid, e);
    case Some(_) =>
      // the call would have matched
  }

  /** Writing a key adds one document exactly when the key was absent. */
  lemma UpdateSize<K, V>(w: map<K, V>, k: K, e: V)
    ensures w[k := e].Keys == w.Keys + {k}
    ensures |w[k := e]| == (if k in w then |w| else |w| + 1)
  {
    var w' := w[k := e];
    assert w'.Keys == w.Keys + {k};
    if k !in w {
      assert |w'.Keys| == |w.Keys| + 1;
    }
  }

  /**
   * If some other user waits and the store enumerates the whole collection,
   * the call matches.
   */
  lemma OtherWaiterMatches(db: Db, uid: Uid, profile: Profile, order: seq<Uid>, newId: SessionId)
    requires db.waitingUsers.Keys <= set k | k in order
    requires exists k :: k in db.waitingUsers && db.waitingUsers[k].uid != uid
    ensures Pair(db, Some(uid), profile, order, newId).1 == Ok(Matched(newId))
  {
    QueryFindsOtherIffOneWaits(db.waitingUsers, uid, order);
  }

  /**
   * A match never pairs the caller with themself: the partner is an existing
   * waiting document whose uid differs from the caller's, and the new session
   * lists the caller first and that partner second, with the caller's supplied
   * profile and the partner's stored one.
   */
  lemma MatchIsWithAnotherWaitingUser(db: Db, uid: Uid, profile: Profile, order: seq<Uid>, newId: SessionId)
    requires Pair(db, Some(uid), profile, order, newId).1.Ok?
    requires Pair(db, Some(uid), profile, order, newId).1.value.Matched?
    ensures var db' := Pair(db, Some(uid), profile, order, newId).0;
      exists k :: k in db.waitingUsers && db.waitingUsers[k].uid != uid &&
        var p := db.waitingUsers[k];
        && newId in db'.sessions
        && db'.sessions[newId].participants == [uid, p.uid]
        && db'.sessions[newId].participantInfo[uid] == profile
        && db'.sessions[newId].participantInfo[p.uid] == Profile(p.username, p.avatar)
        && WellFormedSession(db'.sessions[newId])
  {
    var k := FirstWaitingOther(db.waitingUsers, uid, order).value;
    assert db.waitingUsers[k].uid != uid;
  }

  /**
   * A match removes exactly the partner's waiting document: the count drops
   * by one and every other document, the caller's own included, is kept.
   */
  lemma MatchConsumesExactlyOneEntry(db: Db, uid: Uid, profile: Profile, order: seq<Uid>, newId: SessionId)
    requires Valid(db)
    requires Pair(db, Some(uid), profile, order, newId).1.Ok?
    requires Pair(db, Some(uid), profile, order, newId).1.value.Matched?
    ensures var db' := Pair(db, Some(uid), profile, order, newId).0;
      && |db'.waitingUsers| == |db.waitingUsers| - 1
      && (exists p :: p in db.waitingUsers && p != uid && db'.waitingUsers == db.waitingUsers - {p})
      && db'.waitingUsers == db.waitingUsers - {db'.sessions[newId].participants[1]}
      && (uid in db.waitingUsers ==> uid in db'.waitingUsers && db'.waitingUsers[uid] == db.waitingUsers[uid])
  {
    var w := db.waitingUsers;
    var k := FirstWaitingOther(w, uid, order).value;
    var w' := w - {k};
    assert w'.Keys == w.Keys - {k};
    assert |w'.Keys| == |w.Keys| - 1;
    assert k != uid;
  }

  /**
   * A match with a fresh id adds exactly one session under that id, keeps
   * every other session, and replies with the same id.
   */
  lemma MatchCreatesFreshSession(db: Db, uid: Uid, profile: Profile, order: seq<Uid>, newId: SessionId)
    requires newId !in db.sessions
    requires Pair(db, Some(uid), profile, order, newId).1.Ok?
    requires Pair(db, Some(uid), profile, order, newId).1.value.Matched?
    ensures Pair(db, Some(uid), profile, order, newId).1.value.sessionId == newId
    ensures var db' := Pair(db, Some(uid), profile, order, newId).0;
      && db'.sessions.Keys == db.sessions.Keys + {newId}
      && |db'.sessions| == |db.sessions| + 1
      && (forall id :: id in db.sessions ==> db'.sessions[id] == db.sessions[id])
  {
    match FirstWaitingOther(db.waitingUsers, uid, order)
    case None =>
    case Some(k) =>
      UpdateSize(db.sessions, newId, NewSession(uid, profile, db.waitingUsers[k]));
  }

  /**
   * A match points both participants of the new session at it, and leaves
   * every other user's pointer as it was.
   */
  lemma MatchPointsBothUsers(db: Db, uid: Uid, profile: Profile, order: seq<Uid>, newId: SessionId)
    requires Pair(db, Some(uid), profile, order, newId).1.Ok?
    requires Pair(db, Some(uid), profile, order, newId).1.value.Matched?
    ensures var db' := Pair(db, Some(uid), profile, order, newId).0;
      var ps := db'.sessions[newId].participants;
      && |ps| == 2
      && db'.users.Keys == db.users.Keys + {ps[0], ps[1]}
      && db'.users[ps[0]] == UserDoc(newId) && db'.users[ps[1]] == UserDoc(newId)
      && (forall u :: u in db.users && u != ps[0] && u != ps[1] ==> db'.users[u] == db.users[u])
  {
    var k := FirstWaitingOther(db.waitingUsers, uid, order).value;
    var partner := db.waitingUsers[k];
    var db' := Pair(db, Some(uid), profile, order, newId).0;
    assert db'.sessions[newId].participants == [uid, partner.uid];
    assert db'.users == db.users[uid := UserDoc(newId)][partner.uid := UserDoc(newId)];
  }

  /** findPartner keeps the store's invariants: waiting documents keyed by uid, sessions of two distinct users. */
  lemma PairPreservesValid(db: Db, caller: Option<Uid>, profile: Profile, order: seq<Uid>, newId: SessionId)
    requires Valid(db)
    ensures Valid(Pair(db, caller, profile, order, newId).0)
  {
    match caller
    case None =>
    case Some(uid) =>
      match FirstWaitingOther(db.waitingUsers, uid, order)
      case None =>
      case Some(k) =>
        var p := db.waitingUsers[k];
        assert WellFormedSession(NewSession(uid, profile, p));
        assert Pair(db, caller, profile, order, newId).0.sessions == db.sessions[newId := NewSession(uid, profile, p)];
  }

  /** With a fresh session id, findPartner leaves every active-session pointer resolvable. */
  lemma PairPreservesPointers(db: Db, caller: Option<Uid>, profile: Profile, order: seq<Uid>, newId: SessionId)
    requires PointersResolve(db) && newId !in db.sessions
    ensures PointersResolve(Pair(db, caller, profile, order, newId).0)
  {
    match caller
    case None =>
    case Some(uid) =>
      match FirstWaitingOther(db.waitingUsers, uid, order)
      case None =>
      case Some(k) =>
        var p := db.waitingUsers[k];
        var db' := Pair(db, caller, profile, order, newId).0;
        assert db'.sessions == db.sessions[newId := NewSession(uid, profile, p)];
        assert db'.users == db.users[uid := UserDoc(newId)][p.uid := UserDoc(newId)];
  }

  /**
   * Two users with no one else waiting who call findPartner one after the other
   * end up in exactly one session together, with no waiting document left for
   * either of them.
   */
  lemma TwoCallersArePairedOnce(db: Db, a: Uid, pa: Profile, b: Uid, pb: Profile, order: seq<Uid>, id1: SessionId, id2: SessionId)
    requires a != b
    requires db.waitingUsers == map[]
    requires a in order
    ensures var (db1, r1) := Pair(db, Some(a), pa, order, id1);
      var (db2, r2) := Pair(db1, Some(b), pb, order, id2);
      && r1 == Ok(Waiting) && |db1.waitingUsers| == 1
      && r2 == Ok(Matched(id2)) && db2.waitingUsers == map[]
      && db2.sessions[id2].participants == [b, a]
      && db2.users[a] == UserDoc(id2) && db2.users[b] == UserDoc(id2)
  {
    var w1 := map[a := WaitingEntry(a, pa.username, pa.avatar)];
    NoOtherWaiterEnqueues(db, a, pa, order, id1);
    var db1 := Pair(db, Some(a), pa, order, id1).0;
    assert db1.waitingUsers == w1;
    assert w1.Keys == {a};
    OtherWaiterMatches(db1, b, pb, order, id2);
    assert FirstWaitingOther(w1, b, order) == Some(a);
    MatchPointsBothUsers(db1, b, pb, order, id2);
    assert w1 - {a} == map[];
  }

  // ---------------------------------------------------------------------------
  // Properties of cleanupUser
  // ---------------------------------------------------------------------------

  /** Deleting an absent waiting document leaves the store as it was. */
  lemma CleanupAbsentIsNoop(db: Db, uid: Uid)
    requires uid !in db.waitingUsers
    ensures Cleanup(db, uid) == db
  {
    assert db.waitingUsers - {uid} == db.waitingUsers;
  }

  /** Running cleanupUser twice is the same as running it once, and it keeps the invariants. */
  lemma CleanupIdempotent(db: Db, uid: Uid)
    ensures Cleanup(Cleanup(db, uid), uid) == Cleanup(db, uid)
    ensures Valid(db) ==> Valid(Cleanup(db, uid))
    ensures PointersResolve(db) ==> PointersResolve(Cleanup(db, uid))
  {
    CleanupAbsentIsNoop(Cleanup(db, uid), uid);
  }

  // ---------------------------------------------------------------------------
  // The store as the callable functions see it: three collections updated in place
  // ---------------------------------------------------------------------------

  class Database {
    var waitingUsers: map<Uid, WaitingEntry>
    var sessions: map<SessionId, Session>
    var users: map<Uid, UserDoc>

    function Snapshot(): Db
      reads this
    {
      Db(waitingUsers, sessions, users)
    }

    /** An empty store. */
    constructor ()
      ensures Valid(Snapshot()) && PointersResolve(Snapshot())
      ensures waitingUsers == map[] && sessions == map[] && users == map[]
    {
      waitingUsers, sessions, users := map[], map[], map[];
    }

    /**
     * `findPartner`: reject an unauthenticated call, then a payload that cannot
     * be stored, before any write; else in one transaction either enqueue the
     * caller or create the session, delete the partner's waiting document and
     * set both users' pointers. `order` is the store's enumeration of the whole
     * waiting collection.
     */
    method FindPartner(caller: Option<Uid>, request: Option<Profile>, order: seq<Uid>, newId: SessionId)
      returns (r: Result<Status, Error>)
      requires Valid(Snapshot())
      requires waitingUsers.Keys <= set k | k in order
      modifies this
      ensures (Snapshot(), r) == FindPartnerCall(old(Snapshot()), caller, request, order, newId)
      ensures caller.Some? && request.Some? ==>
        (r == Ok(Waiting) <==> forall k :: k in old(waitingUsers) ==> old(waitingUsers)[k].uid == caller.value)
      ensures Valid(Snapshot())
      ensures old(PointersResolve(Snapshot()) && newId !in sessions) ==> PointersResolve(Snapshot())
    {
      if caller.None? {
        return Err(Unauthenticated);
      }
      if request.None? {
        return Err(Rejected);
      }
      var uid := caller.value;
      var profile := request.value;
      PairPreservesValid(Snapshot(), caller, profile, order, newId);
      if PointersResolve(Snapshot()) && newId !in sessions {
        PairPreservesPointers(Snapshot(), caller, profile, order, newId);
      }
      QueryFindsOtherIffOneWaits(waitingUsers, uid, order);
      var found := FirstWaitingOther(waitingUsers, uid, order);
      if found.None? {
        waitingUsers := waitingUsers[uid := WaitingEntry(uid, profile.username, profile.avatar)];
        return Ok(Waiting);
      }
      var partner := waitingUsers[found.value];
      sessions := sessions[newId := NewSession(uid, profile, partner)];
      waitingUsers := waitingUsers - {found.value};
      users := users[uid := UserDoc(newId)];
      users := users[partner.uid := UserDoc(newId)];
      return Ok(Matched(newId));
    }

    /** `cleanupUser`: delete the deleted user's waiting document, if there is one. */
    method CleanupUser(uid: Uid)
      requires Valid(Snapshot())
      modifies this
      ensures Snapshot() == Cleanup(old(Snapshot()), uid)
      ensures Valid(Snapshot())
      ensures old(PointersResolve(Snapshot())) ==> PointersResolve(Snapshot())
    {
      CleanupIdempotent(Snapshot(), uid);
      waitingUsers := waitingUsers - {uid};
    }
  }
}
