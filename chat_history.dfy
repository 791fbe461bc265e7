/**
 * The chat client's history views over the saved `chatMessages` records:
 * the list of past partners (`showChatHistoryList`) and the transcript with
 * one partner (`loadChatHistory`). The store's queries are modelled by what
 * they return; rendering is left out.
 */
module ChatHistory {
  import opened Wrappers

  type Uid = string

  /** A saved chat record: `uid` is the owner's uid and `withUid` the other party's. */
  datatype Message = Message(
    uid: Uid,
    withUid: Uid,
    from: string,
    to: string,
    fromAvatar: string,
    toAvatar: string,
    text: string,
    timestamp: int)

  /**
   * The signed-in user's display name and avatar as stored in `localStorage`
   * (`roastUsername`, `roastAvatar`); the back end's copy is `Matchmaking.Profile`.
   */
  datatype Profile = Profile(username: string, avatar: string)

  // ===========================================================================
  // Partner list (showChatHistoryList)
  // ===========================================================================

  /** One row of the partner list: whom it opens and how it is shown. */
  datatype HistoryEntry = HistoryEntry(oppoUid: Uid, oppoName: string, oppoAvatar: string)

  function Partners(s: seq<Message>): set<Uid>
  {
    set m | m in s :: m.withUid
  }

  predicate SortedDesc(s: seq<Message>)
  {
    forall i, j :: 0 <= i < j < |s| ==> s[i].timestamp >= s[j].timestamp
  }

  /** The caller's own records (`where("uid", "==", me)`), in collection order. */
  function OwnedBy(all: seq<Message>, me: Uid): (r: seq<Message>)
    ensures forall m :: m in r <==> m in all && m.uid == me
  {
    if all == [] then []
    else if all[0].uid == me then [all[0]] + OwnedBy(all[1..], me)
    else OwnedBy(all[1..], me)
  }

  /** What the partner-list query returns: the caller's records, newest first. */
  ghost predicate IsPartnerQueryResult(snapshot: seq<Message>, all: seq<Message>, me: Uid)
  {
    multiset(snapshot) == multiset(OwnedBy(all, me)) && SortedDesc(snapshot)
  }

  /**
   * The records the `seen`-set scan keeps: scanning left to right, a record is
   * kept when its `withUid` has not been kept before. The result covers every
   * partner of the input, never repeats one, and takes only input records.
   */
  function FirstContacts(s: seq<Message>): (r: seq<Message>)
    ensures Partners(r) == Partners(s)
    ensures forall i, j :: 0 <= i < j < |r| ==> r[i].withUid != r[j].withUid
    ensures forall m :: m in r ==> m in s
  {
    if s == [] then []
    else
      var init := s[..|s| - 1];
      var last := s[|s| - 1];
      assert s == init + [last];
      assert Partners(s) == Partners(init) + {last.withUid};
      var r := FirstContacts(init);
      if last.withUid in Partners(r) then r
      else
        assert Partners(r + [last]) == Partners(r) + {last.withUid};
        r + [last]
  }

  /**
   * Each kept record is the first one of its partner: any record of the same
   * partner at position `k` has the kept record at or before `k`.
   */
  lemma {:induction false} FirstContactIsEarliest(s: seq<Message>, i: nat, k: nat)
    requires i < |FirstContacts(s)| && k < |s|
    requires s[k].withUid == FirstContacts(s)[i].withUid
    ensures exists j :: 0 <= j <= k && s[j] == FirstContacts(s)[i]
  {
    var init := s[..|s| - 1];
    var r0 := FirstContacts(init);
    var r := FirstContacts(s);
    if k < |s| - 1 {
      assert s[k] == init[k];
      if i < |r0| {
        assert r[i] == r0[i];
        FirstContactIsEarliest(init, i, k);
        var j :| 0 <= j <= k && init[j] == r0[i];
        assert s[j] == r[i];
      } else {
        // r[i] would be the newly kept last record, whose partner is not among init's
        assert false;
      }
    } else {
      assert r[i] in s;
    }
  }

  /** On a newest-first scan the kept record of a partner is that partner's most recent contact. */
  lemma FirstContactIsMostRecent(s: seq<Message>)
    requires SortedDesc(s)
    ensures forall i, k ::
              (0 <= i < |FirstContacts(s)| && 0 <= k < |s| && s[k].withUid == FirstContacts(s)[i].withUid)
              ==> FirstContacts(s)[i].timestamp >= s[k].timestamp
  {
    var r := FirstContacts(s);
    forall i, k | 0 <= i < |r| && 0 <= k < |s| && s[k].withUid == r[i].withUid
      ensures r[i].timestamp >= s[k].timestamp
    {
      FirstContactIsEarliest(s, i, k);
    }
  }

  /** On a newest-first scan the kept records stay newest first. */
  lemma {:induction false} FirstContactsStaySorted(s: seq<Message>)
    requires SortedDesc(s)
    ensures SortedDesc(FirstContacts(s))
  {
    if s != [] {
      var init := s[..|s| - 1];
      var last := s[|s| - 1];
      assert SortedDesc(init);
      FirstContactsStaySorted(init);
      var r0 := FirstContacts(init);
      if last.withUid !in Partners(r0) {
        forall i | 0 <= i < |r0| ensures r0[i].timestamp >= last.timestamp {
          assert r0[i] in init;
          var j :| 0 <= j < |init| && init[j] == r0[i];
          assert s[j] == r0[i];
        }
      }
    }
  }

  /** The name and avatar of the other party, chosen by whether `from` is the user's own name. */
  function Opponent(m: Message, yourUsername: string): (r: (string, string))
    ensures r == (m.to, m.toAvatar) || r == (m.from, m.fromAvatar)
    ensures m.from == yourUsername ==> r == (m.to, m.toAvatar)
    ensures m.from != yourUsername ==> r == (m.from, m.fromAvatar)
  {
    if m.from == yourUsername then (m.to, m.toAvatar) else (m.from, m.fromAvatar)
  }

  /** The row of a kept record: it opens the record's `withUid` and shows the other party. */
  function EntryOf(m: Message, yourUsername: string): (e: HistoryEntry)
    ensures e.oppoUid == m.withUid
    ensures m.from == yourUsername ==> e.oppoName == m.to && e.oppoAvatar == m.toAvatar
    ensures m.from != yourUsername ==> e.oppoName == m.from && e.oppoAvatar == m.fromAvatar
  {
    var (name, avatar) := Opponent(m, yourUsername);
    HistoryEntry(m.withUid, name, avatar)
  }

  function EntriesOf(r: seq<Message>, yourUsername: string): (es: seq<HistoryEntry>)
    ensures |es| == |r|
    ensures forall i :: 0 <= i < |r| ==> es[i] == EntryOf(r[i], yourUsername)
  {
    if r == [] then [] else EntriesOf(r[..|r| - 1], yourUsername) + [EntryOf(r[|r| - 1], yourUsername)]
  }

  /** The rows name the kept records' partners, so they inherit "each partner once". */
  lemma EntriesNamePartners(r: seq<Message>, yourUsername: string)
    requires forall i, j :: 0 <= i < j < |r| ==> r[i].withUid != r[j].withUid
    ensures var es := EntriesOf(r, yourUsername);
      && (forall i, j :: 0 <= i < j < |es| ==> es[i].oppoUid != es[j].oppoUid)
      && (set e | e in es :: e.oppoUid) == Partners(r)
  {
    var es := EntriesOf(r, yourUsername);
    forall e | e in es ensures e.oppoUid in Partners(r) {
      var i :| 0 <= i < |es| && es[i] == e;
      assert r[i] in r;
    }
    forall p | p in Partners(r) ensures p in set e | e in es :: e.oppoUid {
      var m :| m in r && m.withUid == p;
      var i :| 0 <= i < |r| && r[i] == m;
      assert es[i] in es;
    }
  }

  /** One more step of the scan: the next record is kept exactly when its partner is new. */
  lemma FirstContactsStep(s: seq<Message>, i: nat, yourUsername: string)
    requires i < |s|
    ensures var r := FirstContacts(s[..i]);
      FirstContacts(s[..i + 1]) == (if s[i].withUid in Partners(r) then r else r + [s[i]])
    ensures s[i].withUid !in Partners(FirstContacts(s[..i])) ==>
      && Partners(FirstContacts(s[..i]) + [s[i]]) == Partners(FirstContacts(s[..i])) + {s[i].withUid}
      && EntriesOf(FirstContacts(s[..i]) + [s[i]], yourUsername)
         == EntriesOf(FirstContacts(s[..i]), yourUsername) + [EntryOf(s[i], yourUsername)]
  {
    assert s[..i + 1][..i] == s[..i];
    var r := FirstContacts(s[..i]);
    assert (r + [s[i]])[..|r|] == r;
  }

  /**
   * The `forEach` over the query snapshot with its `seen` set: one row per
   * partner, at the partner's first record in the snapshot.
   */
  method ShowChatHistoryList(snapshot: seq<Message>, yourUsername: string) returns (entries: seq<HistoryEntry>)
    ensures entries == EntriesOf(FirstContacts(snapshot), yourUsername)
    ensures forall i, j :: 0 <= i < j < |entries| ==> entries[i].oppoUid != entries[j].oppoUid
    ensures (set e | e in entries :: e.oppoUid) == Partners(snapshot)
  {
    var seen: set<Uid> := {};
    entries := [];
    ghost var kept: seq<Message> := [];
    for i := 0 to |snapshot|
      invariant kept == FirstContacts(snapshot[..i])
      invariant seen == Partners(kept)
      invariant entries == EntriesOf(kept, yourUsername)
    {
      FirstContactsStep(snapshot, i, yourUsername);
      var msg := snapshot[i];
      var oppoUid := msg.withUid;
      if oppoUid in seen {
        continue;
      }
      seen := seen + {oppoUid};
      entries := entries + [EntryOf(msg, yourUsername)];
      kept := kept + [msg];
    }
    assert snapshot[..|snapshot|] == snapshot;
    EntriesNamePartners(kept, yourUsername);
  }

  /**
   * Fed the partner-list query's result, the scan lists every partner of the
   * caller's records exactly once, each at its most recent contact, most
   * recent first.
   */
  lemma PartnerListIsRecentDistinctPartners(snapshot: seq<Message>, all: seq<Message>, me: Uid)
    requires IsPartnerQueryResult(snapshot, all, me)
    ensures var r := FirstContacts(snapshot);
      && Partners(r) == (set m | m in all && m.uid == me :: m.withUid)
      && (forall i, j :: 0 <= i < j < |r| ==> r[i].withUid != r[j].withUid)
      && (forall i :: 0 <= i < |r| ==> r[i] in all && r[i].uid == me)
      && (forall i, m :: 0 <= i < |r| && m in all && m.uid == me && m.withUid == r[i].withUid
            ==> r[i].timestamp >= m.timestamp)
      && SortedDesc(r)
  {
    var r := FirstContacts(snapshot);
    QueryHoldsOwnRecords(snapshot, all, me);
    FirstContactIsMostRecent(snapshot);
    FirstContactsStaySorted(snapshot);
    forall i, m | 0 <= i < |r| && m in all && m.uid == me && m.withUid == r[i].withUid
      ensures r[i].timestamp >= m.timestamp
    {
      var k :| 0 <= k < |snapshot| && snapshot[k] == m;
    }
  }

  /** The query's snapshot holds exactly the caller's records. */
  lemma QueryHoldsOwnRecords(snapshot: seq<Message>, all: seq<Message>, me: Uid)
    requires multiset(snapshot) == multiset(OwnedBy(all, me))
    ensures forall m :: m in snapshot <==> m in all && m.uid == me
    ensures Partners(snapshot) == (set m | m in all && m.uid == me :: m.withUid)
  {
    forall m ensures m in snapshot <==> m in OwnedBy(all, me) {
      assert m in snapshot <==> m in multiset(snapshot);
    }
  }

  // ===========================================================================
  // Conversation with one partner (loadChatHistory)
  // ===========================================================================

  /** The query's symmetric filter: records of `me` with `p`, or of `p` with `me`. */
  predicate InConversation(m: Message, me: Uid, p: Uid)
  {
    (m.uid == me && m.withUid == p) || (m.uid == p && m.withUid == me)
  }

  /** The conversation's records in collection order. */
  function Between(all: seq<Message>, me: Uid, p: Uid): (r: seq<Message>)
    ensures forall m :: m in r <==> m in all && InConversation(m, me, p)
  {
    if all == [] then []
    else if InConversation(all[0], me, p) then [all[0]] + Between(all[1..], me, p)
    else Between(all[1..], me, p)
  }

  /** Swapping the two uids selects the same records, in the same order. */
  lemma {:induction false} BetweenSymmetric(all: seq<Message>, me: Uid, p: Uid)
    ensures Between(all, me, p) == Between(all, p, me)
  {
    if all != [] {
      BetweenSymmetric(all[1..], me, p);
    }
  }

  predicate SortedAsc(s: seq<Message>)
  {
    forall i, j :: 0 <= i < j < |s| ==> s[i].timestamp <= s[j].timestamp
  }

  /** A record no newer than the head of a sorted sequence can be put in front of it. */
  lemma ConsSorted(x: Message, t: seq<Message>)
    requires SortedAsc(t)
    requires t == [] || x.timestamp <= t[0].timestamp
    ensures SortedAsc([x] + t)
  {
    var r := [x] + t;
    forall i, j | 0 <= i < j < |r| ensures r[i].timestamp <= r[j].timestamp {
      if i > 0 {
        assert r[i] == t[i - 1] && r[j] == t[j - 1];
      } else {
        assert r[j] == t[j - 1];
      }
    }
  }

  lemma TailSorted(s: seq<Message>)
    requires SortedAsc(s) && s != []
    ensures SortedAsc(s[1..])
  {
    var t := s[1..];
    forall i, j | 0 <= i < j < |t| ensures t[i].timestamp <= t[j].timestamp {
      assert t[i] == s[i + 1] && t[j] == s[j + 1];
    }
  }

  /** Puts `m` before the first record of `s` that is not older than it. */
  function InsertByTimestamp(m: Message, s: seq<Message>): (r: seq<Message>)
    requires SortedAsc(s)
    ensures SortedAsc(r)
    ensures |r| == |s| + 1 && (r[0] == m || (s != [] && r[0] == s[0]))
    ensures multiset(r) == multiset(s) + multiset{m}
  {
    if s == [] || m.timestamp <= s[0].timestamp then
      ConsSorted(m, s);
      [m] + s
    else
      var t := s[1..];
      TailSorted(s);
      var rest := InsertByTimestamp(m, t);
      assert s == [s[0]] + t;
      assert multiset(s) == multiset{s[0]} + multiset(t);
      assert t != [] ==> s[0].timestamp <= t[0].timestamp by {
        if t != [] { assert t[0] == s[1]; }
      }
      ConsSorted(s[0], rest);
      assert multiset([s[0]] + rest) == multiset{s[0]} + multiset(rest);
      [s[0]] + rest
  }

  /** `orderBy('timestamp', 'asc')`: records of equal timestamp keep their collection order. */
  function SortByTimestamp(s: seq<Message>): (r: seq<Message>)
    ensures SortedAsc(r)
    ensures multiset(r) == multiset(s)
  {
    if s == [] then []
    else
      assert s == [s[0]] + s[1..];
      InsertByTimestamp(s[0], SortByTimestamp(s[1..]))
  }

  datatype Sender = You | Stranger

  /** One rendered line: its side (`you` / `stranger`), text and the name and avatar shown. */
  datatype ChatLine = ChatLine(sender: Sender, text: string, username: string, avatar: string)

  datatype HistoryView =
    | NotSignedIn          // no user or no database: the loading note stays
    | NoConversation       // the query returned nothing
    | Transcript(lines: seq<ChatLine>)
    | LoadFailed           // the `catch`: the module import or the query threw

  /** A record is the user's own exactly when its `uid` is the user's. */
  function LabelOf(m: Message, me: Uid, you: Profile, partnerName: string, partnerAvatarUrl: string): (line: ChatLine)
    ensures line.sender == You <==> m.uid == me
    ensures line.text == m.text
    ensures line.sender == You ==> line.username == you.username && line.avatar == you.avatar
    ensures line.sender == Stranger ==> line.username == partnerName && line.avatar == partnerAvatarUrl
  {
    var isYou := m.uid == me;
    ChatLine(if isYou then You else Stranger, m.text,
             if isYou then you.username else partnerName,
             if isYou then you.avatar else partnerAvatarUrl)
  }

  function LabelAll(s: seq<Message>, me: Uid, you: Profile, partnerName: string, partnerAvatarUrl: string)
    : (lines: seq<ChatLine>)
    ensures |lines| == |s|
    ensures forall i :: 0 <= i < |s| ==> lines[i] == LabelOf(s[i], me, you, partnerName, partnerAvatarUrl)
  {
    if s == [] then []
    else [LabelOf(s[0], me, you, partnerName, partnerAvatarUrl)] + LabelAll(s[1..], me, you, partnerName, partnerAvatarUrl)
  }

  /** The conversation as the query returns it: filtered and oldest first. */
  function Conversation(all: seq<Message>, me: Uid, p: Uid): (r: seq<Message>)
    ensures SortedAsc(r)
    ensures multiset(r) == multiset(Between(all, me, p))
  {
    SortByTimestamp(Between(all, me, p))
  }

  /**
   * `loadChatHistory(withUid, partnerName, partnerAvatarUrl)` with its query,
   * order and labelling, ending in the labelled transcript. `queryFailed` says
   * whether loading the store module or running the query threw.
   */
  function LoadChatHistory(all: seq<Message>, queryFailed: bool, user: Option<Uid>, you: Profile,
                           withUid: Uid, partnerName: string, partnerAvatarUrl: string): (v: HistoryView)
    ensures v == NotSignedIn <==> user.None?
    ensures v == LoadFailed <==> user.Some? && queryFailed
    ensures v.Transcript? ==> v.lines != []
  {
    match user
    case None => NotSignedIn
    case Some(me) =>
      if queryFailed then LoadFailed else
      var conv := Conversation(all, me, withUid);
      if conv == [] then NoConversation
      else Transcript(LabelAll(conv, me, you, partnerName, partnerAvatarUrl))
  }

  /**
   * `loadChatHistory` as written: after the labelled pass it clears the chat
   * and reads the undeclared `filteredMessages`, which throws, so the `catch`
   * replaces everything with the failure note.
   */
  function LoadChatHistoryAsWritten(all: seq<Message>, queryFailed: bool, user: Option<Uid>, you: Profile,
                                    withUid: Uid, partnerName: string, partnerAvatarUrl: string): (v: HistoryView)
    ensures v == NotSignedIn <==> user.None?
    ensures user.Some? && queryFailed ==> v == LoadFailed
    ensures !v.Transcript?
  {
    match user
    case None => NotSignedIn
    case Some(me) =>
      if queryFailed then LoadFailed else
      var conv := Conversation(all, me, withUid);
      if conv == [] then NoConversation
      else LoadFailed
  }

  /**
   * The loaded transcript is exactly the conversation between the two uids,
   * oldest first, each line labelled `you` exactly when its record is the
   * signed-in user's.
   */
  lemma TranscriptIsLabelledConversation(all: seq<Message>, me: Uid, you: Profile,
                                         p: Uid, partnerName: string, partnerAvatarUrl: string)
    ensures var v := LoadChatHistory(all, false, Some(me), you, p, partnerName, partnerAvatarUrl);
      var conv := Conversation(all, me, p);
      && (v == NoConversation <==> forall m :: m in all ==> !InConversation(m, me, p))
      && (v.Transcript? ==>
            && |v.lines| == |conv|
            && SortedAsc(conv)
            && multiset(conv) == multiset(Between(all, me, p))
            && (forall i :: 0 <= i < |conv| ==> InConversation(conv[i], me, p) && conv[i] in all)
            && (forall i :: 0 <= i < |conv| ==> v.lines[i].text == conv[i].text)
            && (forall i :: 0 <= i < |conv| ==> (v.lines[i].sender == You <==> conv[i].uid == me)))
  {
    var b := Between(all, me, p);
    var conv := Conversation(all, me, p);
    assert |conv| == |b| by {
      assert |multiset(conv)| == |multiset(b)|;
    }
    if b != [] {
      assert b[0] in all && InConversation(b[0], me, p);
    }
    forall i | 0 <= i < |conv| ensures InConversation(conv[i], me, p) && conv[i] in all {
      assert conv[i] in multiset(conv);
      assert conv[i] in b;
    }
  }

  /**
   * The two users of a conversation load the same records in the same order;
   * only the `you` / `stranger` sides are swapped.
   */
  lemma TranscriptSameForBothSides(all: seq<Message>, me: Uid, p: Uid,
                                   youMe: Profile, youP: Profile,
                                   nameOfP: string, avatarOfP: string, nameOfMe: string, avatarOfMe: string)
    requires me != p
    ensures var v1 := LoadChatHistory(all, false, Some(me), youMe, p, nameOfP, avatarOfP);
      var v2 := LoadChatHistory(all, false, Some(p), youP, me, nameOfMe, avatarOfMe);
      && v1.Transcript? == v2.Transcript?
      && (v1.Transcript? ==>
            && |v1.lines| == |v2.lines|
            && forall i :: 0 <= i < |v1.lines| ==>
                 v1.lines[i].text == v2.lines[i].text &&
                 (v1.lines[i].sender == You <==> v2.lines[i].sender == Stranger))
  {
    BetweenSymmetric(all, me, p);
    var conv := Conversation(all, me, p);
    assert conv == Conversation(all, p, me);
    TranscriptIsLabelledConversation(all, me, youMe, p, nameOfP, avatarOfP);
  }

  /**
   * As written, a conversation with at least one record never reaches the
   * screen: the view ends as the failure note, where the transcript was meant.
   */
  lemma AsWrittenHidesEveryConversation(all: seq<Message>, me: Uid, you: Profile,
                                        p: Uid, partnerName: string, partnerAvatarUrl: string)
    requires exists m :: m in all && InConversation(m, me, p)
    ensures LoadChatHistoryAsWritten(all, false, Some(me), you, p, partnerName, partnerAvatarUrl) == LoadFailed
    ensures LoadChatHistory(all, false, Some(me), you, p, partnerName, partnerAvatarUrl).Transcript?
  {
    TranscriptIsLabelledConversation(all, me, you, p, partnerName, partnerAvatarUrl);
  }

  /** The smallest witness: one saved message between "a" and "b". */
  lemma AsWrittenFailsOnOneMessage()
    ensures var all := [Message("a", "b", "Ann", "Bob", "ann.png", "bob.png", "hi", 1)];
      && LoadChatHistoryAsWritten(all, false, Some("a"), Profile("Ann", "ann.png"), "b", "Bob", "bob.png") == LoadFailed
      && LoadChatHistory(all, false, Some("a"), Profile("Ann", "ann.png"), "b", "Bob", "bob.png")
         == Transcript([ChatLine(You, "hi", "Ann", "ann.png")])
  {
    var all := [Message("a", "b", "Ann", "Bob", "ann.png", "bob.png", "hi", 1)];
    assert all[1..] == [];
    assert Between(all, "a", "b") == all;
  }
}
