/** Duplicate chat-session cleanup: the `cleanup_chat_sessions` management
    command (chatapp/management/commands/cleanup_chat_sessions.py) and the
    admin action `ChatSessionAdmin.cleanup_duplicates` (chatapp/admin.py).
    The session and message tables are maps from row id to row. For every
    (user, document) pair with more than one session, the newest session is
    kept, the messages of the others are moved onto it, and the others are
    deleted. */
module SessionCleanup {
  import opened Text
  import opened Models

  /** A `ChatSession` row. */
  datatype SessionRow = SessionRow(user: nat, document: nat, createdAt: int)

  /** The (user_id, document_id) pair the rows are grouped by. */
  datatype Pair = Pair(user: nat, document: nat)

  type Sessions = map<nat, SessionRow>
  type Messages = map<nat, Message>

  function PairOf(r: SessionRow): Pair
  {
    Pair(r.user, r.document)
  }

  /** The ids of the sessions of one pair. */
  function Group(sessions: Sessions, p: Pair): set<nat>
  {
    set id | id in sessions && PairOf(sessions[id]) == p
  }

  /** `values('user_id', 'document_id').annotate(count=Count('id')).filter(count__gt=1)` */
  function DuplicatePairs(sessions: Sessions): set<Pair>
  {
    set id | id in sessions && |Group(sessions, PairOf(sessions[id]))| > 1 :: PairOf(sessions[id])
  }

  /** `keep` is a session of `p` with the latest `created_at`: the first row
      of the group ordered by `-created_at`. */
  predicate Latest(sessions: Sessions, p: Pair, keep: nat)
  {
    keep in Group(sessions, p)
    && forall id :: id in Group(sessions, p) ==> sessions[id].createdAt <= sessions[keep].createdAt
  }

  /** The kept session chosen for each processed pair. */
  predicate KeepChoice(sessions: Sessions, keepOf: map<Pair, nat>)
  {
    forall p :: p in keepOf ==> Latest(sessions, p, keepOf[p])
  }

  /** Every id of `ids` is redirected to `keep`. */
  function ToKeep(ids: set<nat>, keep: nat): map<nat, nat>
  {
    map id | id in ids :: keep
  }

  /** Each removed session, mapped to the session that absorbs it. */
  function Removals(sessions: Sessions, keepOf: map<Pair, nat>): map<nat, nat>
  {
    map id | id in sessions && PairOf(sessions[id]) in keepOf && id != keepOf[PairOf(sessions[id])]
      :: keepOf[PairOf(sessions[id])]
  }

  /** The session table once the sessions in `r` are deleted. */
  function Surviving(sessions: Sessions, r: map<nat, nat>): Sessions
  {
    map id | id in sessions && id !in r :: sessions[id]
  }

  /** The message table once the messages of each session in `r` are moved
      to the session it maps to. */
  function Redirected(messages: Messages, r: map<nat, nat>): Messages
  {
    map m | m in messages :: if messages[m].session in r then messages[m].(session := r[messages[m].session]) else messages[m]
  }

  /** The messages that belong to a session in `r`. */
  function MovedIds(messages: Messages, r: map<nat, nat>): set<nat>
  {
    set m | m in messages && messages[m].session in r
  }

  /** `ChatMessage.objects.filter(session=s)` */
  function SessionMessages(messages: Messages, s: nat): set<nat>
  {
    set m | m in messages && messages[m].session == s
  }

  /** `filter(session=s).update(session=keep)` */
  function MoveMessages(messages: Messages, s: nat, keep: nat): Messages
  {
    map m | m in messages :: if messages[m].session == s then messages[m].(session := keep) else messages[m]
  }

  /** Deleting a session cascades to its messages. */
  function CascadeDelete(messages: Messages, s: nat): Messages
  {
    map m | m in messages && messages[m].session != s :: messages[m]
  }

  /** `keep` is a session of `g` created no earlier than any other of `g`. */
  predicate NewestIn(sessions: Sessions, g: set<nat>, keep: nat)
  {
    && g <= sessions.Keys && keep in g
    && forall id :: id in g ==> sessions[id].createdAt <= sessions[keep].createdAt
  }

  /** A finite non-empty group has a newest session. */
  lemma {:induction false} LatestExists(sessions: Sessions, g: set<nat>)
    requires g != {} && g <= sessions.Keys
    ensures exists keep :: NewestIn(sessions, g, keep)
    decreases |g|
  {
    var x :| x in g;
    if g == {x} {
      assert NewestIn(sessions, g, x);
    } else {
      var rest := g - {x};
      LatestExists(sessions, rest);
      var k :| NewestIn(sessions, rest, k);
      assert rest + {x} == g;
      if sessions[x].createdAt <= sessions[k].createdAt {
        NewestOfAdded(sessions, rest, x, k, k);
      } else {
        NewestOfAdded(sessions, rest, x, k, x);
      }
    }
  }

  /** Adding `x` to a group whose newest is `k`: the later of the two is the newest. */
  lemma NewestOfAdded(sessions: Sessions, rest: set<nat>, x: nat, k: nat, winner: nat)
    requires NewestIn(sessions, rest, k) && x in sessions
    requires winner == (if sessions[x].createdAt <= sessions[k].createdAt then k else x)
    ensures NewestIn(sessions, rest + {x}, winner)
  {
  }

  /** Moving one more session's messages, when no earlier redirection points
      at it, extends the redirection by that session. */
  lemma MoveExtendsRedirect(messages: Messages, done: set<nat>, s: nat, keep: nat)
    requires s !in done && s != keep
    ensures MoveMessages(Redirected(messages, ToKeep(done, keep)), s, keep)
            == Redirected(messages, ToKeep(done + {s}, keep))
    ensures |MovedIds(messages, ToKeep(done + {s}, keep))|
            == |MovedIds(messages, ToKeep(done, keep))| + |SessionMessages(Redirected(messages, ToKeep(done, keep)), s)|
  {
    var before := Redirected(messages, ToKeep(done, keep));
    var after := Redirected(messages, ToKeep(done + {s}, keep));
    forall m | m in messages
      ensures MoveMessages(before, s, keep)[m] == after[m]
    {
    }
    assert MoveMessages(before, s, keep).Keys == after.Keys;
    MovedIdsExtend(messages, done, s, keep);
  }

  lemma MovedIdsExtend(messages: Messages, done: set<nat>, s: nat, keep: nat)
    requires s !in done && s != keep
    ensures |MovedIds(messages, ToKeep(done + {s}, keep))|
            == |MovedIds(messages, ToKeep(done, keep))| + |SessionMessages(Redirected(messages, ToKeep(done, keep)), s)|
  {
    SessionUntouchedByRedirect(messages, done, s, keep);
    MovedIdsSplit(messages, done, s, keep);
  }

  /** Redirecting the sessions of `done` to `keep` leaves the messages of
      another session `s` where they are. */
  lemma SessionUntouchedByRedirect(messages: Messages, done: set<nat>, s: nat, keep: nat)
    requires s !in done && s != keep
    ensures SessionMessages(Redirected(messages, ToKeep(done, keep)), s) == SessionMessages(messages, s)
  {
    var r := ToKeep(done, keep);
    forall m | m in messages
      ensures Redirected(messages, r)[m].session == s <==> messages[m].session == s
    {
    }
  }

  /** The messages moved for `done + {s}` are those moved for `done` and,
      apart from them, those of `s`. */
  lemma MovedIdsSplit(messages: Messages, done: set<nat>, s: nat, keep: nat)
    requires s !in done
    ensures MovedIds(messages, ToKeep(done + {s}, keep))
            == MovedIds(messages, ToKeep(done, keep)) + SessionMessages(messages, s)
    ensures MovedIds(messages, ToKeep(done, keep)) !! SessionMessages(messages, s)
  {
  }

  /** Moving one element from `others` to `done` keeps them a partition of the same set. */
  lemma MoveOneOver(others: set<nat>, done: set<nat>, s: nat)
    requires s in others && others !! done
    ensures (others - {s}) !! (done + {s})
    ensures (others - {s}) + (done + {s}) == others + done
  {
  }

  /** Deleting one more session extends the deletions by that session. */
  lemma DeleteExtendsSurviving(sessions: Sessions, done: set<nat>, s: nat, keep: nat)
    requires s !in done
    ensures Surviving(sessions, ToKeep(done, keep)) - {s} == Surviving(sessions, ToKeep(done + {s}, keep))
    ensures |ToKeep(done + {s}, keep)| == |ToKeep(done, keep)| + 1
  {
    assert ToKeep(done + {s}, keep) == ToKeep(done, keep)[s := keep];
  }

  /** Once a session has no messages left, deleting it removes no message. */
  lemma CascadeOfEmptySession(messages: Messages, s: nat)
    requires SessionMessages(messages, s) == {}
    ensures CascadeDelete(messages, s) == messages
  {
    forall m | m in messages
      ensures messages[m].session != s
    {
      assert m !in SessionMessages(messages, s);
    }
  }

  /** A session's messages are moved away from it entirely. */
  lemma MovedSessionIsEmpty(messages: Messages, s: nat, keep: nat)
    requires s != keep
    ensures SessionMessages(MoveMessages(messages, s, keep), s) == {}
  {
  }

  /** With no messages to move, moving is the identity. */
  lemma MoveOfEmptySession(messages: Messages, s: nat, keep: nat)
    requires SessionMessages(messages, s) == {}
    ensures MoveMessages(messages, s, keep) == messages
  {
    forall m | m in messages
      ensures messages[m].session != s
    {
      assert m !in SessionMessages(messages, s);
    }
  }

  /** Redirections compose when the first one's targets are not redirected
      again and the two remove different sessions. */
  lemma RedirectCompose(messages: Messages, r: map<nat, nat>, q: map<nat, nat>)
    requires r.Keys !! q.Keys
    requires forall id :: id in r ==> r[id] !in q
    ensures Redirected(Redirected(messages, r), q) == Redirected(messages, r + q)
    ensures MovedIds(Redirected(messages, r), q) == MovedIds(messages, q)
    ensures MovedIds(messages, r + q) == MovedIds(messages, r) + MovedIds(messages, q)
    ensures MovedIds(messages, r) !! MovedIds(messages, q)
  {
  }

  lemma SurvivingCompose(sessions: Sessions, r: map<nat, nat>, q: map<nat, nat>)
    ensures Surviving(Surviving(sessions, r), q) == Surviving(sessions, r + q)
  {
  }

  /** Disjoint redirections add up. */
  lemma UnionSize(r: map<nat, nat>, q: map<nat, nat>)
    requires r.Keys !! q.Keys
    ensures |r + q| == |r| + |q|
  {
    assert (r + q).Keys == r.Keys + q.Keys;
  }

  /** A pair not yet processed still has all its sessions, unchanged. */
  lemma GroupUntouched(sessions: Sessions, keepOf: map<Pair, nat>, p: Pair)
    requires p !in keepOf
    ensures Group(Surviving(sessions, Removals(sessions, keepOf)), p) == Group(sessions, p)
    ensures forall id :: id in Group(sessions, p) ==> Surviving(sessions, Removals(sessions, keepOf))[id] == sessions[id]
  {
  }

  /** Processing pair `p` with kept session `keep` adds exactly the group's
      other sessions to the removals, disjointly from the earlier ones and
      from their targets. */
  lemma RemovalsExtend(sessions: Sessions, keepOf: map<Pair, nat>, p: Pair, keep: nat)
    requires KeepChoice(sessions, keepOf) && p !in keepOf && keep in Group(sessions, p)
    ensures var r := Removals(sessions, keepOf);
      var q := ToKeep(Group(sessions, p) - {keep}, keep);
      && r.Keys !! q.Keys
      && (forall id :: id in r ==> r[id] !in q)
      && r + q == Removals(sessions, keepOf[p := keep])
  {
    var r := Removals(sessions, keepOf);
    var q := ToKeep(Group(sessions, p) - {keep}, keep);
    forall id | id in r
      ensures r[id] !in q
    {
      var pp := PairOf(sessions[id]);
      assert Latest(sessions, pp, keepOf[pp]);
    }
  }

  /** Removing all but the kept sessions of every duplicated pair leaves at
      most one session per pair, and for a duplicated pair exactly the kept one. */
  lemma {:induction false} OneSessionPerPair(sessions: Sessions, keepOf: map<Pair, nat>)
    requires keepOf.Keys == DuplicatePairs(sessions) && KeepChoice(sessions, keepOf)
    ensures var after := Surviving(sessions, Removals(sessions, keepOf));
      && (forall i, j :: i in after && j in after && PairOf(after[i]) == PairOf(after[j]) ==> i == j)
      && (forall p :: p in keepOf ==> Group(after, p) == {keepOf[p]})
  {
    var after := Surviving(sessions, Removals(sessions, keepOf));
    forall i, j | i in after && j in after && PairOf(after[i]) == PairOf(after[j])
      ensures i == j
    {
      var p := PairOf(sessions[i]);
      if p in keepOf {
        assert i == keepOf[p] && j == keepOf[p];
      } else {
        assert i in Group(sessions, p) && j in Group(sessions, p);
        if i != j {
          assert {i, j} <= Group(sessions, p);
          assert |{i, j}| == 2;
          SubsetSize({i, j}, Group(sessions, p));
        }
      }
    }
    forall p | p in keepOf
      ensures Group(after, p) == {keepOf[p]}
    {
      assert Latest(sessions, p, keepOf[p]);
    }
  }

  lemma SubsetSize(a: set<nat>, b: set<nat>)
    requires a <= b
    ensures |a| <= |b|
  {
    assert b == a + (b - a);
  }

  /** A session whose pair has no duplicate survives unchanged, and so do its messages. */
  lemma SingletonsUntouched(sessions: Sessions, messages: Messages, keepOf: map<Pair, nat>, id: nat)
    requires keepOf.Keys == DuplicatePairs(sessions)
    requires id in sessions && |Group(sessions, PairOf(sessions[id]))| <= 1
    ensures var r := Removals(sessions, keepOf);
      && id in Surviving(sessions, r) && Surviving(sessions, r)[id] == sessions[id]
      && forall m :: m in messages && messages[m].session == id ==> Redirected(messages, r)[m] == messages[m]
  {
  }

  /** No message is lost or created, and a moved message keeps its author,
      text and timestamp; a message of a removed session now belongs to the
      session that absorbed it. */
  lemma MessagesConserved(messages: Messages, r: map<nat, nat>)
    ensures Redirected(messages, r).Keys == messages.Keys
    ensures |Redirected(messages, r)| == |messages|
    ensures forall m :: m in messages ==>
      var n := Redirected(messages, r)[m];
      n.isUser == messages[m].isUser && n.text == messages[m].text && n.timestamp == messages[m].timestamp
      && n.session == (if messages[m].session in r then r[messages[m].session] else messages[m].session)
  {
    var after := Redirected(messages, r);
    assert after.Keys == messages.Keys;
  }

  /** Every message still points at an existing session after the cleanup,
      provided it did before. */
  lemma {:induction false} NoDanglingMessages(sessions: Sessions, messages: Messages, keepOf: map<Pair, nat>)
    requires KeepChoice(sessions, keepOf)
    requires forall m :: m in messages ==> messages[m].session in sessions
    ensures var r := Removals(sessions, keepOf);
      forall m :: m in Redirected(messages, r) ==> Redirected(messages, r)[m].session in Surviving(sessions, r)
  {
    var r := Removals(sessions, keepOf);
    forall m | m in Redirected(messages, r)
      ensures Redirected(messages, r)[m].session in Surviving(sessions, r)
    {
      var s := messages[m].session;
      if s in r {
        var p := PairOf(sessions[s]);
        assert Latest(sessions, p, keepOf[p]);
      }
    }
  }

  /** Sessions deleted plus sessions left is the original number. */
  lemma DeletedCount(sessions: Sessions, r: map<nat, nat>)
    requires r.Keys <= sessions.Keys
    ensures |Surviving(sessions, r)| + |r| == |sessions|
  {
    assert Surviving(sessions, r).Keys == sessions.Keys - r.Keys;
    assert sessions.Keys == (sessions.Keys - r.Keys) + r.Keys;
  }

  lemma RemovalsAreSessions(sessions: Sessions, keepOf: map<Pair, nat>)
    ensures Removals(sessions, keepOf).Keys <= sessions.Keys
  {
  }

  /** The summary line of the command. */
  function CommandSummary(dryRun: bool, moved: nat, deleted: nat): string
  {
    (if dryRun then "[DRY RUN] Would have" else "Successfully")
      + " moved " + NatToString(moved) + " messages and deleted " + NatToString(deleted) + " duplicate sessions"
  }

  /** The admin action's confirmation message. */
  function AdminMessage(deleted: nat, moved: nat): string
  {
    "Cleaned up " + NatToString(deleted) + " duplicate sessions, moved " + NatToString(moved) + " messages."
  }

  /** The admin message states both counters, and they can be read back. */
  lemma AdminMessageCounts(deleted: nat, moved: nat)
    ensures var msg := AdminMessage(deleted, moved);
      var d := NatToString(deleted);
      && OccursAt(msg, d, 11)
      && OccursAt(msg, NatToString(moved), 11 + |d| + 27)
      && ParseDigits(msg[11..11 + |d|]) == deleted
  {
    var msg := AdminMessage(deleted, moved);
    var d := NatToString(deleted);
    assert msg[11..11 + |d|] == d;
    assert msg[11 + |d| + 27..11 + |d| + 27 + |NatToString(moved)|] == NatToString(moved);
    ParseNatToString(deleted);
  }

  /** The session and message tables. */
  class Tables {
    var sessions: Sessions
    var messages: Messages

    constructor (sessions: Sessions, messages: Messages)
      ensures this.sessions == sessions && this.messages == messages
    {
      this.sessions := sessions;
      this.messages := messages;
    }

    /** One iteration of the inner loop: count the session's messages, move
        them to `keep` when there are some and this is not a dry run, then
        delete the session unless this is a dry run. */
    method AbsorbSession(s: nat, keep: nat, dryRun: bool) returns (moved: nat, deleted: nat)
      requires s != keep
      modifies this
      ensures dryRun ==> sessions == old(sessions) && messages == old(messages) && moved == 0 && deleted == 0
      ensures !dryRun ==> sessions == old(sessions) - {s} && messages == MoveMessages(old(messages), s, keep)
                          && moved == |SessionMessages(old(messages), s)| && deleted == 1
    {
      var msgs := set m | m in messages && messages[m].session == s;
      var count := |msgs|;
      assert msgs == SessionMessages(messages, s);
      moved, deleted := 0, 0;
      if count > 0 && !dryRun {
        messages := MoveMessages(messages, s, keep);
        moved := count;
      } else if !dryRun {
        MoveOfEmptySession(messages, s, keep);
      }
      if !dryRun {
        MovedSessionIsEmpty(old(messages), s, keep);
        CascadeOfEmptySession(messages, s);
        sessions := sessions - {s};
        messages := CascadeDelete(messages, s);
        deleted := 1;
      }
    }

    /** One duplicate group: keep its newest session and absorb the others. */
    method MergeGroup(p: Pair, dryRun: bool) returns (moved: nat, deleted: nat, keep: nat)
      requires |Group(sessions, p)| > 1
      modifies this
      ensures Latest(old(sessions), p, keep)
      ensures dryRun ==> sessions == old(sessions) && messages == old(messages) && moved == 0 && deleted == 0
      ensures !dryRun ==>
        var q := ToKeep(Group(old(sessions), p) - {keep}, keep);
        && sessions == Surviving(old(sessions), q) && messages == Redirected(old(messages), q)
        && moved == |MovedIds(old(messages), q)| && deleted == |q|
    {
      var group := set id | id in sessions && PairOf(sessions[id]) == p;
      assert group == Group(sessions, p);
      keep := Newest(group);
      ghost var s0, m0 := sessions, messages;
      var others := group - {keep};
      ghost var done: set<nat> := {};
      moved, deleted := 0, 0;
      NothingAbsorbedYet(s0, m0, keep, dryRun);
      while others != {}
        invariant others !! done && others + done == group - {keep}
        invariant Absorbed(s0, m0, done, keep, sessions, messages, dryRun, moved, deleted)
        decreases |others|
      {
        var s :| s in others;
        MoveOneOver(others, done, s);
        moved, deleted := AbsorbNext(s, keep, dryRun, s0, m0, done, moved, deleted);
        others := others - {s};
        done := done + {s};
      }
    }

    /** A session of `group` with the latest creation time. */
    method Newest(group: set<nat>) returns (keep: nat)
      requires group != {} && group <= sessions.Keys
      ensures NewestIn(sessions, group, keep)
    {
      LatestExists(sessions, group);
      keep :| NewestIn(sessions, group, keep);
    }

    /** One iteration of the inner loop, stated against the group's tables
        before the loop. */
    method AbsorbNext(s: nat, keep: nat, dryRun: bool, ghost s0: Sessions, ghost m0: Messages, ghost done: set<nat>,
                      moved0: nat, deleted0: nat)
      returns (moved: nat, deleted: nat)
      requires s != keep && s !in done
      requires Absorbed(s0, m0, done, keep, sessions, messages, dryRun, moved0, deleted0)
      modifies this
      ensures Absorbed(s0, m0, done + {s}, keep, sessions, messages, dryRun, moved, deleted)
    {
      MoveExtendsRedirect(m0, done, s, keep);
      DeleteExtendsSurviving(s0, done, s, keep);
      var n, d := AbsorbSession(s, keep, dryRun);
      moved, deleted := moved0 + n, deleted0 + d;
    }

    /** One iteration of the outer loop, stated against the original tables
        `s0` and `m0` and the pairs `keepOf` merged so far. */
    method MergePair(p: Pair, dryRun: bool, ghost s0: Sessions, ghost m0: Messages, ghost pending: set<Pair>,
                     ghost keepOf: map<Pair, nat>, moved0: nat, deleted0: nat)
      returns (moved: nat, deleted: nat, keep: nat)
      requires p in pending && Progress(s0, m0, pending, keepOf, sessions, messages, dryRun, moved0, deleted0)
      modifies this
      ensures Latest(s0, p, keep) && |pending - {p}| < |pending|
      ensures Progress(s0, m0, pending - {p}, keepOf[p := keep], sessions, messages, dryRun, moved, deleted)
    {
      MergeStepReady(s0, keepOf, p);
      var n, d;
      n, d, keep := MergeGroup(p, dryRun);
      if !dryRun {
        LatestUntouched(s0, keepOf, p, keep);
        TablesStep(s0, m0, keepOf, p, keep);
      }
      PendingStep(s0, keepOf, pending, p, keep);
      moved, deleted := moved0 + n, deleted0 + d;
    }

    /** The nested loops shared by the command and the admin action: every
        duplicated pair is merged into its newest session; a dry run changes
        nothing and leaves both counters at zero. */
    method MergeDuplicates(dryRun: bool) returns (moved: nat, deleted: nat, ghost keepOf: map<Pair, nat>)
      modifies this
      ensures keepOf.Keys == DuplicatePairs(old(sessions)) && KeepChoice(old(sessions), keepOf)
      ensures dryRun ==> sessions == old(sessions) && messages == old(messages) && moved == 0 && deleted == 0
      ensures !dryRun ==>
        var r := Removals(old(sessions), keepOf);
        && sessions == Surviving(old(sessions), r) && messages == Redirected(old(messages), r)
        && moved == |MovedIds(old(messages), r)| && deleted == |r|
    {
      ghost var s0, m0 := sessions, messages;
      var pending := DuplicatePairs(sessions);
      keepOf := map[];
      moved, deleted := 0, 0;
      NothingMergedYet(s0, m0, dryRun);
      while pending != {}
        invariant Progress(s0, m0, pending, keepOf, sessions, messages, dryRun, moved, deleted)
        decreases |pending|
      {
        var p :| p in pending;
        var keep;
        moved, deleted, keep := MergePair(p, dryRun, s0, m0, pending, keepOf, moved, deleted);
        keepOf := keepOf[p := keep];
        pending := pending - {p};
      }
      AllMerged(s0, m0, keepOf, sessions, messages, dryRun, moved, deleted);
    }

    /** `Command.handle`: the merge, then the summary line. */
    method Handle(dryRun: bool) returns (summary: string, ghost keepOf: map<Pair, nat>)
      modifies this
      ensures keepOf.Keys == DuplicatePairs(old(sessions)) && KeepChoice(old(sessions), keepOf)
      ensures dryRun ==> sessions == old(sessions) && messages == old(messages)
                         && summary == CommandSummary(true, 0, 0)
      ensures !dryRun ==>
        var r := Removals(old(sessions), keepOf);
        && sessions == Surviving(old(sessions), r) && messages == Redirected(old(messages), r)
        && summary == CommandSummary(false, |MovedIds(old(messages), r)|, |r|)
    {
      var moved, deleted;
      moved, deleted, keepOf := MergeDuplicates(dryRun);
      summary := CommandSummary(dryRun, moved, deleted);
    }

    /** `ChatSessionAdmin.cleanup_duplicates`: acts on every session (the
        admin's selection is ignored) and reports both counters. */
    method CleanupDuplicates() returns (message: string, ghost keepOf: map<Pair, nat>)
      modifies this
      ensures keepOf.Keys == DuplicatePairs(old(sessions)) && KeepChoice(old(sessions), keepOf)
      ensures var r := Removals(old(sessions), keepOf);
        && sessions == Surviving(old(sessions), r) && messages == Redirected(old(messages), r)
        && message == AdminMessage(|r|, |MovedIds(old(messages), r)|)
    {
      var moved, deleted;
      moved, deleted, keepOf := MergeDuplicates(false);
      message := AdminMessage(deleted, moved);
    }
  }

  /** The tables `sessions`, `messages` and the counters once the sessions
      `done` of a group are absorbed into `keep`, starting from `s0` and `m0`. */
  predicate Absorbed(s0: Sessions, m0: Messages, done: set<nat>, keep: nat,
                     sessions: Sessions, messages: Messages, dryRun: bool, moved: nat, deleted: nat)
  {
    && (dryRun ==> sessions == s0 && messages == m0 && moved == 0 && deleted == 0)
    && (!dryRun ==>
          && sessions == Surviving(s0, ToKeep(done, keep)) && messages == Redirected(m0, ToKeep(done, keep))
          && moved == |MovedIds(m0, ToKeep(done, keep))| && deleted == |ToKeep(done, keep)|)
  }

  lemma NothingAbsorbedYet(s0: Sessions, m0: Messages, keep: nat, dryRun: bool)
    ensures Absorbed(s0, m0, {}, keep, s0, m0, dryRun, 0, 0)
  {
    var q := ToKeep({}, keep);
    assert q == map[];
    assert Surviving(s0, q) == s0;
    assert Redirected(m0, q) == m0;
    assert MovedIds(m0, q) == {};
  }

  /** The tables and counters once the pairs of `keepOf` are merged,
      starting from `s0` and `m0`. */
  predicate MergedSoFar(s0: Sessions, m0: Messages, keepOf: map<Pair, nat>,
                        sessions: Sessions, messages: Messages, dryRun: bool, moved: nat, deleted: nat)
  {
    && (dryRun ==> sessions == s0 && messages == m0 && moved == 0 && deleted == 0)
    && (!dryRun ==>
          var r := Removals(s0, keepOf);
          && sessions == Surviving(s0, r) && messages == Redirected(m0, r)
          && moved == |MovedIds(m0, r)| && deleted == |r|)
  }

  /** The state of the outer loop: the pairs of `keepOf` are merged, those
      of `pending` remain. */
  predicate Progress(s0: Sessions, m0: Messages, pending: set<Pair>, keepOf: map<Pair, nat>,
                     sessions: Sessions, messages: Messages, dryRun: bool, moved: nat, deleted: nat)
  {
    && pending <= DuplicatePairs(s0) && keepOf.Keys == DuplicatePairs(s0) - pending
    && KeepChoice(s0, keepOf)
    && MergedSoFar(s0, m0, keepOf, sessions, messages, dryRun, moved, deleted)
  }

  /** Before any pair is merged the tables are the original ones. */
  lemma NothingMergedYet(s0: Sessions, m0: Messages, dryRun: bool)
    ensures Progress(s0, m0, DuplicatePairs(s0), map[], s0, m0, dryRun, 0, 0)
  {
    var r := Removals(s0, map[]);
    assert r == map[];
    assert Surviving(s0, r) == s0;
    assert Redirected(m0, r) == m0;
    assert MovedIds(m0, r) == {};
  }

  /** With nothing pending, every duplicated pair is merged. */
  lemma AllMerged(s0: Sessions, m0: Messages, keepOf: map<Pair, nat>,
                  sessions: Sessions, messages: Messages, dryRun: bool, moved: nat, deleted: nat)
    requires Progress(s0, m0, {}, keepOf, sessions, messages, dryRun, moved, deleted)
    ensures keepOf.Keys == DuplicatePairs(s0) && KeepChoice(s0, keepOf)
    ensures MergedSoFar(s0, m0, keepOf, sessions, messages, dryRun, moved, deleted)
  {
    assert DuplicatePairs(s0) - {} == DuplicatePairs(s0);
  }

  /** Merging pair `p` into `keep` moves the loop's bookkeeping one pair on. */
  lemma PendingStep(s0: Sessions, keepOf: map<Pair, nat>, pending: set<Pair>, p: Pair, keep: nat)
    requires pending <= DuplicatePairs(s0) && keepOf.Keys == DuplicatePairs(s0) - pending && p in pending
    requires KeepChoice(s0, keepOf) && Latest(s0, p, keep)
    ensures pending - {p} <= DuplicatePairs(s0)
    ensures keepOf[p := keep].Keys == DuplicatePairs(s0) - (pending - {p})
    ensures KeepChoice(s0, keepOf[p := keep])
    ensures |pending - {p}| < |pending|
  {
  }

  /** The tables after merging pair `p` are those the extended removals describe. */
  lemma TablesStep(s0: Sessions, m0: Messages, keepOf: map<Pair, nat>, p: Pair, keep: nat)
    requires KeepChoice(s0, keepOf) && p !in keepOf && Latest(s0, p, keep)
    ensures var r := Removals(s0, keepOf);
      var q := ToKeep(Group(Surviving(s0, r), p) - {keep}, keep);
      var r2 := Removals(s0, keepOf[p := keep]);
      && Surviving(Surviving(s0, r), q) == Surviving(s0, r2)
      && Redirected(Redirected(m0, r), q) == Redirected(m0, r2)
      && |MovedIds(m0, r2)| == |MovedIds(m0, r)| + |MovedIds(Redirected(m0, r), q)|
      && |r2| == |r| + |q|
  {
    var r := Removals(s0, keepOf);
    GroupUntouched(s0, keepOf, p);
    var q := ToKeep(Group(s0, p) - {keep}, keep);
    RemovalsExtend(s0, keepOf, p, keep);
    RedirectCompose(m0, r, q);
    SurvivingCompose(s0, r, q);
    UnionSize(r, q);
  }

  /** Before merging pair `p`, its group in the current table is its original
      group, with more than one session. */
  lemma MergeStepReady(s0: Sessions, keepOf: map<Pair, nat>, p: Pair)
    requires p in DuplicatePairs(s0) && p !in keepOf
    ensures |Group(s0, p)| > 1
    ensures |Group(Surviving(s0, Removals(s0, keepOf)), p)| > 1
  {
    GroupUntouched(s0, keepOf, p);
  }

  /** The newest session of an unprocessed pair is the same before and after
      the earlier removals. */
  lemma LatestUntouched(s0: Sessions, keepOf: map<Pair, nat>, p: Pair, keep: nat)
    requires p !in keepOf
    requires Latest(Surviving(s0, Removals(s0, keepOf)), p, keep)
    ensures Latest(s0, p, keep)
  {
    GroupUntouched(s0, keepOf, p);
  }
}
