/** Conservation of sessions and messages, over every sequence of calls. */
module SessionLaws {
  import opened Options
  import opened Folds
  import opened Sessions

  /** The message rows of a session. */
  function CountOf(messages: seq<SessionMessage>, id: nat): nat {
    if messages == [] then 0
    else CountOf(messages[..|messages| - 1], id) + One(messages[|messages| - 1].sessionId == id)
  }

  lemma CountAppend(messages: seq<SessionMessage>, m: SessionMessage, id: nat)
    ensures CountOf(messages + [m], id) == CountOf(messages, id) + One(m.sessionId == id)
  {
    assert (messages + [m])[..|messages|] == messages;
  }

  lemma {:induction false} CountNone(messages: seq<SessionMessage>, id: nat)
    requires forall k :: 0 <= k < |messages| ==> messages[k].sessionId != id
    ensures CountOf(messages, id) == 0
  {
    if messages != [] {
      CountNone(messages[..|messages| - 1], id);
    }
  }

  predicate HasSession(sessions: seq<Session>, id: nat) {
    exists i :: 0 <= i < |sessions| && sessions[i].id == id
  }

  predicate SameTarget(a: Session, b: Session) {
    a.connector == b.connector && a.channelId == b.channelId && a.participant == b.participant
  }

  /** Keys are unique, ids were handed out before, and an archived status implies the archived flag. */
  ghost predicate SessionsOk(sessions: seq<Session>, nextId: nat) {
    && (forall i, j :: 0 <= i < j < |sessions| ==> sessions[i].id != sessions[j].id && !SameTarget(sessions[i], sessions[j]))
    && (forall i :: 0 <= i < |sessions| ==> sessions[i].id < nextId)
    && (forall i :: 0 <= i < |sessions| && sessions[i].status == Archived ==> sessions[i].archived)
  }

  /** Every count is its number of rows, and no row lacks its session. */
  ghost predicate CountsOk(sessions: seq<Session>, messages: seq<SessionMessage>) {
    && (forall i :: 0 <= i < |sessions| ==> sessions[i].messageCount == CountOf(messages, sessions[i].id))
    && (forall k :: 0 <= k < |messages| ==> HasSession(sessions, messages[k].sessionId))
  }

  ghost predicate Conserved(s: Store) {
    SessionsOk(s.sessions, s.nextId) && CountsOk(s.sessions, s.messages)
  }

  // ----- writes that keep ids, targets and counts -----

  /** `f` changes neither identity nor count, and archives flag and status together. */
  ghost predicate Gentle(f: Session -> Session, sessions: seq<Session>) {
    forall i :: 0 <= i < |sessions| ==>
      var a, b := sessions[i], f(sessions[i]);
      && b.id == a.id && SameTarget(a, b) && b.messageCount == a.messageCount
      && (b.status == Archived ==> b.archived)
  }

  lemma HasSessionMapped(f: Session -> Session, sessions: seq<Session>, id: nat)
    requires forall i :: 0 <= i < |sessions| ==> f(sessions[i]).id == sessions[i].id
    ensures HasSession(sessions, id) <==> HasSession(MapSessions(f, sessions), id)
  {
    if HasSession(sessions, id) {
      var i :| 0 <= i < |sessions| && sessions[i].id == id;
      assert MapSessions(f, sessions)[i].id == id;
    }
  }

  lemma GentleKeeps(f: Session -> Session, s: Store, s': Store)
    requires Conserved(s) && Gentle(f, s.sessions)
    requires s'.sessions == MapSessions(f, s.sessions) && s'.messages == s.messages && s'.nextId >= s.nextId
    ensures Conserved(s')
  {
    forall k | 0 <= k < |s.messages|
      ensures HasSession(s'.sessions, s.messages[k].sessionId)
    {
      HasSessionMapped(f, s.sessions, s.messages[k].sessionId);
    }
  }

  lemma PendingKeeps(s: Store, id: nat, value: bool)
    requires Conserved(s)
    ensures Conserved(MarkPending(s, id, value))
  {
    GentleKeeps(SetPending(id, value, s.now), s, MarkPending(s, id, value));
  }

  // ----- recording -----

  lemma RecordKeeps(s: Store, id: nat, connector: string, role: string, sender: string, body: string)
    requires Conserved(s) && HasSession(s.sessions, id)
    ensures Conserved(Record(s, id, connector, role, sender, body))
    ensures HasSession(Record(s, id, connector, role, sender, body).sessions, id)
  {
    var s' := Record(s, id, connector, role, sender, body);
    var row := SessionMessage(s.nextId, id, connector, role, sender, body);
    forall i | 0 <= i < |s'.sessions|
      ensures s'.sessions[i].messageCount == CountOf(s'.messages, s'.sessions[i].id)
    {
      CountAppend(s.messages, row, s.sessions[i].id);
    }
    forall k | 0 <= k < |s'.messages|
      ensures HasSession(s'.sessions, s'.messages[k].sessionId)
    {
      assert k < |s.messages| ==> s'.messages[k] == s.messages[k];
      HasSessionMapped(Bump(id, s.now), s.sessions, s'.messages[k].sessionId);
    }
    HasSessionMapped(Bump(id, s.now), s.sessions, id);
  }

  // ----- resolving -----

  lemma {:induction false} FindSessionIs(sessions: seq<Session>, connector: string, channelId: string, participant: string)
    ensures var found := FindSession(sessions, connector, channelId, participant);
            && (found.None? <==> forall i :: 0 <= i < |sessions| ==> !HasKey(sessions[i], connector, channelId, participant))
            && (found.Some? ==> HasKey(found.value, connector, channelId, participant)
                                && exists i :: 0 <= i < |sessions| && sessions[i] == found.value)
  {
    if sessions != [] && !HasKey(sessions[0], connector, channelId, participant) {
      FindSessionIs(sessions[1..], connector, channelId, participant);
      var found := FindSession(sessions[1..], connector, channelId, participant);
      if found.Some? {
        var i :| 0 <= i < |sessions[1..]| && sessions[1..][i] == found.value;
        assert sessions[i + 1] == found.value;
      } else {
        assert forall i :: 0 < i < |sessions| ==> sessions[i] == sessions[1..][i - 1];
      }
    }
  }

  lemma {:induction false} LatestOpenIs(sessions: seq<Session>, connector: string, channelId: string)
    ensures var open := LatestOpen(sessions, connector, channelId);
            && (open.None? <==> forall i :: 0 <= i < |sessions| ==>
                  !(sessions[i].connector == connector && sessions[i].channelId == channelId && !sessions[i].archived))
            && (open.Some? ==>
                  && (exists i :: 0 <= i < |sessions| && sessions[i] == open.value)
                  && open.value.connector == connector && open.value.channelId == channelId && !open.value.archived
                  && forall i :: 0 <= i < |sessions| && sessions[i].connector == connector
                       && sessions[i].channelId == channelId && !sessions[i].archived
                       ==> sessions[i].updatedAt <= open.value.updatedAt)
  {
    if sessions != [] {
      LatestOpenIs(sessions[1..], connector, channelId);
      assert forall i :: 0 < i < |sessions| ==> sessions[i] == sessions[1..][i - 1];
      var rest, open := LatestOpen(sessions[1..], connector, channelId), LatestOpen(sessions, connector, channelId);
      if rest.Some? {
        var i :| 0 <= i < |sessions[1..]| && sessions[1..][i] == rest.value;
        assert sessions[i + 1] == rest.value;
      }
      if open.Some? && open != rest {
        assert sessions[0] == open.value;
      }
    }
  }

  /** A resolved session is in the table afterwards, with the key asked for; resolving never collides. */
  lemma ResolveKeeps(cfg: Config, s: Store, connector: string, channelId: string, participant: string, kind: SessionType)
    requires Conserved(s)
    ensures var (s', session) := Resolve(cfg, s, connector, channelId, participant, kind);
            && Conserved(s') && HasSession(s'.sessions, session.id)
            && HasKey(session, connector, channelId, participant)
  {
    FindSessionIs(s.sessions, connector, channelId, participant);
    var (s', session) := Resolve(cfg, s, connector, channelId, participant, kind);
    if FindSession(s.sessions, connector, channelId, participant).None? {
      assert s'.sessions[|s.sessions|] == session;
      forall k | 0 <= k < |s.messages|
        ensures HasSession(s'.sessions, s.messages[k].sessionId) && s.messages[k].sessionId != session.id
      {
        assert HasSession(s.sessions, s.messages[k].sessionId);
        var i :| 0 <= i < |s.sessions| && s.sessions[i].id == s.messages[k].sessionId;
        assert s'.sessions[i].id == s.messages[k].sessionId;
      }
      CountNone(s.messages, session.id);
    }
  }

  lemma ResolveOutboundKeeps(cfg: Config, s: Store, connector: string, channelId: string, sender: string)
    requires Conserved(s)
    ensures var (s', session) := ResolveOutbound(cfg, s, connector, channelId, sender);
            Conserved(s') && HasSession(s'.sessions, session.id)
  {
    LatestOpenIs(s.sessions, connector, channelId);
    if LatestOpen(s.sessions, connector, channelId).None? {
      ResolveKeeps(cfg, s, connector, channelId, if sender == "" then channelId else sender, Direct);
    }
  }

  // ----- whole calls -----

  lemma GateKeeps(cfg: Config, s: Store, session: Session, m: Message)
    requires Conserved(s) && HasSession(s.sessions, session.id)
    ensures Conserved(Gate(cfg, s, session, m).0)
    ensures HasSession(Gate(cfg, s, session, m).0.sessions, session.id)
  {
    if Gated(cfg, session, m) {
      if Allowlisted(cfg, m) || IsApproved(s, m.connector, m.channelId, m.sender) {
        PendingKeeps(s, session.id, false);
        HasSessionMapped(SetPending(session.id, false, s.now), s.sessions, session.id);
      } else {
        var s1 := EnsurePairing(s, m, session.id);
        PendingKeeps(s1, session.id, true);
        HasSessionMapped(SetPending(session.id, true, s1.now), s1.sessions, session.id);
      }
    }
  }

  lemma DeliverKeeps(cfg: Config, s1: Store, session: Session, m: Message, reply: Option<string>)
    requires Conserved(s1) && HasSession(s1.sessions, session.id)
    ensures Conserved(Deliver(cfg, s1, session, m, reply).0)
  {
    RecordKeeps(s1, session.id, m.connector, "user", m.sender, m.body);
    var s2 := Record(s1, session.id, m.connector, "user", m.sender, m.body);
    GateKeeps(cfg, s2, session, m);
    var s3 := Gate(cfg, s2, session, m).0;
    if reply.Some? {
      RecordKeeps(s3, session.id, m.connector, "assistant", "openpinch", reply.value);
    }
  }

  lemma InboundKeeps(cfg: Config, s: Store, m: Message, reply: Option<string>)
    requires Conserved(s)
    ensures Conserved(Inbound(cfg, s, m, reply).0)
  {
    ResolveKeeps(cfg, s, m.connector, m.channelId, Participant(m), InferType(m));
    var (s1, session) := ResolveInbound(cfg, s, m);
    DeliverKeeps(cfg, s1, session, m, reply);
  }

  lemma {:induction false} SessionByIdIs(sessions: seq<Session>, id: nat)
    ensures SessionById(sessions, id).Some? ==> SessionById(sessions, id).value.id == id && HasSession(sessions, id)
  {
    if sessions != [] {
      SessionByIdIs(sessions[1..], id);
      if SessionById(sessions[1..], id).Some? {
        var i :| 0 <= i < |sessions[1..]| && sessions[1..][i].id == id;
        assert sessions[i + 1].id == id;
      }
    }
  }

  /** A write that keeps ids shows through a lookup. */
  lemma {:induction false} SessionByIdMapped(f: Session -> Session, sessions: seq<Session>, id: nat)
    requires forall i :: 0 <= i < |sessions| ==> f(sessions[i]).id == sessions[i].id
    ensures SessionById(MapSessions(f, sessions), id)
            == match SessionById(sessions, id) case None => None case Some(x) => Some(f(x))
  {
    if sessions != [] {
      SessionByIdMapped(f, sessions[1..], id);
      assert MapSessions(f, sessions)[1..] == MapSessions(f, sessions[1..]);
    }
  }

  lemma OutboundKeeps(cfg: Config, s: Store, target: Target, connector: string, channelId: string, sender: string, body: string)
    requires Conserved(s)
    ensures Conserved(Outbound(cfg, s, target, connector, channelId, sender, body))
  {
    var author := if sender == "" then "openpinch" else sender;
    match target
    case ById(id) =>
      SessionByIdIs(s.sessions, id);
      if SessionById(s.sessions, id).Some? {
        RecordKeeps(s, id, connector, "assistant", author, body);
      }
    case ByChannel =>
      ResolveOutboundKeeps(cfg, s, connector, channelId, sender);
      var (s1, session) := ResolveOutbound(cfg, s, connector, channelId, sender);
      RecordKeeps(s1, session.id, connector, "assistant", author, body);
  }

  // ----- pruning -----

  lemma {:induction false} KeepSessionsIs(sessions: seq<Session>, threshold: int)
    ensures var kept := KeepSessions(sessions, threshold);
            && (forall i :: 0 <= i < |kept| ==> kept[i] in sessions && kept[i].updatedAt >= threshold)
            && (forall i :: 0 <= i < |sessions| && sessions[i].updatedAt >= threshold ==> sessions[i] in kept)
  {
    if sessions != [] {
      KeepSessionsIs(sessions[..|sessions| - 1], threshold);
      assert forall i :: 0 <= i < |sessions| - 1 ==> sessions[i] == sessions[..|sessions| - 1][i];
    }
  }

  lemma {:induction false} KeepSessionsUnique(sessions: seq<Session>, threshold: int, nextId: nat)
    requires SessionsOk(sessions, nextId)
    ensures SessionsOk(KeepSessions(sessions, threshold), nextId)
  {
    if sessions != [] {
      var n := |sessions| - 1;
      KeepSessionsUnique(sessions[..n], threshold, nextId);
      KeepSessionsIs(sessions[..n], threshold);
      var rest := KeepSessions(sessions[..n], threshold);
      forall i | 0 <= i < |rest|
        ensures rest[i].id != sessions[n].id && !SameTarget(rest[i], sessions[n])
      {
        var k :| 0 <= k < n && sessions[..n][k] == rest[i];
        assert sessions[k] == rest[i];
      }
    }
  }

  lemma {:induction false} KeepMessagesIs(messages: seq<SessionMessage>, sessions: seq<Session>, threshold: int, id: nat)
    ensures !Expired(sessions, id, threshold) ==> CountOf(KeepMessages(messages, sessions, threshold), id) == CountOf(messages, id)
    ensures forall k :: 0 <= k < |KeepMessages(messages, sessions, threshold)| ==>
              var m := KeepMessages(messages, sessions, threshold)[k];
              m in messages && !Expired(sessions, m.sessionId, threshold)
    ensures forall m :: m in messages && !Expired(sessions, m.sessionId, threshold) ==> m in KeepMessages(messages, sessions, threshold)
  {
    if messages != [] {
      var n := |messages| - 1;
      KeepMessagesIs(messages[..n], sessions, threshold, id);
      assert messages == messages[..n] + [messages[n]];
      CountAppend(KeepMessages(messages[..n], sessions, threshold), messages[n], id);
    }
  }

  lemma DeleteKeeps(s: Store, threshold: int, s': Store)
    requires Conserved(s) && s'.nextId == s.nextId
    requires s'.messages == KeepMessages(s.messages, s.sessions, threshold)
    requires s'.sessions == KeepSessions(s.sessions, threshold)
    ensures Conserved(s')
  {
    KeepSessionsUnique(s.sessions, threshold, s.nextId);
    KeepSessionsIs(s.sessions, threshold);
    forall i | 0 <= i < |s'.sessions|
      ensures s'.sessions[i].messageCount == CountOf(s'.messages, s'.sessions[i].id)
    {
      var k :| 0 <= k < |s.sessions| && s.sessions[k] == s'.sessions[i];
      assert !Expired(s.sessions, s.sessions[k].id, threshold);
      KeepMessagesIs(s.messages, s.sessions, threshold, s.sessions[k].id);
    }
    forall k | 0 <= k < |s'.messages|
      ensures HasSession(s'.sessions, s'.messages[k].sessionId)
    {
      KeptHasSession(s, threshold, k);
    }
  }

  lemma KeptHasSession(s: Store, threshold: int, k: nat)
    requires Conserved(s) && k < |KeepMessages(s.messages, s.sessions, threshold)|
    ensures HasSession(KeepSessions(s.sessions, threshold), KeepMessages(s.messages, s.sessions, threshold)[k].sessionId)
  {
    KeepMessagesIs(s.messages, s.sessions, threshold, 0);
    KeepSessionsIs(s.sessions, threshold);
    var m := KeepMessages(s.messages, s.sessions, threshold)[k];
    var x :| 0 <= x < |s.messages| && s.messages[x] == m;
    assert HasSession(s.sessions, s.messages[x].sessionId);
    var i :| 0 <= i < |s.sessions| && s.sessions[i].id == m.sessionId;
    assert s.sessions[i] in KeepSessions(s.sessions, threshold);
  }

  lemma PruneKeeps(s: Store, olderThanHours: nat, archiveOnly: bool)
    requires Conserved(s)
    ensures Conserved(Prune(s, olderThanHours, archiveOnly))
  {
    var threshold := Threshold(s, olderThanHours);
    if archiveOnly {
      GentleKeeps(ArchiveOld(threshold, s.now), s, Prune(s, olderThanHours, archiveOnly));
    } else {
      DeleteKeeps(s, threshold, Prune(s, olderThanHours, archiveOnly));
    }
  }

  lemma UpdateKeeps(s: Store, id: nat, action: string)
    requires Conserved(s)
    ensures Conserved(UpdatePairing(s, id, action))
  {
    if PairingById(s.pairings, id).Some? {
      var p := PairingById(s.pairings, id).value;
      GentleKeeps(SetPending(p.sessionId, StatusFor(action) == "pending", s.now), s, UpdatePairing(s, id, action));
    }
  }

  lemma StepKeeps(cfg: Config, s: Store, a: Action)
    requires Conserved(s)
    ensures Conserved(Step(cfg, s, a))
  {
    match a
    case DoInbound(m, reply) => InboundKeeps(cfg, s, m, reply);
    case DoOutbound(target, connector, channelId, sender, body) =>
      OutboundKeeps(cfg, s, target, connector, channelId, sender, body);
    case DoPrune(hours, archiveOnly) => PruneKeeps(s, hours, archiveOnly);
    case DoUpdate(id, action) => UpdateKeeps(s, id, action);
    case DoWait(_) =>
  }

  /** In every reachable state each count is its number of message rows, no message row lacks its
      session, (connector, channel, participant) is unique, and archived status implies the flag. */
  lemma {:induction false} SessionConservation(cfg: Config, states: seq<Store>, acts: seq<Action>, k: nat)
    requires IsRun(cfg, states, acts) && k < |states|
    ensures Conserved(states[k])
  {
    if k > 0 {
      SessionConservation(cfg, states, acts, k - 1);
      StepKeeps(cfg, states[k - 1], acts[k - 1]);
    }
  }
}
