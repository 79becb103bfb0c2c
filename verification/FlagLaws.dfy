/** The archived flag, which no message clears: exactly when flag and status come apart. */
module FlagLaws {
  import opened Clock
  import opened Options
  import opened Sessions
  import opened SessionLaws

  /** Flag and status agree on every session. */
  ghost predicate FlagsAgree(sessions: seq<Session>) {
    forall i :: 0 <= i < |sessions| ==> (sessions[i].archived <==> sessions[i].status == Archived)
  }

  /** The session of this id is now active; no flag and no other status has changed. */
  ghost predicate Woken(before: seq<Session>, after: seq<Session>, id: nat) {
    && |after| == |before|
    && forall i :: 0 <= i < |before| ==>
         && after[i].id == before[i].id && after[i].archived == before[i].archived
         && after[i].status == if before[i].id == id then Active else before[i].status
  }

  lemma WokenAgree(before: seq<Session>, after: seq<Session>, i: nat)
    requires i < |before| && Woken(before, after, before[i].id) && FlagsAgree(before)
    requires forall x, y :: 0 <= x < y < |before| ==> before[x].id != before[y].id
    ensures FlagsAgree(after) <==> !before[i].archived
  {
    assert after[i].archived == before[i].archived && after[i].status == Active;
  }

  lemma DeliverWakes(cfg: Config, s1: Store, session: Session, m: Message, reply: Option<string>)
    ensures Woken(s1.sessions, Deliver(cfg, s1, session, m, reply).0.sessions, session.id)
  {
    var s2 := Record(s1, session.id, m.connector, "user", m.sender, m.body);
    assert Woken(s1.sessions, s2.sessions, session.id);
    GateWakesNone(cfg, s2, session, m);
    var s3 := Gate(cfg, s2, session, m).0;
    assert Woken(s1.sessions, s3.sessions, session.id);
    if reply.Some? {
      assert Woken(s1.sessions, Record(s3, session.id, m.connector, "assistant", "openpinch", reply.value).sessions, session.id);
    }
  }

  lemma GateWakesNone(cfg: Config, s: Store, session: Session, m: Message)
    ensures var after := Gate(cfg, s, session, m).0.sessions;
            && |after| == |s.sessions|
            && forall i :: 0 <= i < |after| ==>
                 after[i].id == s.sessions[i].id && after[i].archived == s.sessions[i].archived && after[i].status == s.sessions[i].status
  {
  }

  // ----- whole calls -----

  /** The stored session that a call writes messages to; none for a new session or no message. */
  function Receiver(s: Store, a: Action): Option<Session> {
    match a
    case DoInbound(m, _) => FindSession(s.sessions, m.connector, m.channelId, Participant(m))
    case DoOutbound(ById(id), _, _, _, _) => SessionById(s.sessions, id)
    case DoOutbound(ByChannel, connector, channelId, sender, _) =>
      var open := LatestOpen(s.sessions, connector, channelId);
      if open.Some? then open else FindSession(s.sessions, connector, channelId, if sender == "" then channelId else sender)
    case _ => None
  }

  predicate WritesToArchived(s: Store, a: Action) {
    Receiver(s, a).Some? && Receiver(s, a).value.archived
  }

  /** A resolved session stands in the table and is the stored one of its key, or a new, open one. */
  lemma ResolvedAt(cfg: Config, s: Store, connector: string, channelId: string, participant: string, kind: SessionType) returns (i: nat)
    requires Conserved(s) && FlagsAgree(s.sessions)
    ensures var (s1, session) := Resolve(cfg, s, connector, channelId, participant, kind);
            var found := FindSession(s.sessions, connector, channelId, participant);
            && i < |s1.sessions| && s1.sessions[i] == session && FlagsAgree(s1.sessions)
            && (session.archived <==> found.Some? && found.value.archived)
  {
    FindSessionIs(s.sessions, connector, channelId, participant);
    var (s1, session) := Resolve(cfg, s, connector, channelId, participant, kind);
    var found := FindSession(s.sessions, connector, channelId, participant);
    if found.Some? {
      i :| 0 <= i < |s.sessions| && s.sessions[i] == found.value;
    } else {
      i := |s.sessions|;
    }
  }

  lemma InboundBreaks(cfg: Config, s: Store, m: Message, reply: Option<string>)
    requires Conserved(s) && FlagsAgree(s.sessions)
    ensures FlagsAgree(Inbound(cfg, s, m, reply).0.sessions) <==> !WritesToArchived(s, DoInbound(m, reply))
  {
    ResolveKeeps(cfg, s, m.connector, m.channelId, Participant(m), InferType(m));
    var i := ResolvedAt(cfg, s, m.connector, m.channelId, Participant(m), InferType(m));
    var (s1, session) := ResolveInbound(cfg, s, m);
    DeliverWakes(cfg, s1, session, m, reply);
    WokenAgree(s1.sessions, Deliver(cfg, s1, session, m, reply).0.sessions, i);
  }

  lemma {:induction false} SessionByIdAt(sessions: seq<Session>, id: nat) returns (i: nat)
    requires SessionById(sessions, id).Some?
    ensures i < |sessions| && sessions[i] == SessionById(sessions, id).value && sessions[i].id == id
  {
    if sessions[0].id == id {
      i := 0;
    } else {
      var k := SessionByIdAt(sessions[1..], id);
      i := k + 1;
    }
  }

  lemma RecordBreaks(s: Store, i: nat, connector: string, role: string, sender: string, body: string)
    requires Conserved(s) && FlagsAgree(s.sessions) && i < |s.sessions|
    ensures FlagsAgree(Record(s, s.sessions[i].id, connector, role, sender, body).sessions) <==> !s.sessions[i].archived
  {
    WokenAgree(s.sessions, Record(s, s.sessions[i].id, connector, role, sender, body).sessions, i);
  }

  lemma ByChannelBreaks(cfg: Config, s: Store, connector: string, channelId: string, sender: string, author: string, body: string)
    requires Conserved(s) && FlagsAgree(s.sessions)
    ensures var (s1, session) := ResolveOutbound(cfg, s, connector, channelId, sender);
            FlagsAgree(Record(s1, session.id, connector, "assistant", author, body).sessions)
            <==> !WritesToArchived(s, DoOutbound(ByChannel, connector, channelId, sender, body))
  {
    var open := LatestOpen(s.sessions, connector, channelId);
    LatestOpenIs(s.sessions, connector, channelId);
    if open.Some? {
      var i :| 0 <= i < |s.sessions| && s.sessions[i] == open.value;
      RecordBreaks(s, i, connector, "assistant", author, body);
    } else {
      var participant := if sender == "" then channelId else sender;
      ResolveKeeps(cfg, s, connector, channelId, participant, Direct);
      var i := ResolvedAt(cfg, s, connector, channelId, participant, Direct);
      var s1 := Resolve(cfg, s, connector, channelId, participant, Direct).0;
      RecordBreaks(s1, i, connector, "assistant", author, body);
    }
  }

  lemma OutboundBreaks(cfg: Config, s: Store, target: Target, connector: string, channelId: string, sender: string, body: string)
    requires Conserved(s) && FlagsAgree(s.sessions)
    ensures FlagsAgree(Outbound(cfg, s, target, connector, channelId, sender, body).sessions)
            <==> !WritesToArchived(s, DoOutbound(target, connector, channelId, sender, body))
  {
    var author := if sender == "" then "openpinch" else sender;
    match target
    case ById(id) =>
      if SessionById(s.sessions, id).Some? {
        var i := SessionByIdAt(s.sessions, id);
        RecordBreaks(s, i, connector, "assistant", author, body);
      }
    case ByChannel => ByChannelBreaks(cfg, s, connector, channelId, sender, author, body);
  }

  lemma PruneAgrees(s: Store, olderThanHours: nat, archiveOnly: bool)
    requires FlagsAgree(s.sessions)
    ensures FlagsAgree(Prune(s, olderThanHours, archiveOnly).sessions)
  {
    var kept := KeepSessions(s.sessions, Threshold(s, olderThanHours));
    KeepSessionsIs(s.sessions, Threshold(s, olderThanHours));
    forall i | 0 <= i < |kept|
      ensures kept[i].archived <==> kept[i].status == Archived
    {
      assert kept[i] in s.sessions;
    }
  }

  /** A call parts flag and status exactly when it writes a message to a stored session that is archived. */
  lemma CallBreaksFlagExactlyWhen(cfg: Config, s: Store, a: Action)
    requires Conserved(s) && FlagsAgree(s.sessions)
    ensures FlagsAgree(Step(cfg, s, a).sessions) <==> !WritesToArchived(s, a)
  {
    match a
    case DoInbound(m, reply) => InboundBreaks(cfg, s, m, reply);
    case DoOutbound(target, connector, channelId, sender, body) => OutboundBreaks(cfg, s, target, connector, channelId, sender, body);
    case DoPrune(hours, archiveOnly) => PruneAgrees(s, hours, archiveOnly);
    case DoUpdate(_, _) =>
    case DoWait(_) =>
  }

  /** Flag and status agree throughout a run exactly when no call of it writes to an archived session. */
  lemma {:induction false} FlagsAgreeExactlyWhen(cfg: Config, states: seq<Store>, acts: seq<Action>, n: nat)
    requires IsRun(cfg, states, acts) && n < |states|
    ensures (forall k :: 0 <= k <= n ==> FlagsAgree(states[k].sessions))
            <==> forall k :: 0 <= k < n ==> !WritesToArchived(states[k], acts[k])
  {
    if n > 0 {
      FlagsAgreeExactlyWhen(cfg, states, acts, n - 1);
      SessionConservation(cfg, states, acts, n - 1);
      assert states[(n - 1) + 1] == Step(cfg, states[n - 1], acts[n - 1]);
      if FlagsAgree(states[n - 1].sessions) {
        CallBreaksFlagExactlyWhen(cfg, states[n - 1], acts[n - 1]);
      }
    }
  }

  // ----- a session that is active and flagged -----

  /** The store holds one session, of this target and flag, active and touched before now. */
  predicate OneActive(s: Store, x: Session) {
    && |s.sessions| == 1 && SameTarget(s.sessions[0], x) && s.sessions[0].archived == x.archived
    && s.sessions[0].status == Active && s.sessions[0].updatedAt <= s.now
  }

  lemma GateActivates(cfg: Config, s: Store, session: Session, m: Message, x: Session)
    requires OneActive(s, x)
    ensures OneActive(Gate(cfg, s, session, m).0, x)
  {
  }

  lemma DeliverActivates(cfg: Config, s: Store, m: Message)
    requires |s.sessions| == 1 && s.sessions[0].updatedAt <= s.now
    ensures OneActive(Deliver(cfg, s, s.sessions[0], m, None).0, s.sessions[0])
  {
    var x := s.sessions[0];
    var s2 := Record(s, x.id, m.connector, "user", m.sender, m.body);
    assert OneActive(s2, x);
    GateActivates(cfg, s2, x, m, x);
  }

  /** So a session can be active again and still carry the flag: one message, an archiving prune, another message. */
  lemma ActiveYetFlagged(cfg: Config, m: Message) returns (s1: Store, s2: Store, s3: Store)
    ensures s1 == Inbound(cfg, EMPTY, m, None).0
    ensures s2 == Prune(s1.(now := s1.now + 2 * HOUR), 1, true)
    ensures s3 == Inbound(cfg, s2, m, None).0
    ensures |s3.sessions| == 1 && s3.sessions[0].status == Active && s3.sessions[0].archived
  {
    var (e1, session) := ResolveInbound(cfg, EMPTY, m);
    assert e1.sessions == [session];
    DeliverActivates(cfg, e1, m);
    s1 := Inbound(cfg, EMPTY, m, None).0;
    s2 := Prune(s1.(now := s1.now + 2 * HOUR), 1, true);
    assert s2.sessions[0].archived && HasKey(s2.sessions[0], m.connector, m.channelId, Participant(m));
    assert ResolveInbound(cfg, s2, m) == (s2, s2.sessions[0]);
    DeliverActivates(cfg, s2, m);
    s3 := Inbound(cfg, s2, m, None).0;
  }
}
