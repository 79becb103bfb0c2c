/** What a message or a reply leaves in the session tables, said of the message alone. */
module SessionCalls {
  import opened Options
  import opened Sessions
  import opened PairingLaws

  /** What the metadata calls a group; without metadata, any channel but the sender's own and the desktop's. */
  predicate FromGroup(m: Message) {
    match m.channelType
    case Some(kind) => kind in {"group", "supergroup", "channel", "room"}
    case None => m.connector != "desktop" && m.channelId != m.sender
  }

  predicate Keyed(s: Session, connector: string, channelId: string, participant: string) {
    s.connector == connector && s.channelId == channelId && s.participant == participant
  }

  /** A session of the key: the first stored one if there is any, or else a new one at the end of the table,
      open, unmarked and without messages, of this type. */
  ghost predicate IsSessionOf(cfg: Config, s: Store, connector: string, channelId: string, participant: string, group: bool,
                              s1: Store, session: Session)
  {
    if exists x :: x in s.sessions && Keyed(x, connector, channelId, participant) then
      && s1 == s
      && exists i :: 0 <= i < |s.sessions| && s.sessions[i] == session && Keyed(session, connector, channelId, participant)
                     && forall j :: 0 <= j < i ==> !Keyed(s.sessions[j], connector, channelId, participant)
    else
      && s1.sessions == s.sessions + [session] && s1.messages == s.messages && s1.pairings == s.pairings && s1.audit == s.audit
      && Keyed(session, connector, channelId, participant)
      && session.id == s.nextId && session.sessionType == (if group then Group else Direct)
      && session.status == Active && !session.archived && !session.pendingPairing && session.messageCount == 0
      && (session.mentionOnly <==>
            group && (cfg.mentionOnlyInGroups || (connector in cfg.connectors && cfg.connectors[connector].mentionOnly)))
  }

  lemma {:induction false} FirstKeyed(sessions: seq<Session>, connector: string, channelId: string, participant: string) returns (i: nat)
    ensures var found := FindSession(sessions, connector, channelId, participant);
            && i <= |sessions| && (found.None? <==> i == |sessions|)
            && (forall j :: 0 <= j < i ==> !Keyed(sessions[j], connector, channelId, participant))
            && (i < |sessions| ==> found == Some(sessions[i]) && Keyed(sessions[i], connector, channelId, participant))
  {
    if sessions == [] || Keyed(sessions[0], connector, channelId, participant) {
      i := 0;
    } else {
      var k := FirstKeyed(sessions[1..], connector, channelId, participant);
      i := k + 1;
    }
  }

  lemma ResolvedIs(cfg: Config, s: Store, connector: string, channelId: string, participant: string, kind: SessionType)
    ensures var (s1, session) := Resolve(cfg, s, connector, channelId, participant, kind);
            IsSessionOf(cfg, s, connector, channelId, participant, kind == Group, s1, session)
  {
    var i := FirstKeyed(s.sessions, connector, channelId, participant);
    if i < |s.sessions| {
      assert s.sessions[i] in s.sessions;
    }
  }

  /** A message from a group belongs to the channel's session, any other to its sender's in that channel. */
  lemma InboundSessionIs(cfg: Config, s: Store, m: Message)
    ensures var (s1, session) := ResolveInbound(cfg, s, m);
            IsSessionOf(cfg, s, m.connector, m.channelId, if FromGroup(m) then m.channelId else m.sender, FromGroup(m), s1, session)
  {
    ResolvedIs(cfg, s, m.connector, m.channelId, Participant(m), InferType(m));
  }

  /** One row more, with these contents. */
  ghost predicate Wrote(before: seq<SessionMessage>, after: seq<SessionMessage>, sessionId: nat, connector: string, role: string,
                        sender: string, body: string)
  {
    && |after| == |before| + 1 && after[..|before|] == before
    && after[|before|] == SessionMessage(after[|before|].id, sessionId, connector, role, sender, body)
  }

  /** Every message is recorded once, as its sender's, before anything is decided about it; a reply is recorded
      after it, as ours; and the audit says which of the two was the end of it. */
  lemma InboundRecords(cfg: Config, s: Store, m: Message, reply: Option<string>)
    ensures var session, (s', d) := ResolveInbound(cfg, s, m).1, Inbound(cfg, s, m, reply);
            var n := |s.messages|;
            && |s'.messages| == n + (if d.Replied? then 2 else 1)
            && Wrote(s.messages, s'.messages[..n + 1], session.id, m.connector, "user", m.sender, m.body)
            && (d.Replied? ==> reply.Some? && Wrote(s'.messages[..n + 1], s'.messages, session.id, m.connector, "assistant", "openpinch", reply.value))
            && s'.audit == s.audit + match d
                                     case PairingRequired(id) => [PairingAsked(session.id, id)]
                                     case Dropped => []
                                     case Replied => [Handled(session.id)]
                                     case Degraded => [Unanswered(session.id)]
  {
    var (s1, session) := ResolveInbound(cfg, s, m);
    DeliverRecords(cfg, s1, session, m, reply);
  }

  lemma DeliverRecords(cfg: Config, s1: Store, session: Session, m: Message, reply: Option<string>)
    ensures var (s', d) := Deliver(cfg, s1, session, m, reply);
            var n := |s1.messages|;
            && |s'.messages| == n + (if d.Replied? then 2 else 1)
            && Wrote(s1.messages, s'.messages[..n + 1], session.id, m.connector, "user", m.sender, m.body)
            && (d.Replied? ==> reply.Some? && Wrote(s'.messages[..n + 1], s'.messages, session.id, m.connector, "assistant", "openpinch", reply.value))
            && s'.audit == s1.audit + match d
                                      case PairingRequired(id) => [PairingAsked(session.id, id)]
                                      case Dropped => []
                                      case Replied => [Handled(session.id)]
                                      case Degraded => [Unanswered(session.id)]
  {
    var s2 := Record(s1, session.id, m.connector, "user", m.sender, m.body);
    var s3 := Gate(cfg, s2, session, m).0;
    assert s3.messages == s2.messages && s3.audit == s1.audit;
    var s' := Deliver(cfg, s1, session, m, reply).0;
    assert s'.messages[..|s1.messages| + 1] == s2.messages;
  }

  /** A reply of ours sent by hand: to the session named, or to the newest open session of the channel, or else to
      the direct session of the sender, or of the channel if no sender is named. */
  lemma OutboundRecords(cfg: Config, s: Store, target: Target, connector: string, channelId: string, sender: string, body: string)
    returns (s1: Store, session: Session)
    ensures var s' := Outbound(cfg, s, target, connector, channelId, sender, body);
            var author := if sender != "" then sender else "openpinch";
            match target
            case ById(id) =>
              if forall x :: x in s.sessions ==> x.id != id then s' == s
              else Wrote(s.messages, s'.messages, id, connector, "assistant", author, body)
            case ByChannel =>
              && Wrote(s.messages, s'.messages, session.id, connector, "assistant", author, body)
              && (if exists x :: x in s.sessions && IsOpen(x, connector, channelId) then
                    s1 == s && IsLatestOpen(s.sessions, connector, channelId, session)
                  else IsSessionOf(cfg, s, connector, channelId, if sender != "" then sender else channelId, false, s1, session))
  {
    var r := ResolveOutbound(cfg, s, connector, channelId, sender);
    s1, session := r.0, r.1;
    match target
    case ById(id) => KnownId(s.sessions, id);
    case ByChannel =>
      OpenSession(s.sessions, connector, channelId);
      ResolvedIs(cfg, s, connector, channelId, if sender == "" then channelId else sender, Direct);
  }

  predicate IsOpen(x: Session, connector: string, channelId: string) {
    x.connector == connector && x.channelId == channelId && !x.archived
  }

  ghost predicate IsLatestOpen(sessions: seq<Session>, connector: string, channelId: string, session: Session) {
    && session in sessions && IsOpen(session, connector, channelId)
    && forall x :: x in sessions && IsOpen(x, connector, channelId) ==> x.updatedAt <= session.updatedAt
  }

  lemma {:induction false} KnownId(sessions: seq<Session>, id: nat)
    ensures SessionById(sessions, id).None? <==> forall x :: x in sessions ==> x.id != id
    ensures SessionById(sessions, id).Some? ==> SessionById(sessions, id).value.id == id
  {
    if sessions != [] {
      KnownId(sessions[1..], id);
      assert forall x :: x in sessions <==> x == sessions[0] || x in sessions[1..];
    }
  }

  lemma {:induction false} OpenSession(sessions: seq<Session>, connector: string, channelId: string)
    ensures var open := LatestOpen(sessions, connector, channelId);
            && (open.None? <==> forall x :: x in sessions ==> !IsOpen(x, connector, channelId))
            && (open.Some? ==> IsLatestOpen(sessions, connector, channelId, open.value))
  {
    if sessions != [] {
      OpenSession(sessions[1..], connector, channelId);
      assert forall x :: x in sessions <==> x == sessions[0] || x in sessions[1..];
      assert IsOpen(sessions[0], connector, channelId) ==> sessions[0] in sessions;
      var rest := LatestOpen(sessions[1..], connector, channelId);
      assert rest.Some? ==> rest.value in sessions;
    }
  }

  /** The mark on the message's session: set when the message waits for a pairing, cleared when its session asks for
      one and it goes on, and left alone when its session does not ask. No other session is marked or cleared. */
  lemma InboundMarks(cfg: Config, s: Store, m: Message, reply: Option<string>)
    ensures var (s1, session), (s', d) := ResolveInbound(cfg, s, m), Inbound(cfg, s, m, reply);
            && |s'.sessions| == |s1.sessions|
            && forall i :: 0 <= i < |s1.sessions| ==>
                 s'.sessions[i].pendingPairing
                 == if s1.sessions[i].id != session.id || !Gated(cfg, session, m) then s1.sessions[i].pendingPairing else d.PairingRequired?
  {
    var (s1, session) := ResolveInbound(cfg, s, m);
    GateDecides(cfg, s1, session, m, reply);
  }
}
