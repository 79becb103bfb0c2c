/** The state store as the source keeps it: the session, message and pairing tables updated in place,
    one SQL statement at a time.  Counts, keys and audited verdicts hold between calls. */
module SessionStore {
  import opened Clock
  import opened Folds
  import opened Options
  import S = Sessions
  import opened SessionLaws
  import opened PairingLaws
  import opened FlagLaws

  lemma ValidKept(cfg: S.Config, s: S.Store, a: S.Action)
    requires Conserved(s) && Truthful(s)
    ensures Conserved(S.Step(cfg, s, a)) && Truthful(S.Step(cfg, s, a))
  {
    StepKeeps(cfg, s, a);
    StepTruthful(cfg, s, a);
  }

  /** What a recorded message does to counts and sessions. */
  lemma RecordIs(s: S.Store, id: nat, connector: string, role: string, sender: string, body: string)
    ensures var s' := S.Record(s, id, connector, role, sender, body);
            && Woken(s.sessions, s'.sessions, id)
            && (forall x :: CountOf(s'.messages, x) == CountOf(s.messages, x) + One(x == id))
            && (forall x :: HasSession(s'.sessions, x) <==> HasSession(s.sessions, x))
  {
    var s' := S.Record(s, id, connector, role, sender, body);
    forall x
      ensures CountOf(s'.messages, x) == CountOf(s.messages, x) + One(x == id)
      ensures HasSession(s'.sessions, x) <==> HasSession(s.sessions, x)
    {
      CountAppend(s.messages, s'.messages[|s.messages|], x);
      HasSessionMapped(S.Bump(id, s.now), s.sessions, x);
    }
  }

  /** Exactly the sessions older than the threshold are archived, besides those that were. */
  ghost predicate ArchivedOld(before: seq<S.Session>, after: seq<S.Session>, threshold: int) {
    && |after| == |before|
    && forall i :: 0 <= i < |before| ==>
         && after[i].id == before[i].id && SameTarget(after[i], before[i])
         && (after[i].status == S.Archived <==> before[i].status == S.Archived || before[i].updatedAt < threshold)
  }

  /** Exactly the sessions not older than the threshold stay, and exactly the messages of no older session. */
  ghost predicate DeletedOld(before: S.Store, after: S.Store, threshold: int) {
    && (forall x :: x in after.sessions <==> x in before.sessions && x.updatedAt >= threshold)
    && (forall m :: m in after.messages <==>
          (m in before.messages && forall x :: x in before.sessions && x.id == m.sessionId ==> x.updatedAt >= threshold))
  }

  /** That many hours before `now`, at least one; an hour is 3,600,000,000 microseconds. */
  function HoursAgo(now: int, hours: nat): int {
    if hours == 0 then now - 3_600_000_000 else now - hours * 3_600_000_000
  }

  lemma PruneIs(s: S.Store, olderThanHours: nat, archiveOnly: bool)
    ensures var s', threshold := S.Prune(s, olderThanHours, archiveOnly), HoursAgo(s.now, olderThanHours);
            if archiveOnly then ArchivedOld(s.sessions, s'.sessions, threshold) && s'.messages == s.messages
            else DeletedOld(s, s', threshold)
  {
    KeepSessionsIs(s.sessions, S.Threshold(s, olderThanHours));
    KeepMessagesIs(s.messages, s.sessions, S.Threshold(s, olderThanHours), 0);
  }

  lemma GateIs(cfg: S.Config, s: S.Store, session: S.Session, m: S.Message)
    ensures var (s', asked) := S.Gate(cfg, s, session, m);
            && (forall x :: HasSession(s'.sessions, x) <==> HasSession(s.sessions, x))
            && (asked.Some? ==> S.Gated(cfg, session, m) && !S.Allowlisted(cfg, m)
                                && !S.IsApproved(s, m.connector, m.channelId, m.sender))
  {
    forall x
      ensures HasSession(S.MapSessions(S.SetPending(session.id, true, s.now + 1), s.sessions), x) <==> HasSession(s.sessions, x)
      ensures HasSession(S.MapSessions(S.SetPending(session.id, false, s.now), s.sessions), x) <==> HasSession(s.sessions, x)
    {
      HasSessionMapped(S.SetPending(session.id, true, s.now + 1), s.sessions, x);
      HasSessionMapped(S.SetPending(session.id, false, s.now), s.sessions, x);
    }
  }

  lemma {:induction false} StatusById(pairings: seq<S.Pairing>, id: nat, status: string)
    requires S.PairingById(pairings, id).Some?
    ensures S.PairingById(S.SetPairingStatus(pairings, id, status), id) == Some(S.PairingById(pairings, id).value.(status := status))
  {
    if pairings[0].id != id {
      StatusById(pairings[1..], id, status);
      assert S.SetPairingStatus(pairings, id, status)[1..] == S.SetPairingStatus(pairings[1..], id, status);
    }
  }

  /** The status an action means. */
  function Meant(action: string): string {
    if action in {"approve", "approved"} then "approved" else if action in {"revoke", "revoked"} then "revoked" else action
  }

  lemma UpdateIs(s: S.Store, id: nat, action: string)
    requires S.PairingById(s.pairings, id).Some?
    ensures var s' := S.UpdatePairing(s, id, action);
            && LastUpdate(s'.audit, id) == Some(Meant(action))
            && S.PairingById(s'.pairings, id) == Some(S.PairingById(s.pairings, id).value.(status := Meant(action)))
  {
    StatusById(s.pairings, id, S.StatusFor(action));
    LastUpdateAppend(s.audit, S.PairingUpdated(id, S.StatusFor(action)), id);
  }

  class StateStore {
    const cfg: S.Config
    var sessions: seq<S.Session>
    var messages: seq<S.SessionMessage>
    var pairings: seq<S.Pairing>
    var audit: seq<S.AuditEvent>
    var now: int
    var nextId: nat

    /** Every count is its number of rows, no row lacks its session, keys are unique, and a pairing is
        approved exactly when its last audited update says so. */
    ghost predicate Valid()
      reads this
    {
      Conserved(View()) && Truthful(View())
    }

    ghost function View(): S.Store
      reads this
    {
      S.Store(sessions, messages, pairings, audit, now, nextId)
    }

    constructor (cfg: S.Config)
      ensures this.cfg == cfg && Valid() && View() == S.EMPTY
    {
      this.cfg := cfg;
      sessions, messages, pairings, audit := [], [], [], [];
      now, nextId := 0, 0;
    }

    /** An id no row has. */
    method FreshId() returns (id: nat)
      requires Valid()
      modifies this`nextId
      ensures Valid() && id == old(nextId) && nextId == old(nextId) + 1
      ensures !HasSession(sessions, id)
    {
      id := nextId;
      nextId := nextId + 1;
    }

    // ----- sessions -----

    /** Afterwards the session is in the table, under the key asked for; at most one is added. */
    method ResolveInternal(connector: string, channelId: string, participant: string, kind: S.SessionType)
      returns (session: S.Session)
      requires Valid()
      modifies this
      ensures Valid() && HasSession(sessions, session.id) && S.HasKey(session, connector, channelId, participant)
      ensures messages == old(messages)
      ensures (View(), session) == S.Resolve(cfg, old(View()), connector, channelId, participant, kind)
    {
      ghost var before := View();
      ResolveKeeps(cfg, before, connector, channelId, participant, kind);
      var found := S.FindSession(sessions, connector, channelId, participant);
      if found.Some? {
        return found.value;
      }
      var settings := cfg.ConnectorFor(connector);
      var id := FreshId();
      session := S.Session(id, connector, channelId, participant, kind, S.Active, false,
        kind == S.Group && (cfg.mentionOnlyInGroups || settings.mentionOnly), false, 0, now);
      sessions := sessions + [session];
      now := now + 1;
    }

    method ResolveForInbound(m: S.Message) returns (session: S.Session)
      requires Valid()
      modifies this
      ensures Valid() && HasSession(sessions, session.id)
      ensures (View(), session) == S.ResolveInbound(cfg, old(View()), m)
    {
      var kind := S.InferType(m);
      var participant := m.sender;
      if kind == S.Group {
        participant := m.channelId;
      }
      session := ResolveInternal(m.connector, m.channelId, participant, kind);
    }

    method ResolveForOutbound(connector: string, channelId: string, sender: string) returns (session: S.Session)
      requires Valid()
      modifies this
      ensures Valid() && HasSession(sessions, session.id)
      ensures messages == old(messages)
      ensures (View(), session) == S.ResolveOutbound(cfg, old(View()), connector, channelId, sender)
    {
      var open := S.LatestOpen(sessions, connector, channelId);
      if open.Some? {
        LatestOpenIs(sessions, connector, channelId);
        return open.value;
      }
      session := ResolveInternal(connector, channelId, if sender == "" then channelId else sender, S.Direct);
    }

    /** One message more for this session and none for another; the session is active and no flag has
        changed; counts stay right as long as the session is in the table. */
    method RecordSessionMessage(id: nat, connector: string, role: string, sender: string, body: string)
      returns (messageId: nat)
      requires Valid()
      modifies this
      ensures messages == old(messages) + [S.SessionMessage(messageId, id, connector, role, sender, body)]
      ensures forall x :: CountOf(messages, x) == CountOf(old(messages), x) + One(x == id)
      ensures Woken(old(sessions), sessions, id)
      ensures forall x :: HasSession(sessions, x) <==> HasSession(old(sessions), x)
      ensures HasSession(old(sessions), id) ==> Valid()
      ensures View() == S.Record(old(View()), id, connector, role, sender, body)
    {
      RecordIs(View(), id, connector, role, sender, body);
      if HasSession(sessions, id) {
        RecordKeeps(View(), id, connector, role, sender, body);
        ElsewhereTruthful(View(), S.Record(View(), id, connector, role, sender, body));
      }
      messageId := FreshId();
      messages := messages + [S.SessionMessage(messageId, id, connector, role, sender, body)];
      sessions := S.MapSessions(S.Bump(id, now), sessions);
      now := now + 1;
    }

    /** Archiving marks exactly the sessions older than the threshold and keeps every message; deleting
        keeps exactly the others, and exactly the messages of sessions that are not older. */
    method PruneSessions(olderThanHours: nat, archiveOnly: bool)
      requires Valid()
      modifies this
      ensures Valid()
      ensures archiveOnly ==> ArchivedOld(old(sessions), sessions, HoursAgo(old(now), olderThanHours)) && messages == old(messages)
      ensures !archiveOnly ==> DeletedOld(old(View()), View(), HoursAgo(old(now), olderThanHours))
      ensures View() == S.Prune(old(View()), olderThanHours, archiveOnly)
    {
      ghost var before := View();
      var threshold := now - (if olderThanHours == 0 then 1 else olderThanHours) * HOUR;
      if archiveOnly {
        sessions := S.MapSessions(S.ArchiveOld(threshold, now), sessions);
      } else {
        messages := S.KeepMessages(messages, sessions, threshold);
        sessions := S.KeepSessions(sessions, threshold);
      }
      now := now + 1;
      assert View() == S.Prune(before, olderThanHours, archiveOnly);
      ValidKept(cfg, before, S.DoPrune(olderThanHours, archiveOnly));
      PruneIs(before, olderThanHours, archiveOnly);
    }

    // ----- pairings -----

    /** Insert, or on a conflict of (connector, channel, sender) renew; then read the row back.  The
        target's pairing is pending, under the id it had if it had one; no other target's has changed. */
    method EnsurePairing(m: S.Message, sessionId: nat) returns (pairing: Option<S.Pairing>)
      requires Valid()
      modifies this
      ensures pairing.Some? && pairing.value.status == "pending" && pairing.value.sessionId == sessionId
      ensures var before := S.FindPairing(old(pairings), m.connector, m.channelId, m.sender);
              before.Some? ==> pairing.value.id == before.value.id
      ensures forall c, h, s :: c != m.connector || h != m.channelId || s != m.sender ==>
                S.FindPairing(pairings, c, h, s) == S.FindPairing(old(pairings), c, h, s)
      ensures !old(S.IsApproved(View(), m.connector, m.channelId, m.sender)) ==> Valid()
      ensures View() == S.EnsurePairing(old(View()), m, sessionId)
      ensures pairing == S.FindPairing(pairings, m.connector, m.channelId, m.sender)
    {
      ghost var s := View();
      forall c, h, x
        ensures c != m.connector || h != m.channelId || x != m.sender ==>
                  S.FindPairing(S.EnsurePairing(s, m, sessionId).pairings, c, h, x) == S.FindPairing(pairings, c, h, x)
      {
        EnsurePairingIs(s, m, sessionId, c, h, x);
      }
      EnsurePairingIs(s, m, sessionId, "", "", "");
      if !S.IsApproved(s, m.connector, m.channelId, m.sender) {
        EnsureTruthful(s, m, sessionId);
      }
      var conflict := S.FindPairing(pairings, m.connector, m.channelId, m.sender);
      if conflict.Some? {
        pairings := S.RenewPairing(pairings, conflict.value.id, sessionId);
      } else {
        var id := FreshId();
        pairings := pairings + [S.Pairing(id, m.connector, m.channelId, m.sender, sessionId, "pending")];
      }
      now := now + 1;
      pairing := S.FindPairing(pairings, m.connector, m.channelId, m.sender);
    }

    /** The session shows the mark; every other session is as it was. */
    method SetSessionPendingPairing(id: nat, value: bool)
      requires Valid()
      modifies this
      ensures Valid()
      ensures forall x :: x != id ==> S.SessionById(sessions, x) == S.SessionById(old(sessions), x)
      ensures S.SessionById(sessions, id).Some? <==> S.SessionById(old(sessions), id).Some?
      ensures S.SessionById(sessions, id).Some? ==>
                var before, after := S.SessionById(old(sessions), id).value, S.SessionById(sessions, id).value;
                after.pendingPairing == value && SameTarget(before, after) && after.messageCount == before.messageCount
                && after.status == before.status && after.archived == before.archived
      ensures View() == S.MarkPending(old(View()), id, value)
    {
      PendingKeeps(View(), id, value);
      ElsewhereTruthful(View(), S.MarkPending(View(), id, value));
      forall x
        ensures S.SessionById(S.MapSessions(S.SetPending(id, value, now), sessions), x)
                == match S.SessionById(sessions, x) case None => None case Some(s) => Some(S.SetPending(id, value, now)(s))
        ensures S.SessionById(sessions, x).Some? ==> S.SessionById(sessions, x).value.id == x
      {
        SessionByIdMapped(S.SetPending(id, value, now), sessions, x);
        SessionByIdIs(sessions, x);
      }
      sessions := S.MapSessions(S.SetPending(id, value, now), sessions);
      now := now + 1;
    }

    /** False when the id names no pairing; then nothing has changed.  Otherwise the audit's last word
        on the pairing is the new status. */
    method UpdatePairing(id: nat, action: string) returns (known: bool)
      requires Valid()
      modifies this
      ensures Valid()
      ensures known ==>
                && S.PairingById(old(pairings), id).Some? && LastUpdate(audit, id) == Some(Meant(action))
                && S.PairingById(pairings, id) == Some(S.PairingById(old(pairings), id).value.(status := Meant(action)))
      ensures View() == S.UpdatePairing(old(View()), id, action)
      ensures known <==> S.PairingById(old(pairings), id).Some?
      ensures !known ==> View() == old(View())
    {
      ghost var before := View();
      var pairing := S.PairingById(pairings, id);
      if pairing.None? {
        return false;
      }
      var status := action;
      if action == "approve" || action == "approved" {
        status := "approved";
      } else if action == "revoke" || action == "revoked" {
        status := "revoked";
      }
      pairings := S.SetPairingStatus(pairings, id, status);
      sessions := S.MapSessions(S.SetPending(pairing.value.sessionId, status == "pending", now), sessions);
      audit := audit + [S.PairingUpdated(id, status)];
      now := now + 1;
      known := true;
      assert View() == S.UpdatePairing(before, id, action);
      ValidKept(cfg, before, S.DoUpdate(id, action));
      UpdateIs(before, id, action);
    }

    // ----- calls -----

    /** Asks for a pairing exactly when the gate blocks the message. */
    method EnsurePairingIfRequired(session: S.Session, m: S.Message) returns (asked: Option<nat>)
      requires Valid()
      modifies this
      ensures Valid()
      ensures asked.Some? <==> S.Gated(cfg, session, m) && !S.Allowlisted(cfg, m)
                               && !S.IsApproved(old(View()), m.connector, m.channelId, m.sender)
      ensures forall x :: HasSession(sessions, x) <==> HasSession(old(sessions), x)
      ensures (View(), asked) == S.Gate(cfg, old(View()), session, m)
    {
      GateIs(cfg, View(), session, m);
      if m.connector == "desktop" || session.sessionType != S.Direct {
        return None;
      }
      var settings := cfg.ConnectorFor(m.connector);
      if !(cfg.autoPairDm && settings.pairDm) {
        return None;
      }
      if m.sender in settings.allowlist || S.IsApproved(S.Store(sessions, messages, pairings, audit, now, nextId),
                                                       m.connector, m.channelId, m.sender) {
        SetSessionPendingPairing(session.id, false);
        return None;
      }
      var pairing := EnsurePairing(m, session.id);
      SetSessionPendingPairing(session.id, true);
      asked := Some(pairing.value.id);
    }

    method RecordAudit(e: S.AuditEvent)
      requires Valid() && !e.PairingUpdated?
      modifies this`audit
      ensures Valid() && audit == old(audit) + [e]
    {
      AuditTruthful(View(), e);
      audit := audit + [e];
    }

    /** What follows once the session is known. */
    method Deliver(session: S.Session, m: S.Message, reply: Option<string>) returns (delivery: S.Delivery)
      requires Valid() && HasSession(sessions, session.id)
      modifies this
      ensures Valid()
      ensures (View(), delivery) == S.Deliver(cfg, old(View()), session, m, reply)
    {
      var _ := RecordSessionMessage(session.id, m.connector, "user", m.sender, m.body);
      var asked := EnsurePairingIfRequired(session, m);
      if asked.Some? {
        RecordAudit(S.PairingAsked(session.id, asked.value));
        return S.PairingRequired(asked.value);
      }
      if S.Ignored(cfg, session, m) {
        return S.Dropped;
      }
      if reply.None? {
        RecordAudit(S.Unanswered(session.id));
        return S.Degraded;
      }
      var _ := RecordSessionMessage(session.id, m.connector, "assistant", "openpinch", reply.value);
      RecordAudit(S.Handled(session.id));
      delivery := S.Replied;
    }

    method HandleMessage(m: S.Message, reply: Option<string>) returns (delivery: S.Delivery)
      requires Valid()
      modifies this
      ensures Valid()
      ensures (View(), delivery) == S.Inbound(cfg, old(View()), m, reply)
    {
      var session := ResolveForInbound(m);
      delivery := Deliver(session, m, reply);
    }

    /** False when the session id is unknown; then nothing has changed. */
    method RecordOutboundMessage(target: S.Target, connector: string, channelId: string, sender: string, body: string)
      returns (recorded: bool)
      requires Valid()
      modifies this
      ensures Valid()
      ensures View() == S.Outbound(cfg, old(View()), target, connector, channelId, sender, body)
      ensures !recorded ==> View() == old(View())
      ensures recorded ==> messages[..|old(messages)|] == old(messages) && |messages| == |old(messages)| + 1
    {
      var author := if sender == "" then "openpinch" else sender;
      var session: S.Session;
      match target {
        case ById(id) =>
          var known := S.SessionById(sessions, id);
          SessionByIdIs(sessions, id);
          if known.None? {
            return false;
          }
          session := known.value;
        case ByChannel =>
          session := ResolveForOutbound(connector, channelId, sender);
      }
      var _ := RecordSessionMessage(session.id, connector, "assistant", author, body);
      recorded := true;
    }
  }
}
