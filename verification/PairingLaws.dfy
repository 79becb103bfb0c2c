/** The pairing gate as an if-and-only-if over runs. */
module PairingLaws {
  import opened Options
  import opened Sessions

  // ----- pairings only ever grow in number -----

  predicate SamePairing(a: Pairing, b: Pairing) {
    a.id == b.id && a.connector == b.connector && a.channelId == b.channelId && a.sender == b.sender
  }

  /** Pairings keep their place, id and target. */
  ghost predicate Grew(before: seq<Pairing>, after: seq<Pairing>) {
    |before| <= |after| && forall i :: 0 <= i < |before| ==> SamePairing(before[i], after[i])
  }

  lemma {:induction false} FindPairingIs(pairings: seq<Pairing>, connector: string, channelId: string, sender: string)
    ensures var p := FindPairing(pairings, connector, channelId, sender);
            && (p.None? <==> forall i :: 0 <= i < |pairings| ==> !PairingFor(pairings[i], connector, channelId, sender))
            && (p.Some? ==> exists i :: 0 <= i < |pairings| && pairings[i] == p.value
                              && PairingFor(pairings[i], connector, channelId, sender))
  {
    if pairings != [] && !PairingFor(pairings[0], connector, channelId, sender) {
      FindPairingIs(pairings[1..], connector, channelId, sender);
      var p := FindPairing(pairings[1..], connector, channelId, sender);
      assert forall i :: 0 < i < |pairings| ==> pairings[i] == pairings[1..][i - 1];
      if p.Some? {
        var i :| 0 <= i < |pairings[1..]| && pairings[1..][i] == p.value;
        assert pairings[i + 1] == p.value;
      }
    }
  }

  /** A pairing found stays the one found, under the same id. */
  lemma {:induction false} FoundStays(before: seq<Pairing>, after: seq<Pairing>, connector: string, channelId: string, sender: string)
    requires Grew(before, after) && FindPairing(before, connector, channelId, sender).Some?
    ensures FindPairing(after, connector, channelId, sender).Some?
    ensures FindPairing(after, connector, channelId, sender).value.id == FindPairing(before, connector, channelId, sender).value.id
  {
    assert SamePairing(before[0], after[0]);
    if !PairingFor(before[0], connector, channelId, sender) {
      assert Grew(before[1..], after[1..]);
      FoundStays(before[1..], after[1..], connector, channelId, sender);
    }
  }

  lemma DeliverGrows(cfg: Config, s1: Store, session: Session, m: Message, reply: Option<string>)
    ensures Grew(s1.pairings, Deliver(cfg, s1, session, m, reply).0.pairings)
  {
  }

  lemma StepGrows(cfg: Config, s: Store, a: Action)
    ensures Grew(s.pairings, Step(cfg, s, a).pairings)
  {
    if a.DoInbound? {
      var (s1, session) := ResolveInbound(cfg, s, a.message);
      DeliverGrows(cfg, s1, session, a.message, a.reply);
    }
  }

  /** The pairing id of a (connector, channel, sender) never changes once it exists. */
  lemma {:induction false} PairingIdNeverChanges(cfg: Config, states: seq<Store>, acts: seq<Action>, k: nat, l: nat,
                                                 connector: string, channelId: string, sender: string)
    requires IsRun(cfg, states, acts) && k <= l < |states|
    requires FindPairing(states[k].pairings, connector, channelId, sender).Some?
    ensures FindPairing(states[l].pairings, connector, channelId, sender).Some?
    ensures FindPairing(states[l].pairings, connector, channelId, sender).value.id
            == FindPairing(states[k].pairings, connector, channelId, sender).value.id
  {
    if k < l {
      PairingIdNeverChanges(cfg, states, acts, k, l - 1, connector, channelId, sender);
      StepGrows(cfg, states[l - 1], acts[l - 1]);
      FoundStays(states[l - 1].pairings, states[l].pairings, connector, channelId, sender);
    }
  }

  // ----- what the audit log says -----

  /** The status of the last audited update of a pairing. */
  function LastUpdate(audit: seq<AuditEvent>, id: nat): Option<string> {
    if audit == [] then None
    else
      var last := audit[|audit| - 1];
      if last.PairingUpdated? && last.pairingId == id then Some(last.status) else LastUpdate(audit[..|audit| - 1], id)
  }

  lemma LastUpdateAppend(audit: seq<AuditEvent>, e: AuditEvent, id: nat)
    ensures LastUpdate(audit + [e], id)
            == if e.PairingUpdated? && e.pairingId == id then Some(e.status) else LastUpdate(audit, id)
  {
    assert (audit + [e])[..|audit|] == audit;
  }

  lemma {:induction false} NeverUpdated(audit: seq<AuditEvent>, id: nat)
    requires forall k :: 0 <= k < |audit| && audit[k].PairingUpdated? ==> audit[k].pairingId != id
    ensures LastUpdate(audit, id) == None
  {
    if audit != [] {
      NeverUpdated(audit[..|audit| - 1], id);
    }
  }

  ghost predicate PairingsOk(s: Store) {
    && (forall i :: 0 <= i < |s.pairings| ==> s.pairings[i].id < s.nextId)
    && (forall i, j :: 0 <= i < j < |s.pairings| ==> s.pairings[i].id != s.pairings[j].id)
    && (forall k :: 0 <= k < |s.audit| && s.audit[k].PairingUpdated? ==> s.audit[k].pairingId < s.nextId)
  }

  /** A pairing is approved exactly when its last audited update says so. */
  ghost predicate VerdictsTrue(s: Store) {
    forall i :: 0 <= i < |s.pairings| ==>
      (s.pairings[i].status == "approved" <==> LastUpdate(s.audit, s.pairings[i].id) == Some("approved"))
  }

  ghost predicate Truthful(s: Store) {
    PairingsOk(s) && VerdictsTrue(s)
  }

  /** Writes that touch neither pairings nor audit. */
  lemma ElsewhereTruthful(s: Store, s': Store)
    requires Truthful(s) && s'.pairings == s.pairings && s'.audit == s.audit && s'.nextId >= s.nextId
    ensures Truthful(s')
  {
  }

  /** Audit events about anything but a pairing update. */
  lemma AuditTruthful(s: Store, e: AuditEvent)
    requires Truthful(s) && !e.PairingUpdated?
    ensures Truthful(s.(audit := s.audit + [e]))
  {
    forall i | 0 <= i < |s.pairings|
      ensures LastUpdate(s.audit + [e], s.pairings[i].id) == LastUpdate(s.audit, s.pairings[i].id)
    {
      LastUpdateAppend(s.audit, e, s.pairings[i].id);
    }
  }

  lemma EnsureTruthful(s: Store, m: Message, sessionId: nat)
    requires Truthful(s) && !IsApproved(s, m.connector, m.channelId, m.sender)
    ensures Truthful(EnsurePairing(s, m, sessionId))
  {
    FindPairingIs(s.pairings, m.connector, m.channelId, m.sender);
    var found, s' := FindPairing(s.pairings, m.connector, m.channelId, m.sender), EnsurePairing(s, m, sessionId);
    if found.None? {
      NeverUpdated(s.audit, s.nextId);
    } else {
      var k :| 0 <= k < |s.pairings| && s.pairings[k] == found.value;
      assert forall i :: 0 <= i < |s.pairings| && i != k ==> s.pairings[i].id != found.value.id;
    }
  }

  lemma GateTruthful(cfg: Config, s: Store, session: Session, m: Message)
    requires Truthful(s)
    ensures Truthful(Gate(cfg, s, session, m).0)
  {
    if Gated(cfg, session, m) {
      if Allowlisted(cfg, m) || IsApproved(s, m.connector, m.channelId, m.sender) {
        ElsewhereTruthful(s, MarkPending(s, session.id, false));
      } else {
        EnsureTruthful(s, m, session.id);
        var s1 := EnsurePairing(s, m, session.id);
        ElsewhereTruthful(s1, MarkPending(s1, session.id, true));
      }
    }
  }

  lemma DeliverTruthful(cfg: Config, s1: Store, session: Session, m: Message, reply: Option<string>)
    requires Truthful(s1)
    ensures Truthful(Deliver(cfg, s1, session, m, reply).0)
  {
    var s2 := Record(s1, session.id, m.connector, "user", m.sender, m.body);
    ElsewhereTruthful(s1, s2);
    GateTruthful(cfg, s2, session, m);
    var (s3, asked) := Gate(cfg, s2, session, m);
    if asked.Some? {
      AuditTruthful(s3, PairingAsked(session.id, asked.value));
    } else if !Ignored(cfg, session, m) {
      if reply.Some? {
        var s4 := Record(s3, session.id, m.connector, "assistant", "openpinch", reply.value);
        ElsewhereTruthful(s3, s4);
        AuditTruthful(s4, Handled(session.id));
      } else {
        AuditTruthful(s3, Unanswered(session.id));
      }
    }
  }

  lemma {:induction false} PairingByIdIs(pairings: seq<Pairing>, id: nat)
    ensures PairingById(pairings, id).Some? ==> exists i :: 0 <= i < |pairings| && pairings[i] == PairingById(pairings, id).value && pairings[i].id == id
  {
    if pairings != [] && pairings[0].id != id {
      PairingByIdIs(pairings[1..], id);
      if PairingById(pairings[1..], id).Some? {
        var i :| 0 <= i < |pairings[1..]| && pairings[1..][i] == PairingById(pairings[1..], id).value && pairings[1..][i].id == id;
        assert pairings[i + 1].id == id;
      }
    }
  }

  lemma UpdateTruthful(s: Store, id: nat, action: string)
    requires Truthful(s)
    ensures Truthful(UpdatePairing(s, id, action))
  {
    PairingByIdIs(s.pairings, id);
    var s' := UpdatePairing(s, id, action);
    if PairingById(s.pairings, id).Some? {
      forall i | 0 <= i < |s'.pairings|
        ensures s'.pairings[i].status == "approved" <==> LastUpdate(s'.audit, s'.pairings[i].id) == Some("approved")
      {
        LastUpdateAppend(s.audit, PairingUpdated(id, StatusFor(action)), s.pairings[i].id);
      }
    }
  }

  lemma StepTruthful(cfg: Config, s: Store, a: Action)
    requires Truthful(s)
    ensures Truthful(Step(cfg, s, a))
  {
    match a
    case DoInbound(m, reply) =>
      var (s1, session) := ResolveInbound(cfg, s, m);
      ElsewhereTruthful(s, s1);
      DeliverTruthful(cfg, s1, session, m, reply);
    case DoOutbound(target, connector, channelId, sender, body) => ElsewhereTruthful(s, Step(cfg, s, a));
    case DoPrune(hours, archiveOnly) => ElsewhereTruthful(s, Step(cfg, s, a));
    case DoUpdate(id, action) => UpdateTruthful(s, id, action);
    case DoWait(_) => ElsewhereTruthful(s, Step(cfg, s, a));
  }

  lemma {:induction false} RunTruthful(cfg: Config, states: seq<Store>, acts: seq<Action>, k: nat)
    requires IsRun(cfg, states, acts) && k < |states|
    ensures Truthful(states[k])
  {
    if k > 0 {
      RunTruthful(cfg, states, acts, k - 1);
      StepTruthful(cfg, states[k - 1], acts[k - 1]);
    }
  }

  // ----- the gate -----

  /** The last audited update of this target's pairing was an approval. */
  ghost predicate LastApproved(s: Store, connector: string, channelId: string, sender: string) {
    var p := FindPairing(s.pairings, connector, channelId, sender);
    p.Some? && LastUpdate(s.audit, p.value.id) == Some("approved")
  }

  lemma ApprovedIsLast(s: Store, connector: string, channelId: string, sender: string)
    requires Truthful(s)
    ensures IsApproved(s, connector, channelId, sender) <==> LastApproved(s, connector, channelId, sender)
  {
    FindPairingIs(s.pairings, connector, channelId, sender);
  }

  /** What the gate decides, once the session is resolved. */
  lemma GateDecides(cfg: Config, s1: Store, session: Session, m: Message, reply: Option<string>)
    ensures var (s', d) := Deliver(cfg, s1, session, m, reply);
            var blocked := Gated(cfg, session, m) && !Allowlisted(cfg, m)
                           && !IsApproved(s1, m.connector, m.channelId, m.sender);
            && (d.PairingRequired? <==> blocked)
            && (blocked ==> FindPairing(s'.pairings, m.connector, m.channelId, m.sender).Some?
                            && FindPairing(s'.pairings, m.connector, m.channelId, m.sender).value.id == d.pairingId)
            && (ReachesModel(d) <==> !blocked && !Ignored(cfg, session, m))
  {
    var s2 := Record(s1, session.id, m.connector, "user", m.sender, m.body);
    if Gated(cfg, session, m) && !Allowlisted(cfg, m) && !IsApproved(s1, m.connector, m.channelId, m.sender) {
      var e := EnsurePairing(s2, m, session.id);
      FindPairingIs(s2.pairings, m.connector, m.channelId, m.sender);
      FindPairingIs(e.pairings, m.connector, m.channelId, m.sender);
      if FindPairing(s2.pairings, m.connector, m.channelId, m.sender).None? {
        assert PairingFor(e.pairings[|s2.pairings|], m.connector, m.channelId, m.sender);
      } else {
        var i :| 0 <= i < |s2.pairings| && PairingFor(s2.pairings[i], m.connector, m.channelId, m.sender);
        assert PairingFor(e.pairings[i], m.connector, m.channelId, m.sender);
      }
    }
  }

  /** In every run: a message whose session is direct, on a pair-gated connector, from a sender not on
      the allowlist, reaches the model exactly when the last `update_pairing` of its target approved it. */
  lemma PairingGate(cfg: Config, states: seq<Store>, acts: seq<Action>, k: nat, m: Message, reply: Option<string>)
    requires IsRun(cfg, states, acts) && k < |states|
    requires Gated(cfg, ResolveInbound(cfg, states[k], m).1, m) && !Allowlisted(cfg, m)
    ensures ReachesModel(Inbound(cfg, states[k], m, reply).1)
            <==> LastApproved(states[k], m.connector, m.channelId, m.sender)
    ensures !ReachesModel(Inbound(cfg, states[k], m, reply).1) ==> Inbound(cfg, states[k], m, reply).1.PairingRequired?
  {
    RunTruthful(cfg, states, acts, k);
    ApprovedIsLast(states[k], m.connector, m.channelId, m.sender);
    var (s1, session) := ResolveInbound(cfg, states[k], m);
    GateDecides(cfg, s1, session, m, reply);
  }

  // ----- approvals last -----

  /** After `ensure_pairing` the target has a pending pairing, the one it had or a new one, and the
      pairings of all other targets are as they were. */
  lemma EnsurePairingIs(s: Store, m: Message, sessionId: nat, connector: string, channelId: string, sender: string)
    requires PairingsOk(s)
    ensures var before, after := FindPairing(s.pairings, m.connector, m.channelId, m.sender),
                                 FindPairing(EnsurePairing(s, m, sessionId).pairings, m.connector, m.channelId, m.sender);
            && after.Some? && after.value.status == "pending" && after.value.sessionId == sessionId
            && after.value.id == if before.Some? then before.value.id else s.nextId
    ensures connector != m.connector || channelId != m.channelId || sender != m.sender ==>
              FindPairing(EnsurePairing(s, m, sessionId).pairings, connector, channelId, sender)
              == FindPairing(s.pairings, connector, channelId, sender)
  {
    var s' := EnsurePairing(s, m, sessionId);
    FindPairingIs(s.pairings, m.connector, m.channelId, m.sender);
    var before := FindPairing(s.pairings, m.connector, m.channelId, m.sender);
    if before.None? {
      FoundOrLast(s.pairings, s'.pairings[|s.pairings|], m.connector, m.channelId, m.sender);
      FoundOrLast(s.pairings, s'.pairings[|s.pairings|], connector, channelId, sender);
    } else {
      FoundRenewed(s.pairings, before.value.id, sessionId, m.connector, m.channelId, m.sender);
      FoundRenewed(s.pairings, before.value.id, sessionId, connector, channelId, sender);
      FindPairingIs(s.pairings, connector, channelId, sender);
      var i :| 0 <= i < |s.pairings| && s.pairings[i] == before.value;
      if FindPairing(s.pairings, connector, channelId, sender).Some? {
        var j :| 0 <= j < |s.pairings| && s.pairings[j] == FindPairing(s.pairings, connector, channelId, sender).value
                   && PairingFor(s.pairings[j], connector, channelId, sender);
        assert i != j ==> s.pairings[i].id != s.pairings[j].id;
      }
    }
  }

  lemma {:induction false} FoundOrLast(pairings: seq<Pairing>, last: Pairing, connector: string, channelId: string, sender: string)
    ensures FindPairing(pairings + [last], connector, channelId, sender)
            == if FindPairing(pairings, connector, channelId, sender).Some? then FindPairing(pairings, connector, channelId, sender)
               else if PairingFor(last, connector, channelId, sender) then Some(last) else None
  {
    if pairings == [] {
      assert pairings + [last] == [last];
    } else {
      FoundOrLast(pairings[1..], last, connector, channelId, sender);
      assert (pairings + [last])[1..] == pairings[1..] + [last];
    }
  }

  lemma {:induction false} FoundRenewed(pairings: seq<Pairing>, id: nat, sessionId: nat, connector: string, channelId: string, sender: string)
    ensures FindPairing(RenewPairing(pairings, id, sessionId), connector, channelId, sender)
            == match FindPairing(pairings, connector, channelId, sender)
               case None => None
               case Some(p) => Some(if p.id == id then p.(sessionId := sessionId, status := "pending") else p)
  {
    if pairings != [] {
      FoundRenewed(pairings[1..], id, sessionId, connector, channelId, sender);
      assert RenewPairing(pairings, id, sessionId)[1..] == RenewPairing(pairings[1..], id, sessionId);
    }
  }

  lemma DeliverKeepsApproval(cfg: Config, s1: Store, session: Session, m: Message, reply: Option<string>,
                             connector: string, channelId: string, sender: string)
    requires PairingsOk(s1) && IsApproved(s1, connector, channelId, sender)
    ensures IsApproved(Deliver(cfg, s1, session, m, reply).0, connector, channelId, sender)
  {
    var s2 := Record(s1, session.id, m.connector, "user", m.sender, m.body);
    EnsurePairingIs(s2, m, session.id, connector, channelId, sender);
  }

  /** No message, reply or prune ever undoes an approval. */
  lemma ApprovalLasts(cfg: Config, states: seq<Store>, acts: seq<Action>, k: nat, connector: string, channelId: string, sender: string)
    requires IsRun(cfg, states, acts) && k < |acts| && !acts[k].DoUpdate?
    requires IsApproved(states[k], connector, channelId, sender)
    ensures IsApproved(states[k + 1], connector, channelId, sender)
  {
    RunTruthful(cfg, states, acts, k);
    if acts[k].DoInbound? {
      var (s1, session) := ResolveInbound(cfg, states[k], acts[k].message);
      DeliverKeepsApproval(cfg, s1, session, acts[k].message, acts[k].reply, connector, channelId, sender);
    }
  }

  // ----- the gate looks at the session, not at the message -----

  function PairedTelegram(): Config {
    Config(map["telegram" := Connector(true, [], false)], true, false, (body: string) => false)
  }

  /** A group message in channel "c", then a direct message from sender "c". */
  const GROUP_MESSAGE: Message := Message("telegram", "c", "x", "hello all", Some("group"), false)
  const DIRECT_MESSAGE: Message := Message("telegram", "c", "c", "hello", Some("private"), false)

  /** The gate follows the type of the stored session: a direct message that resolves to a session created
      by a group message, same channel and participant, is handled as a group message. */
  lemma GateFollowsStoredSession() returns (s: Store)
    ensures s == Inbound(PairedTelegram(), EMPTY, GROUP_MESSAGE, None).0
    ensures InferType(DIRECT_MESSAGE) == Direct && !Allowlisted(PairedTelegram(), DIRECT_MESSAGE)
    ensures FindPairing(s.pairings, "telegram", "c", "c").None?
    ensures ReachesModel(Inbound(PairedTelegram(), s, DIRECT_MESSAGE, None).1)
  {
    var cfg := PairedTelegram();
    var (e1, session) := ResolveInbound(cfg, EMPTY, GROUP_MESSAGE);
    assert e1.sessions == [session] && session.sessionType == Group;
    GateDecides(cfg, e1, session, GROUP_MESSAGE, None);
    s := Inbound(cfg, EMPTY, GROUP_MESSAGE, None).0;
    assert s.sessions == [session.(messageCount := 1, updatedAt := e1.now)];
    assert ResolveInbound(cfg, s, DIRECT_MESSAGE) == (s, s.sessions[0]);
    GateDecides(cfg, s, s.sessions[0], DIRECT_MESSAGE, None);
  }

  /** Exactly when a direct message is subject to the gate: its session, the stored one if there is
      one, is direct. */
  lemma DirectMessageGatedExactlyWhen(cfg: Config, s: Store, m: Message)
    requires InferType(m) == Direct && m.connector != "desktop" && cfg.autoPairDm && cfg.ConnectorFor(m.connector).pairDm
    ensures var stored := FindSession(s.sessions, m.connector, m.channelId, m.sender);
            Gated(cfg, ResolveInbound(cfg, s, m).1, m) <==> stored.None? || stored.value.sessionType == Direct
  {
  }
}
