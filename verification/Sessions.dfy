/**
  Sessions, their messages and pairings, with every remote call as one step from store to store.
  Generated ids are fresh numbers; message metadata is given by the fields the program reads from it.
 */
module Sessions {
  import opened Clock
  import opened Options

  datatype SessionType = Direct | Group
  datatype Status = Active | Archived

  datatype Session = Session(
    id: nat, connector: string, channelId: string, participant: string, sessionType: SessionType,
    status: Status, archived: bool, mentionOnly: bool, pendingPairing: bool, messageCount: nat, updatedAt: int)

  datatype SessionMessage = SessionMessage(id: nat, sessionId: nat, connector: string, role: string, sender: string, body: string)

  datatype Pairing = Pairing(id: nat, connector: string, channelId: string, sender: string, sessionId: nat, status: string)

  datatype AuditEvent =
    | PairingAsked(sessionId: nat, pairingId: nat)
    | PairingUpdated(pairingId: nat, status: string)
    | Handled(sessionId: nat)
    | Unanswered(sessionId: nat)

  datatype Store = Store(
    sessions: seq<Session>, messages: seq<SessionMessage>, pairings: seq<Pairing>, audit: seq<AuditEvent>,
    now: int, nextId: nat)

  datatype Connector = Connector(pairDm: bool, allowlist: seq<string>, mentionOnly: bool)

  datatype Config = Config(
    connectors: map<string, Connector>, autoPairDm: bool, mentionOnlyInGroups: bool, mentions: string -> bool)
  {
    function ConnectorFor(name: string): Connector {
      if name in connectors then connectors[name] else Connector(false, [], false)
    }
  }

  /** An inbound message; `channelType` and `replyToUs` are what its metadata says, if anything. */
  datatype Message = Message(
    connector: string, channelId: string, sender: string, body: string, channelType: Option<string>, replyToUs: bool)

  function InferType(m: Message): SessionType {
    if m.channelType.Some? then
      if m.channelType.value in {"group", "supergroup", "channel", "room"} then Group else Direct
    else if m.connector == "desktop" || m.channelId == m.sender then Direct
    else Group
  }

  function Participant(m: Message): string {
    if InferType(m) == Group then m.channelId else m.sender
  }

  // ----- lookup -----

  predicate HasKey(s: Session, connector: string, channelId: string, participant: string) {
    s.connector == connector && s.channelId == channelId && s.participant == participant
  }

  function FindSession(sessions: seq<Session>, connector: string, channelId: string, participant: string): Option<Session> {
    if sessions == [] then None
    else if HasKey(sessions[0], connector, channelId, participant) then Some(sessions[0])
    else FindSession(sessions[1..], connector, channelId, participant)
  }

  function SessionById(sessions: seq<Session>, id: nat): Option<Session> {
    if sessions == [] then None else if sessions[0].id == id then Some(sessions[0]) else SessionById(sessions[1..], id)
  }

  predicate PairingFor(p: Pairing, connector: string, channelId: string, sender: string) {
    p.connector == connector && p.channelId == channelId && p.sender == sender
  }

  function FindPairing(pairings: seq<Pairing>, connector: string, channelId: string, sender: string): Option<Pairing> {
    if pairings == [] then None
    else if PairingFor(pairings[0], connector, channelId, sender) then Some(pairings[0])
    else FindPairing(pairings[1..], connector, channelId, sender)
  }

  function PairingById(pairings: seq<Pairing>, id: nat): Option<Pairing> {
    if pairings == [] then None else if pairings[0].id == id then Some(pairings[0]) else PairingById(pairings[1..], id)
  }

  /** The unarchived session of a channel that was updated last. */
  function LatestOpen(sessions: seq<Session>, connector: string, channelId: string): Option<Session> {
    if sessions == [] then None
    else
      var rest, s := LatestOpen(sessions[1..], connector, channelId), sessions[0];
      if s.connector != connector || s.channelId != channelId || s.archived then rest
      else if rest.Some? && rest.value.updatedAt > s.updatedAt then rest
      else Some(s)
  }

  // ----- single-table writes -----

  function MapSessions(f: Session -> Session, sessions: seq<Session>): (r: seq<Session>)
    ensures |r| == |sessions| && forall i :: 0 <= i < |r| ==> r[i] == f(sessions[i])
  {
    seq(|sessions|, i requires 0 <= i < |sessions| => f(sessions[i]))
  }

  function SetPending(id: nat, value: bool, now: int): Session -> Session {
    (s: Session) => if s.id == id then s.(pendingPairing := value, updatedAt := now) else s
  }

  function Bump(id: nat, now: int): Session -> Session {
    (s: Session) => if s.id == id then s.(messageCount := s.messageCount + 1, status := Active, updatedAt := now) else s
  }

  function ArchiveOld(threshold: int, now: int): Session -> Session {
    (s: Session) =>
      if s.updatedAt < threshold && s.status != Archived then s.(status := Archived, archived := true, updatedAt := now) else s
  }

  function SetPairingStatus(pairings: seq<Pairing>, id: nat, status: string): (r: seq<Pairing>)
    ensures |r| == |pairings|
    ensures forall i :: 0 <= i < |r| ==> r[i] == if pairings[i].id == id then pairings[i].(status := status) else pairings[i]
  {
    seq(|pairings|, i requires 0 <= i < |pairings| =>
      if pairings[i].id == id then pairings[i].(status := status) else pairings[i])
  }

  function MarkPending(s: Store, id: nat, value: bool): Store {
    s.(sessions := MapSessions(SetPending(id, value, s.now), s.sessions), now := s.now + 1)
  }

  /** `record_session_message`: one message row, and its session counted, active and touched. */
  function Record(s: Store, id: nat, connector: string, role: string, sender: string, body: string): Store {
    s.(messages := s.messages + [SessionMessage(s.nextId, id, connector, role, sender, body)],
       sessions := MapSessions(Bump(id, s.now), s.sessions),
       now := s.now + 1, nextId := s.nextId + 1)
  }

  // ----- resolving a session -----

  function NewSession(cfg: Config, s: Store, connector: string, channelId: string, participant: string, kind: SessionType): Session {
    Session(s.nextId, connector, channelId, participant, kind, Active, false,
      kind == Group && (cfg.mentionOnlyInGroups || cfg.ConnectorFor(connector).mentionOnly), false, 0, s.now)
  }

  function Resolve(cfg: Config, s: Store, connector: string, channelId: string, participant: string, kind: SessionType)
    : (Store, Session)
  {
    var found := FindSession(s.sessions, connector, channelId, participant);
    if found.Some? then (s, found.value)
    else
      var session := NewSession(cfg, s, connector, channelId, participant, kind);
      (s.(sessions := s.sessions + [session], now := s.now + 1, nextId := s.nextId + 1), session)
  }

  function ResolveInbound(cfg: Config, s: Store, m: Message): (Store, Session) {
    Resolve(cfg, s, m.connector, m.channelId, Participant(m), InferType(m))
  }

  function ResolveOutbound(cfg: Config, s: Store, connector: string, channelId: string, sender: string): (Store, Session) {
    var open := LatestOpen(s.sessions, connector, channelId);
    if open.Some? then (s, open.value)
    else Resolve(cfg, s, connector, channelId, if sender == "" then channelId else sender, Direct)
  }

  // ----- the gate -----

  /** The messages the pairing gate is about. */
  predicate Gated(cfg: Config, session: Session, m: Message) {
    && m.connector != "desktop"
    && session.sessionType == Direct
    && cfg.autoPairDm
    && cfg.ConnectorFor(m.connector).pairDm
  }

  predicate Allowlisted(cfg: Config, m: Message) {
    m.sender in cfg.ConnectorFor(m.connector).allowlist
  }

  predicate IsApproved(s: Store, connector: string, channelId: string, sender: string) {
    var p := FindPairing(s.pairings, connector, channelId, sender);
    p.Some? && p.value.status == "approved"
  }

  /** Insert a pending pairing, or turn the existing one of this target back to pending. */
  function EnsurePairing(s: Store, m: Message, sessionId: nat): Store {
    var found := FindPairing(s.pairings, m.connector, m.channelId, m.sender);
    if found.None? then
      s.(pairings := s.pairings + [Pairing(s.nextId, m.connector, m.channelId, m.sender, sessionId, "pending")],
         now := s.now + 1, nextId := s.nextId + 1)
    else
      s.(pairings := RenewPairing(s.pairings, found.value.id, sessionId), now := s.now + 1)
  }

  function RenewPairing(pairings: seq<Pairing>, id: nat, sessionId: nat): (r: seq<Pairing>)
    ensures |r| == |pairings|
    ensures forall i :: 0 <= i < |r| ==>
              r[i] == if pairings[i].id == id then pairings[i].(sessionId := sessionId, status := "pending") else pairings[i]
  {
    seq(|pairings|, i requires 0 <= i < |pairings| =>
      if pairings[i].id == id then pairings[i].(sessionId := sessionId, status := "pending") else pairings[i])
  }

  /** `ensure_pairing_if_required`: the store after the gate, and the pairing asked for, if any. */
  function Gate(cfg: Config, s: Store, session: Session, m: Message): (Store, Option<nat>) {
    if !Gated(cfg, session, m) then (s, None)
    else if Allowlisted(cfg, m) || IsApproved(s, m.connector, m.channelId, m.sender) then
      (MarkPending(s, session.id, false), None)
    else
      var s1 := EnsurePairing(s, m, session.id);
      var p := FindPairing(s1.pairings, m.connector, m.channelId, m.sender);
      (MarkPending(s1, session.id, true), if p.Some? then Some(p.value.id) else None)
  }

  predicate Ignored(cfg: Config, session: Session, m: Message) {
    && session.sessionType == Group
    && (cfg.mentionOnlyInGroups || cfg.ConnectorFor(m.connector).mentionOnly)
    && !m.replyToUs
    && !cfg.mentions(m.body)
  }

  datatype Delivery = PairingRequired(pairingId: nat) | Dropped | Replied | Degraded

  predicate ReachesModel(d: Delivery) { d.Replied? || d.Degraded? }

  /** `handle_message`; `reply` is what the model answers this time, if it answers. */
  function Inbound(cfg: Config, s: Store, m: Message, reply: Option<string>): (Store, Delivery) {
    var (s1, session) := ResolveInbound(cfg, s, m);
    Deliver(cfg, s1, session, m, reply)
  }

  /** `handle_message` once the session is known. */
  function Deliver(cfg: Config, s1: Store, session: Session, m: Message, reply: Option<string>): (Store, Delivery) {
    var s2 := Record(s1, session.id, m.connector, "user", m.sender, m.body);
    var (s3, asked) := Gate(cfg, s2, session, m);
    if asked.Some? then
      (s3.(audit := s3.audit + [PairingAsked(session.id, asked.value)]), PairingRequired(asked.value))
    else if Ignored(cfg, session, m) then (s3, Dropped)
    else if reply.Some? then
      var s4 := Record(s3, session.id, m.connector, "assistant", "openpinch", reply.value);
      (s4.(audit := s4.audit + [Handled(session.id)]), Replied)
    else (s3.(audit := s3.audit + [Unanswered(session.id)]), Degraded)
  }

  // ----- the other calls -----

  datatype Target = ById(id: nat) | ByChannel

  /** `record_outbound_message`; an unknown session id is an error and changes nothing. */
  function Outbound(cfg: Config, s: Store, target: Target, connector: string, channelId: string, sender: string, body: string): Store {
    var author := if sender == "" then "openpinch" else sender;
    match target
    case ById(id) =>
      (match SessionById(s.sessions, id)
       case None => s
       case Some(session) => Record(s, session.id, connector, "assistant", author, body))
    case ByChannel =>
      var (s1, session) := ResolveOutbound(cfg, s, connector, channelId, sender);
      Record(s1, session.id, connector, "assistant", author, body)
  }

  function Threshold(s: Store, olderThanHours: nat): int {
    s.now - (if olderThanHours == 0 then 1 else olderThanHours) * HOUR
  }

  function KeepMessages(messages: seq<SessionMessage>, sessions: seq<Session>, threshold: int): seq<SessionMessage> {
    if messages == [] then []
    else
      var rest, last := KeepMessages(messages[..|messages| - 1], sessions, threshold), messages[|messages| - 1];
      if Expired(sessions, last.sessionId, threshold) then rest else rest + [last]
  }

  predicate Expired(sessions: seq<Session>, id: nat, threshold: int) {
    exists i :: 0 <= i < |sessions| && sessions[i].id == id && sessions[i].updatedAt < threshold
  }

  function KeepSessions(sessions: seq<Session>, threshold: int): seq<Session> {
    if sessions == [] then []
    else
      var rest, last := KeepSessions(sessions[..|sessions| - 1], threshold), sessions[|sessions| - 1];
      if last.updatedAt < threshold then rest else rest + [last]
  }

  /** `prune_sessions`. */
  function Prune(s: Store, olderThanHours: nat, archiveOnly: bool): Store {
    var threshold := Threshold(s, olderThanHours);
    if archiveOnly then
      s.(sessions := MapSessions(ArchiveOld(threshold, s.now), s.sessions), now := s.now + 1)
    else
      s.(messages := KeepMessages(s.messages, s.sessions, threshold),
         sessions := KeepSessions(s.sessions, threshold), now := s.now + 1)
  }

  function StatusFor(action: string): string {
    if action == "approve" || action == "approved" then "approved"
    else if action == "revoke" || action == "revoked" then "revoked"
    else action
  }

  /** `update_pairing`; an unknown pairing id is an error and changes nothing. */
  function UpdatePairing(s: Store, id: nat, action: string): Store {
    match PairingById(s.pairings, id)
    case None => s
    case Some(p) =>
      var status := StatusFor(action);
      s.(pairings := SetPairingStatus(s.pairings, id, status),
         sessions := MapSessions(SetPending(p.sessionId, status == "pending", s.now), s.sessions),
         audit := s.audit + [PairingUpdated(id, status)],
         now := s.now + 1)
  }

  // ----- runs -----

  datatype Action =
    | DoInbound(message: Message, reply: Option<string>)
    | DoOutbound(target: Target, connector: string, channelId: string, sender: string, body: string)
    | DoPrune(olderThanHours: nat, archiveOnly: bool)
    | DoUpdate(pairingId: nat, action: string)
    | DoWait(time: nat)

  function Step(cfg: Config, s: Store, a: Action): Store {
    match a
    case DoInbound(m, reply) => Inbound(cfg, s, m, reply).0
    case DoOutbound(target, connector, channelId, sender, body) => Outbound(cfg, s, target, connector, channelId, sender, body)
    case DoPrune(hours, archiveOnly) => Prune(s, hours, archiveOnly)
    case DoUpdate(id, action) => UpdatePairing(s, id, action)
    case DoWait(time) => s.(now := s.now + time)
  }

  const EMPTY: Store := Store([], [], [], [], 0, 0)

  ghost predicate IsRun(cfg: Config, states: seq<Store>, acts: seq<Action>) {
    && |states| == |acts| + 1
    && states[0] == EMPTY
    && forall k :: 0 <= k < |acts| ==> states[k + 1] == Step(cfg, states[k], acts[k])
  }
}
