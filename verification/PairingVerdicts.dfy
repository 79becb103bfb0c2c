/** The pairing gate, said of the messages and updates of a run alone. */
module PairingVerdicts {
  import opened Options
  import opened Sessions
  import opened PairingLaws

  /** The pairing of this target is the one with this id. */
  predicate Names(s: Store, id: nat, connector: string, channelId: string, sender: string) {
    FindPairing(s.pairings, connector, channelId, sender).Some?
    && FindPairing(s.pairings, connector, channelId, sender).value.id == id
  }

  /** The last verdict on a target among the first `k` calls: the action of the last `update_pairing` that
      named its pairing. */
  function LastVerdict(states: seq<Store>, acts: seq<Action>, k: nat, connector: string, channelId: string, sender: string): Option<string>
    requires k <= |acts| < |states|
  {
    if k == 0 then None
    else if acts[k - 1].DoUpdate? && Names(states[k - 1], acts[k - 1].pairingId, connector, channelId, sender) then
      Some(acts[k - 1].action)
    else LastVerdict(states, acts, k - 1, connector, channelId, sender)
  }

  predicate Approving(verdict: Option<string>) {
    verdict == Some("approve") || verdict == Some("approved")
  }

  lemma {:induction false} UpdatedPairing(pairings: seq<Pairing>, id: nat, status: string, connector: string, channelId: string, sender: string)
    ensures FindPairing(SetPairingStatus(pairings, id, status), connector, channelId, sender)
            == match FindPairing(pairings, connector, channelId, sender)
               case None => None
               case Some(p) => Some(if p.id == id then p.(status := status) else p)
  {
    if pairings != [] {
      UpdatedPairing(pairings[1..], id, status, connector, channelId, sender);
      assert SetPairingStatus(pairings, id, status)[1..] == SetPairingStatus(pairings[1..], id, status);
    }
  }

  lemma {:induction false} NamedIsKnown(pairings: seq<Pairing>, connector: string, channelId: string, sender: string)
    ensures FindPairing(pairings, connector, channelId, sender).Some? ==>
              PairingById(pairings, FindPairing(pairings, connector, channelId, sender).value.id).Some?
  {
    if pairings != [] {
      NamedIsKnown(pairings[1..], connector, channelId, sender);
    }
  }

  /** An update decides the pairing it names, and no other. */
  lemma UpdateDecides(s: Store, id: nat, action: string, connector: string, channelId: string, sender: string)
    ensures IsApproved(UpdatePairing(s, id, action), connector, channelId, sender)
            <==> if Names(s, id, connector, channelId, sender) then Approving(Some(action)) else IsApproved(s, connector, channelId, sender)
  {
    NamedIsKnown(s.pairings, connector, channelId, sender);
    UpdatedPairing(s.pairings, id, StatusFor(action), connector, channelId, sender);
  }

  /** Nothing but an update makes an approved pairing of one that is not, or the other way round. */
  lemma OthersDecideNothing(cfg: Config, s: Store, a: Action, connector: string, channelId: string, sender: string)
    requires PairingsOk(s) && !a.DoUpdate?
    ensures IsApproved(Step(cfg, s, a), connector, channelId, sender) <==> IsApproved(s, connector, channelId, sender)
  {
    if a.DoInbound? {
      var (s1, session) := ResolveInbound(cfg, s, a.message);
      DeliverDecidesNothing(cfg, s1, session, a.message, a.reply, connector, channelId, sender);
    }
  }

  lemma DeliverDecidesNothing(cfg: Config, s1: Store, session: Session, m: Message, reply: Option<string>,
                              connector: string, channelId: string, sender: string)
    requires PairingsOk(s1)
    ensures IsApproved(Deliver(cfg, s1, session, m, reply).0, connector, channelId, sender) <==> IsApproved(s1, connector, channelId, sender)
  {
    var s2 := Record(s1, session.id, m.connector, "user", m.sender, m.body);
    EnsurePairingIs(s2, m, session.id, connector, channelId, sender);
  }

  lemma StepDecides(cfg: Config, s: Store, a: Action, connector: string, channelId: string, sender: string)
    requires PairingsOk(s)
    ensures IsApproved(Step(cfg, s, a), connector, channelId, sender)
            <==> if a.DoUpdate? && Names(s, a.pairingId, connector, channelId, sender) then Approving(Some(a.action))
                 else IsApproved(s, connector, channelId, sender)
  {
    if a.DoUpdate? {
      UpdateDecides(s, a.pairingId, a.action, connector, channelId, sender);
    } else {
      OthersDecideNothing(cfg, s, a, connector, channelId, sender);
    }
  }

  lemma ApprovedByVerdict(cfg: Config, states: seq<Store>, acts: seq<Action>, k: nat, connector: string, channelId: string, sender: string)
    requires IsRun(cfg, states, acts) && k <= |acts|
    ensures IsApproved(states[k], connector, channelId, sender)
            <==> Approving(LastVerdict(states, acts, k, connector, channelId, sender))
  {
    for i := 0 to k
      invariant IsApproved(states[i], connector, channelId, sender)
                <==> Approving(LastVerdict(states, acts, i, connector, channelId, sender))
    {
      RunTruthful(cfg, states, acts, i);
      StepDecides(cfg, states[i], acts[i], connector, channelId, sender);
    }
  }

  /** A session asks for approved pairings. */
  predicate AsksForPairing(cfg: Config, session: Session, m: Message) {
    && m.connector != "desktop" && session.sessionType == Direct && cfg.autoPairDm
    && m.connector in cfg.connectors && cfg.connectors[m.connector].pairDm
  }

  predicate OnAllowlist(cfg: Config, m: Message) {
    m.connector in cfg.connectors && m.sender in cfg.connectors[m.connector].allowlist
  }

  /** A group message that neither mentions nor answers us, where that is asked for. */
  predicate PassedOver(cfg: Config, session: Session, m: Message) {
    && session.sessionType == Group && !m.replyToUs && !cfg.mentions(m.body)
    && (cfg.mentionOnlyInGroups || (m.connector in cfg.connectors && cfg.connectors[m.connector].mentionOnly))
  }

  /** In every run, what becomes of a message. It waits for a pairing exactly when its session asks for one, its
      sender is not on the allowlist, and the last update that named its target's pairing, if any, did not
      approve it; otherwise it is dropped exactly when it is passed over; and otherwise it reaches the model. */
  lemma DeliveredExactlyWhen(cfg: Config, states: seq<Store>, acts: seq<Action>, k: nat, m: Message, reply: Option<string>)
    requires IsRun(cfg, states, acts) && k <= |acts|
    ensures var session, d := ResolveInbound(cfg, states[k], m).1, Inbound(cfg, states[k], m, reply).1;
            var waits := AsksForPairing(cfg, session, m) && !OnAllowlist(cfg, m)
                         && !Approving(LastVerdict(states, acts, k, m.connector, m.channelId, m.sender));
            && (d.PairingRequired? <==> waits)
            && (d.Dropped? <==> !waits && PassedOver(cfg, session, m))
            && (d.Replied? <==> !waits && !PassedOver(cfg, session, m) && reply.Some?)
            && (d.Degraded? <==> !waits && !PassedOver(cfg, session, m) && reply.None?)
  {
    ApprovedByVerdict(cfg, states, acts, k, m.connector, m.channelId, m.sender);
    var (s1, session) := ResolveInbound(cfg, states[k], m);
    GateDecides(cfg, s1, session, m, reply);
  }
}
