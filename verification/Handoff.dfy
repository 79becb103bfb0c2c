/** The handoff protocol: the transition system of its formal description, and the validator that is
    said to enforce it. */
module Handoff {
  import opened Options
  import opened Text

  // ----- the transition system -----

  datatype Phase = AtInit | AtHandoff | AtComplete
  datatype Hop = Hop(sender: string, recipient: string)
  datatype Roles = Roles(initiator: string, coordinator: string, worker: string)
  datatype State = State(phase: Phase, transcript: seq<Hop>)

  predicate Init(s: State) {
    s.phase == AtInit && s.transcript == []
  }

  predicate ClientSend(r: Roles, s: State, s': State) {
    && s.phase == AtInit
    && s'.phase == AtHandoff
    && s'.transcript == s.transcript + [Hop(r.initiator, r.coordinator)]
  }

  predicate CoordinatorForward(r: Roles, s: State, s': State) {
    && s.phase == AtHandoff
    && s'.phase == AtComplete
    && s'.transcript == s.transcript + [Hop(r.coordinator, r.worker)]
  }

  predicate Next(r: Roles, s: State, s': State) {
    ClientSend(r, s, s') || CoordinatorForward(r, s, s')
  }

  /** An infinite behaviour; a step may leave everything as it is. */
  ghost predicate Spec(r: Roles, b: nat -> State) {
    Init(b(0)) && forall k: nat :: Next(r, b(k), b(k + 1)) || b(k + 1) == b(k)
  }

  ghost predicate TypeInvariant(r: Roles, s: State) {
    forall i :: 0 <= i < |s.transcript| ==>
      && s.transcript[i].sender in {r.initiator, r.coordinator, r.worker}
      && s.transcript[i].recipient in {r.initiator, r.coordinator, r.worker}
  }

  predicate NoSelfLoop(s: State) {
    forall i :: 0 <= i < |s.transcript| ==> s.transcript[i].sender != s.transcript[i].recipient
  }

  predicate Termination(s: State) {
    s.phase == AtComplete ==> |s.transcript| == 2
  }

  /** The transcript of each phase. */
  function Expected(r: Roles, phase: Phase): seq<Hop> {
    match phase
    case AtInit => []
    case AtHandoff => [Hop(r.initiator, r.coordinator)]
    case AtComplete => [Hop(r.initiator, r.coordinator), Hop(r.coordinator, r.worker)]
  }

  lemma {:induction false} Reachable(r: Roles, b: nat -> State, k: nat)
    requires Spec(r, b)
    ensures b(k).transcript == Expected(r, b(k).phase)
  {
    if k > 0 {
      Reachable(r, b, k - 1);
      assert Next(r, b(k - 1), b((k - 1) + 1)) || b((k - 1) + 1) == b(k - 1);
    }
  }

  /** The stated theorems that hold for every choice of roles. */
  lemma TypesAndTermination(r: Roles, b: nat -> State, k: nat)
    requires Spec(r, b)
    ensures TypeInvariant(r, b(k)) && Termination(b(k))
  {
    Reachable(r, b, k);
  }

  /** The behaviour that takes each step as soon as it can. */
  function EagerAt(r: Roles, k: nat): State {
    var phase := if k == 0 then AtInit else if k == 1 then AtHandoff else AtComplete;
    State(phase, Expected(r, phase))
  }

  function Eager(r: Roles): nat -> State {
    (k: nat) => EagerAt(r, k)
  }

  lemma EagerIsBehaviour(r: Roles)
    ensures Spec(r, Eager(r))
  {
    var b := Eager(r);
    assert b(0) == EagerAt(r, 0);
    forall k: nat
      ensures Next(r, b(k), b(k + 1)) || b(k + 1) == b(k)
    {
      assert b(k) == EagerAt(r, k) && b(k + 1) == EagerAt(r, k + 1);
      assert Expected(r, AtHandoff) == Expected(r, AtInit) + [Hop(r.initiator, r.coordinator)];
      assert Expected(r, AtComplete) == Expected(r, AtHandoff) + [Hop(r.coordinator, r.worker)];
    }
  }

  ghost predicate NeverLoops(r: Roles) {
    forall b: nat -> State, k: nat :: Spec(r, b) ==> NoSelfLoop(b(k))
  }

  /** The third stated theorem holds exactly when neither hop joins a role to itself. */
  lemma NoSelfLoopExactlyWhen(r: Roles)
    ensures NeverLoops(r) <==> r.initiator != r.coordinator && r.coordinator != r.worker
  {
    if r.initiator != r.coordinator && r.coordinator != r.worker {
      forall b: nat -> State, k: nat | Spec(r, b)
        ensures NoSelfLoop(b(k))
      {
        Reachable(r, b, k);
      }
    }
    if NeverLoops(r) {
      EagerIsBehaviour(r);
      var last := Eager(r)(2);
      assert last == EagerAt(r, 2) && NoSelfLoop(last);
      assert last.transcript[0] == Hop(r.initiator, r.coordinator) && last.transcript[1] == Hop(r.coordinator, r.worker);
    }
  }

  // ----- the validator -----

  datatype Envelope = Envelope(sender: string, recipient: string, body: string, metadata: string, encryptedBody: Option<string>)
  datatype Request = Request(protocolId: string, initiator: string, messages: seq<Envelope>)
  datatype Entry = Entry(sender: string, recipient: string, metadata: string, encryptedBody: string)
  datatype Verdict = Verdict(accepted: bool, protocolId: string, transcript: seq<Entry>, findings: seq<string>)

  const HANDOFF := "handoff.v1"
  const NO_MESSAGES := "protocol run must include at least one message"
  const WRONG_FIRST := "first message sender must equal initiator"
  const TOO_SHORT := "handoff.v1 expects at least two messages"

  function SelfSend(i: nat, sender: string): string {
    "message " + Decimal(i) + " uses identical sender and recipient " + sender
  }

  function NoEncryptedBody(i: nat): string {
    "message " + Decimal(i) + " is missing encrypted_body"
  }

  /** `findings`, with one more when `b`. */
  function Push(findings: seq<string>, b: bool, finding: string): (r: seq<string>)
    ensures |r| == |findings| + if b then 1 else 0
  {
    if b then findings + [finding] else findings
  }

  predicate LacksEncryption(encryptChannels: bool, m: Envelope) {
    encryptChannels && m.encryptedBody.None? && m.body != ""
  }

  /** `findings`, with what is found about message `i`. */
  function Inspect(encryptChannels: bool, req: Request, i: nat, findings: seq<string>): seq<string>
    requires i < |req.messages|
  {
    var m := req.messages[i];
    var f1 := Push(findings, i == 0 && m.sender != req.initiator, WRONG_FIRST);
    var f2 := Push(f1, m.sender == m.recipient, SelfSend(i, m.sender));
    Push(f2, LacksEncryption(encryptChannels, m), NoEncryptedBody(i))
  }

  function FindingsUpTo(encryptChannels: bool, req: Request, n: nat): seq<string>
    requires n <= |req.messages|
  {
    if n == 0 then Push([], req.messages == [], NO_MESSAGES)
    else Inspect(encryptChannels, req, n - 1, FindingsUpTo(encryptChannels, req, n - 1))
  }

  function Findings(encryptChannels: bool, req: Request): seq<string> {
    Push(FindingsUpTo(encryptChannels, req, |req.messages|), req.protocolId == HANDOFF && |req.messages| < 2, TOO_SHORT)
  }

  /** The rules the validator is described by. */
  predicate FollowsRules(encryptChannels: bool, req: Request) {
    && req.messages != []
    && req.messages[0].sender == req.initiator
    && (forall i :: 0 <= i < |req.messages| ==> req.messages[i].sender != req.messages[i].recipient)
    && (encryptChannels ==> forall i :: 0 <= i < |req.messages| && req.messages[i].body != "" ==> req.messages[i].encryptedBody.Some?)
    && (req.protocolId == "handoff.v1" ==> |req.messages| >= 2)
  }

  predicate Clean(encryptChannels: bool, req: Request, i: nat)
    requires i < |req.messages|
  {
    && (i == 0 ==> req.messages[i].sender == req.initiator)
    && req.messages[i].sender != req.messages[i].recipient
    && !LacksEncryption(encryptChannels, req.messages[i])
  }

  lemma CleanExactlyWhen(encryptChannels: bool, req: Request, i: nat, findings: seq<string>)
    requires i < |req.messages|
    ensures |Inspect(encryptChannels, req, i, findings)| >= |findings|
    ensures |Inspect(encryptChannels, req, i, findings)| == |findings| <==> Clean(encryptChannels, req, i)
  {
  }

  lemma {:induction false} NothingFoundExactlyWhen(encryptChannels: bool, req: Request, n: nat)
    requires n <= |req.messages|
    ensures |FindingsUpTo(encryptChannels, req, n)| == 0
            <==> req.messages != [] && forall i :: 0 <= i < n ==> Clean(encryptChannels, req, i)
  {
    if n > 0 {
      NothingFoundExactlyWhen(encryptChannels, req, n - 1);
      CleanExactlyWhen(encryptChannels, req, n - 1, FindingsUpTo(encryptChannels, req, n - 1));
    }
  }

  /** Nothing is found exactly when the request follows the rules. */
  lemma AcceptedExactlyWhen(encryptChannels: bool, req: Request)
    ensures Findings(encryptChannels, req) == [] <==> FollowsRules(encryptChannels, req)
  {
    NothingFoundExactlyWhen(encryptChannels, req, |req.messages|);
    assert Findings(encryptChannels, req) == [] <==> |Findings(encryptChannels, req)| == 0;
    if FollowsRules(encryptChannels, req) {
      assert forall i :: 0 <= i < |req.messages| ==> Clean(encryptChannels, req, i);
    }
    if req.messages != [] && forall i :: 0 <= i < |req.messages| ==> Clean(encryptChannels, req, i) {
      assert Clean(encryptChannels, req, 0);
      forall i | 0 <= i < |req.messages|
        ensures req.messages[i].sender != req.messages[i].recipient && !LacksEncryption(encryptChannels, req.messages[i])
      {
        assert Clean(encryptChannels, req, i);
      }
    }
  }

  /** What is said of message `i`. */
  predicate SaidOf(encryptChannels: bool, req: Request, i: nat, text: string) {
    && i < |req.messages|
    && (|| (i == 0 && req.messages[0].sender != req.initiator && text == "first message sender must equal initiator")
        || (req.messages[i].sender == req.messages[i].recipient
            && text == "message " + Decimal(i) + " uses identical sender and recipient " + req.messages[i].sender)
        || (encryptChannels && req.messages[i].encryptedBody.None? && req.messages[i].body != ""
            && text == "message " + Decimal(i) + " is missing encrypted_body"))
  }

  lemma InspectedIs(encryptChannels: bool, req: Request, i: nat, findings: seq<string>, text: string)
    requires i < |req.messages|
    ensures text in Inspect(encryptChannels, req, i, findings) <==> text in findings || SaidOf(encryptChannels, req, i, text)
  {
    assert LacksEncryption(encryptChannels, req.messages[i])
      <==> encryptChannels && req.messages[i].encryptedBody.None? && req.messages[i].body != "";
  }

  lemma {:induction false} FoundUpTo(encryptChannels: bool, req: Request, n: nat, text: string)
    requires n <= |req.messages|
    ensures text in FindingsUpTo(encryptChannels, req, n)
            <==> (req.messages == [] && text == "protocol run must include at least one message")
                 || exists i: nat :: i < n && SaidOf(encryptChannels, req, i, text)
  {
    if n > 0 {
      FoundUpTo(encryptChannels, req, n - 1, text);
      InspectedIs(encryptChannels, req, n - 1, FindingsUpTo(encryptChannels, req, n - 1), text);
    }
  }

  /** What is found, word for word. */
  lemma FoundExactlyWhen(encryptChannels: bool, req: Request, text: string)
    ensures text in Findings(encryptChannels, req)
            <==> || (req.messages == [] && text == "protocol run must include at least one message")
                 || (req.protocolId == "handoff.v1" && |req.messages| < 2 && text == "handoff.v1 expects at least two messages")
                 || exists i: nat :: SaidOf(encryptChannels, req, i, text)
  {
    FoundUpTo(encryptChannels, req, |req.messages|, text);
  }

  /** The stored form of a message: with its own encrypted body, or one made now; `encrypted` is what encrypting
      its body gives, if it does. */
  predicate StoredAs(m: Envelope, encrypted: Option<string>, e: Entry) {
    && e.sender == m.sender && e.recipient == m.recipient && e.metadata == m.metadata
    && e.encryptedBody == match m.encryptedBody
                          case Some(body) => body
                          case None => if encrypted.Some? then encrypted.value else ""
  }

  method InspectMessage(encryptChannels: bool, req: Request, i: nat, already: seq<string>) returns (findings: seq<string>)
    requires i < |req.messages|
    ensures findings == Inspect(encryptChannels, req, i, already)
  {
    var m := req.messages[i];
    findings := already;
    if i == 0 && m.sender != req.initiator {
      findings := findings + [WRONG_FIRST];
    }
    if m.sender == m.recipient {
      findings := findings + [SelfSend(i, m.sender)];
    }
    if encryptChannels && m.encryptedBody.None? && |m.body| != 0 {
      findings := findings + [NoEncryptedBody(i)];
    }
  }

  method ValidateProtocol(encryptChannels: bool, req: Request, encrypt: nat -> Option<string>) returns (v: Verdict)
    ensures v.accepted <==> FollowsRules(encryptChannels, req)
    ensures v.findings == Findings(encryptChannels, req) && v.protocolId == req.protocolId
    ensures |v.transcript| == |req.messages|
    ensures forall i :: 0 <= i < |req.messages| ==> StoredAs(req.messages[i], encrypt(i), v.transcript[i])
  {
    var findings: seq<string> := [];
    var transcript: seq<Entry> := [];
    if |req.messages| == 0 {
      findings := findings + [NO_MESSAGES];
    }
    var i := 0;
    while i < |req.messages|
      invariant 0 <= i <= |req.messages| && |transcript| == i
      invariant findings == FindingsUpTo(encryptChannels, req, i)
      invariant forall k :: 0 <= k < i ==> StoredAs(req.messages[k], encrypt(k), transcript[k])
    {
      var m := req.messages[i];
      findings := InspectMessage(encryptChannels, req, i, findings);
      var encryptedBody := "";
      if m.encryptedBody.Some? {
        encryptedBody := m.encryptedBody.value;
      } else if encrypt(i).Some? {
        encryptedBody := encrypt(i).value;
      }
      transcript := transcript + [Entry(m.sender, m.recipient, m.metadata, encryptedBody)];
      i := i + 1;
    }
    if req.protocolId == HANDOFF && |req.messages| < 2 {
      findings := findings + [TOO_SHORT];
    }
    AcceptedExactlyWhen(encryptChannels, req);
    v := Verdict(findings == [], req.protocolId, transcript, findings);
  }

  // ----- the machine against the validator -----

  /** A request that reports the transcript of a state. */
  ghost predicate Reports(r: Roles, s: State, req: Request) {
    && req.protocolId == HANDOFF && req.initiator == r.initiator && |req.messages| == |s.transcript|
    && forall i :: 0 <= i < |s.transcript| ==>
         req.messages[i].sender == s.transcript[i].sender && req.messages[i].recipient == s.transcript[i].recipient
  }

  ghost predicate AllEncrypted(req: Request) {
    forall i :: 0 <= i < |req.messages| ==> req.messages[i].encryptedBody.Some?
  }

  /** A behaviour's report, with encrypted bodies attached, is accepted exactly when it is complete
      and its roles never meet themselves; a report of an incomplete run is rejected whatever it carries. */
  lemma ReportAcceptedExactlyWhen(r: Roles, b: nat -> State, k: nat, encryptChannels: bool, req: Request)
    requires Spec(r, b) && Reports(r, b(k), req)
    ensures AllEncrypted(req) ==>
              (Findings(encryptChannels, req) == []
               <==> b(k).phase == AtComplete && r.initiator != r.coordinator && r.coordinator != r.worker)
    ensures b(k).phase != AtComplete ==> Findings(encryptChannels, req) != []
  {
    Reachable(r, b, k);
    AcceptedExactlyWhen(encryptChannels, req);
    if b(k).phase == AtComplete {
      assert req.messages[0].sender == r.initiator && req.messages[0].recipient == r.coordinator;
      assert req.messages[1].sender == r.coordinator && req.messages[1].recipient == r.worker;
    }
  }

  /** Some behaviour of the machine, with this initiator, completes with exactly these hops. */
  ghost predicate IsHandoff(req: Request) {
    exists r: Roles, b: nat -> State, k: nat :: Spec(r, b) && b(k).phase == AtComplete && Reports(r, b(k), req)
  }

  /** The validator accepts more than the machine does: an accepted handoff is a run of the machine
      exactly when it has two messages and the second is sent by the recipient of the first. */
  lemma AcceptedIsHandoffExactlyWhen(encryptChannels: bool, req: Request)
    requires req.protocolId == HANDOFF && Findings(encryptChannels, req) == []
    ensures |req.messages| >= 2
    ensures IsHandoff(req) <==> |req.messages| == 2 && req.messages[1].sender == req.messages[0].recipient
  {
    AcceptedExactlyWhen(encryptChannels, req);
    if IsHandoff(req) {
      var r: Roles, b: nat -> State, k: nat :| Spec(r, b) && b(k).phase == AtComplete && Reports(r, b(k), req);
      Reachable(r, b, k);
      assert req.messages[0].recipient == r.coordinator && req.messages[1].sender == r.coordinator;
    }
    if |req.messages| == 2 && req.messages[1].sender == req.messages[0].recipient {
      var r := Roles(req.initiator, req.messages[0].recipient, req.messages[1].recipient);
      EagerIsBehaviour(r);
      assert Eager(r)(2) == EagerAt(r, 2);
      assert Eager(r)(2).phase == AtComplete && Reports(r, Eager(r)(2), req);
    }
  }

  /** Two hops that do not meet, accepted as a handoff. */
  const UNRELATED: Request := Request(HANDOFF, "a", [Envelope("a", "b", "", "", None), Envelope("c", "d", "", "", None)])

  lemma UnrelatedHopsAccepted(encryptChannels: bool)
    ensures Findings(encryptChannels, UNRELATED) == [] && !IsHandoff(UNRELATED)
  {
    assert "a" != "b" && "c" != "d" && "c" != "b" by { assert "a"[0] == 'a' && "b"[0] == 'b' && "c"[0] == 'c' && "d"[0] == 'd'; }
    AcceptedExactlyWhen(encryptChannels, UNRELATED);
    AcceptedIsHandoffExactlyWhen(encryptChannels, UNRELATED);
  }
}
