/**
 The worker's side: the sender that repeats a request until it is answered, the turns of a
 slot, and what the coordinators make of them.

 The coordinators' run is arbitrary. A message may be delivered by any number of its steps, at
 any later time, or by none; an answer that reaches the worker is the reply of one of them.
 */
module WorkerLoop {
  import opened Tables
  import opened Operations
  import opened Runs
  import opened Exchange

  // The retrying sender

  /** What comes of sending a request once: no response, an error response that no step of the
      service gave (body limit, validation, database down), or the reply of a step. */
  datatype NetOutcome = TransportError | Unserved(status: int) | Served(reply: Reply, step: nat)

  /** The HTTP status of a reply to a worker request. */
  function StatusOf(r: Reply): int {
    match r
    case Rejected(Conflict) => 409
    case Rejected(Missing) => 404
    case Rejected(Saturated) => 429
    case Rejected(Invalid) => 422
    case Rejected(Unauthorized) => 401
    case _ => 200
  }

  function Code(o: NetOutcome): int
    requires !o.TransportError?
  {
    if o.Served? then StatusOf(o.reply) else o.status
  }

  predicate Success(status: int) { 200 <= status < 300 }

  /** On a job route: the attempt is no longer the worker's. */
  predicate Fenced(status: int) { status == 404 || status == 409 }

  /** The coordinator would not take the body. */
  predicate Unacceptable(status: int) { status == 413 || status == 422 }

  /** Not an answer: the same request is sent again. */
  predicate Transient(o: NetOutcome) {
    o.TransportError? || Code(o) >= 500 || Code(o) == 408 || Code(o) == 429
  }

  datatype Posted = Answered(reply: Reply, step: nat) | Raised(status: int, step: nat) | StillTrying

  /** Seconds slept after the `k`-th failed try. */
  function Backoff(k: nat): real { Min(Doubled(0.2, k), 3.0) }

  /** The index of the first definitive outcome, or the number of outcomes. */
  function FirstAnswer(outcomes: seq<NetOutcome>): (n: nat)
    ensures n <= |outcomes|
    ensures forall i :: 0 <= i < n && !outcomes[i].TransportError? ==>
              Code(outcomes[i]) in {408, 429} || Code(outcomes[i]) >= 500
    ensures n < |outcomes| ==>
              && !outcomes[n].TransportError?
              && Code(outcomes[n]) !in {408, 429} && Code(outcomes[n]) < 500
  {
    if outcomes == [] || !Transient(outcomes[0]) then 0 else 1 + FirstAnswer(outcomes[1..])
  }

  function Verdict(outcomes: seq<NetOutcome>): Posted {
    var n := FirstAnswer(outcomes);
    if n == |outcomes| then StillTrying else Outcome(outcomes[n])
  }

  function Outcome(o: NetOutcome): Posted
    requires !o.TransportError?
  {
    if o.Unserved? then Raised(o.status, 0)
    else if Success(Code(o)) then Answered(o.reply, o.step)
    else Raised(Code(o), o.step)
  }

  /** What each reply of the service does to a post: only a saturated queue is asked again. */
  lemma ReplyDecides(reply: Reply, step: nat, rest: seq<NetOutcome>)
    ensures Verdict([Served(reply, step)] + rest)
         == match reply
            case Rejected(Saturated) => Verdict(rest)
            case Rejected(Conflict) => Raised(409, step)
            case Rejected(Missing) => Raised(404, step)
            case Rejected(Invalid) => Raised(422, step)
            case Rejected(Unauthorized) => Raised(401, step)
            case _ => Answered(reply, step)
  {
    assert ([Served(reply, step)] + rest)[1..] == rest;
  }

  lemma BackoffDoubles(k: nat)
    ensures Backoff(0) == 0.2 && Backoff(k + 1) == Min(Backoff(k) * 2.0, 3.0)
  {
  }

  /** Sends one request until a definitive answer: nothing but that answer decides the result,
      the same request goes out once per outcome up to it, and the waits double up to three
      seconds. */
  method Post(m: Message, outcomes: seq<NetOutcome>) returns (r: Posted, wire: seq<Message>, slept: seq<real>)
    ensures r == Verdict(outcomes)
    ensures |wire| == if r.StillTrying? then |outcomes| else FirstAnswer(outcomes) + 1
    ensures forall i :: 0 <= i < |wire| ==> wire[i] == m
    ensures |slept| == FirstAnswer(outcomes) && forall k :: 0 <= k < |slept| ==> slept[k] == Backoff(k)
  {
    var delay := 0.2;
    wire, slept := [], [];
    assert Backoff(0) == 0.2;
    while |wire| < |outcomes|
      invariant |wire| <= |outcomes| && |slept| == |wire| && delay == Backoff(|wire|)
      invariant forall i :: 0 <= i < |wire| ==> wire[i] == m && Transient(outcomes[i])
      invariant forall k :: 0 <= k < |slept| ==> slept[k] == Backoff(k)
      decreases |outcomes| - |wire|
    {
      var o := outcomes[|wire|];
      wire := wire + [m];
      if !o.TransportError? && Code(o) < 500 && Code(o) != 408 && Code(o) != 429 {
        assert FirstAnswer(outcomes) == |wire| - 1;
        r := Outcome(o);
        return;
      }
      slept := slept + [delay];
      BackoffDoubles(|wire| - 1);
      delay := Min(delay * 2.0, 3.0);
    }
    r := StillTrying;
  }

  // The network between a worker and a run

  /** What comes of each try of the `k`-th post, if it posts `m`. */
  type Network = (nat, Message) -> seq<NetOutcome>

  /** An outcome that this run can have given to a try of `m`. */
  ghost predicate Explains(w: World, me: Identity, m: Message, o: NetOutcome) {
    match o
    case TransportError => true
    case Unserved(status) => !Success(status) && !Fenced(status)
    case Served(reply, step) => Replied(w, me, m, reply, step)
  }

  /** Every answer is the reply of a step that delivered the message; and since a post starts only
      after the one before it was answered, its answer comes from a later step. */
  ghost predicate Honest(w: World, me: Identity, net: Network) {
    && (forall k: nat, m, x :: 0 <= x < |net(k, m)| ==> Explains(w, me, m, net(k, m)[x]))
    && (forall k: nat, m, x, k': nat, m', y ::
          k < k' && 0 <= x < |net(k, m)| && 0 <= y < |net(k', m')| && net(k, m)[x].Served? && net(k', m')[y].Served?
          ==> net(k, m)[x].step < net(k', m')[y].step)
  }

  lemma AnswerExplained(w: World, me: Identity, net: Network, k: nat, m: Message)
    requires Honest(w, me, net)
    ensures var r := Verdict(net(k, m));
            && (r.Answered? ==> Replied(w, me, m, r.reply, r.step) && !r.reply.Rejected?)
            && (r.Raised? && Fenced(r.status) ==>
                  exists e :: Replied(w, me, m, Rejected(e), r.step) && e != Unauthorized)
  {
    var outcomes := net(k, m);
    var n := FirstAnswer(outcomes);
    if n < |outcomes| {
      assert Explains(w, me, m, outcomes[n]);
      if Outcome(outcomes[n]).Raised? && Fenced(Outcome(outcomes[n]).status) {
        assert outcomes[n].reply.Rejected? && outcomes[n].reply.error != Unauthorized;
      }
    }
  }

  /** The answer to a later post comes from a later step. */
  lemma AnsweredLater(w: World, me: Identity, net: Network, k: nat, m: Message, k': nat, m': Message)
    requires Honest(w, me, net) && k < k'
    requires var r := Verdict(net(k, m)); r.Answered? || (r.Raised? && Fenced(r.status))
    requires var r := Verdict(net(k', m')); r.Answered? || (r.Raised? && Fenced(r.status))
    ensures Verdict(net(k, m)).step < Verdict(net(k', m')).step
  {
    var x, y := FirstAnswer(net(k, m)), FirstAnswer(net(k', m'));
    assert Explains(w, me, m, net(k, m)[x]) && Explains(w, me, m', net(k', m')[y]);
    assert net(k, m)[x].step < net(k', m')[y].step;
  }

  // One turn of a slot

  /** One turn: its fresh claim ID, how many renewals execution leaves time for, its result. */
  datatype Plan = Plan(claimId: ClaimId, renewals: nat, result: Payload)

  /** What the slot does next: take another turn, stop the worker with an error, or go on
      repeating its last request. */
  datatype Next = NextTurn | Crashed(status: int) | Repeating

  /** What a turn sent, the assignment it got, the completion that was acknowledged, and the
      completion that was refused. */
  datatype TurnLog = TurnLog(
    sent: seq<Message>, held: Option<Assignment>, reported: Option<Report>, refused: Option<Report>, next: Next)

  /** The bounded, permanent failure reported in place of a result that could not be stored. */
  function BoundedFailure(status: int): Payload {
    var error := if status == 413 then "Coordinator rejected the result (HTTP 413)"
                 else "Coordinator rejected the result (HTTP 422)";
    Payload(None, Some(error), false)
  }

  // The protocol of a turn, as an automaton over its numbered posts

  /** The answer to the last of the messages `sent` as the posts from number `k` on. */
  function Answer(net: Network, k: nat, sent: seq<Message>): Posted
    requires sent != []
  {
    Verdict(net(k + |sent| - 1, sent[|sent| - 1]))
  }

  /** What a slot posts next after `sent`, given the answer `p` to the last message: its start, the
      renewals that execution leaves time for, each after the answer to the one before it, the
      result, and the bounded failure if the result was answered 413 or 422. */
  function NextMessage(sent: seq<Message>, p: Posted, h: Assignment, plan: Plan): Option<Message>
    requires sent != []
  {
    var n := |sent|;
    var renewal, result := Renewing(h.job, h.token), Finishing(h.job, h.token, plan.result);
    match sent[n - 1]
    case Claiming(_, _) => None
    case Starting(_, _) =>
      if !p.Answered? then None else if plan.renewals > 0 then Some(renewal) else Some(result)
    case Renewing(_, _) =>
      if p.Raised? then None
      else if p.Answered? && n <= plan.renewals then Some(renewal) else Some(result)
    case Finishing(_, _, _) =>
      if p.Raised? && p.status in {413, 422} && (n == 1 || !sent[n - 2].Finishing?)
      then Some(Finishing(h.job, h.token, BoundedFailure(p.status))) else None
  }

  /** Each message is the one that the answers so far call for. */
  predicate Script(net: Network, k: nat, sent: seq<Message>, h: Assignment, plan: Plan) {
    && sent != []
    && if |sent| == 1 then sent[0] == Starting(h.job, h.token)
       else
         var before := sent[..|sent| - 1];
         && Script(net, k, before, h, plan)
         && NextMessage(before, Answer(net, k, before), h, plan) == Some(sent[|sent| - 1])
  }

  /** The work on the assignment `h` went on until no message was called for, and its last message
      and answer say how it ended. */
  predicate Obeys(net: Network, k: nat, h: Assignment, plan: Plan, log: TurnLog) {
    && log.held == Some(h) && Script(net, k, log.sent, h, plan)
    && var m, p := log.sent[|log.sent| - 1], Answer(net, k, log.sent);
       && NextMessage(log.sent, p, h, plan) == None
       && (log.reported == if m.Finishing? && p.Answered? then Some(Report(m.payload, p.step)) else None)
       && (log.refused
           == if m.Finishing? && p.Raised? && p.status in {404, 409} then Some(Report(m.payload, p.step)) else None)
       && log.next == match p {
            case Answered(_, _) => NextTurn
            case Raised(status, _) => if status in {404, 409} then NextTurn else Crashed(status)
            case StillTrying => Repeating
          }
  }

  /** A whole turn: a claim under its own ID, and work exactly if that assigned some. */
  predicate TurnObeys(net: Network, k: nat, slot: int, plan: Plan, log: TurnLog) {
    && log.sent != [] && log.sent[0] == Claiming(slot, plan.claimId)
    && var p := Verdict(net(k, log.sent[0]));
       if p.Answered? && p.reply.Assigned? then
         Obeys(net, k + 1, Assignment(p.reply.job, p.reply.token, p.step), plan, log.(sent := log.sent[1..]))
       else
         && |log.sent| == 1 && log.held.None? && log.reported.None? && log.refused.None?
         && log.next == match p {
              case Answered(_, _) => NextTurn
              case Raised(status, _) => if status == 409 then NextTurn else Crashed(status)
              case StillTrying => Repeating
            }
  }

  lemma ScriptGrows(net: Network, k: nat, sent: seq<Message>, m: Message, h: Assignment, plan: Plan)
    requires Script(net, k, sent, h, plan) && NextMessage(sent, Answer(net, k, sent), h, plan) == Some(m)
    ensures Script(net, k, sent + [m], h, plan)
    ensures Answer(net, k, sent + [m]) == Verdict(net(k + |sent|, m))
  {
    assert (sent + [m])[..|sent|] == sent;
  }

  /** After the result comes nothing, or the bounded failure, after which comes nothing. */
  lemma AfterCompletion(sent: seq<Message>, m: Message, p: Posted, h: Assignment, plan: Plan)
    requires sent != [] && m.Finishing?
    ensures NextMessage(sent + [m], p, h, plan)
         == if p.Raised? && p.status in {413, 422} && !sent[|sent| - 1].Finishing?
            then Some(Finishing(h.job, h.token, BoundedFailure(p.status))) else None
  {
  }

  /** The end of a script whose last completion calls for nothing more. */
  lemma SettledObeys(net: Network, k: nat, h: Assignment, plan: Plan, sent: seq<Message>, p: Posted)
    requires Script(net, k, sent, h, plan) && sent[|sent| - 1].Finishing? && p == Answer(net, k, sent)
    requires NextMessage(sent, p, h, plan) == None
    ensures Obeys(net, k, h, plan, Settled(sent, h, p))
  {
  }

  /** Work goes beyond its start only once that was acknowledged, and every message is about the
      assignment. */
  lemma {:induction false} ScriptBegins(net: Network, k: nat, sent: seq<Message>, h: Assignment, plan: Plan)
    requires Script(net, k, sent, h, plan)
    ensures |sent| > 1 ==> Verdict(net(k, Starting(h.job, h.token))).Answered?
    ensures var m := sent[|sent| - 1]; !m.Claiming? && m.job == h.job && m.token == h.token
  {
    if |sent| > 1 {
      ScriptBegins(net, k, sent[..|sent| - 1], h, plan);
    }
  }

  // The turn as it runs

  /** What becomes of the turn after the answer `p` to its last message. */
  function AfterJobPost(p: Posted): Next {
    match p
    case Answered(_, _) => NextTurn
    case Raised(status, _) => if Fenced(status) then NextTurn else Crashed(status)
    case StillTrying => Repeating
  }

  /** Posts the result, or after a 413 or 422 a bounded failure. `before` was sent from post `k`. */
  method Finish(net: Network, k: nat, h: Assignment, plan: Plan, before: seq<Message>) returns (log: TurnLog)
    requires Script(net, k, before, h, plan) && !before[|before| - 1].Finishing?
    requires NextMessage(before, Answer(net, k, before), h, plan) == Some(Finishing(h.job, h.token, plan.result))
    ensures Obeys(net, k, h, plan, log)
  {
    var m := Finishing(h.job, h.token, plan.result);
    var p, _, _ := Post(m, net(k + |before|, m));
    var sent := before + [m];
    ScriptGrows(net, k, before, m, h, plan);
    AfterCompletion(before, m, p, h, plan);
    if !(p.Raised? && Unacceptable(p.status)) {
      SettledObeys(net, k, h, plan, sent, p);
      return Settled(sent, h, p);
    }
    var bounded := Finishing(h.job, h.token, BoundedFailure(p.status));
    var q, _, _ := Post(bounded, net(k + |sent|, bounded));
    ScriptGrows(net, k, sent, bounded, h, plan);
    AfterCompletion(sent, bounded, q, h, plan);
    SettledObeys(net, k, h, plan, sent + [bounded], q);
    return Settled(sent + [bounded], h, q);
  }

  /** How a turn ends whose last completion was answered `p`. */
  function Settled(sent: seq<Message>, h: Assignment, p: Posted): TurnLog
    requires sent != [] && sent[|sent| - 1].Finishing?
  {
    var report := if p.StillTrying? then None else Some(Report(sent[|sent| - 1].payload, p.step));
    TurnLog(sent, Some(h), if p.Answered? then report else None,
            if p.Raised? && Fenced(p.status) then report else None, AfterJobPost(p))
  }

  /** Start, execute under renewals until it is over or one of them is refused, finish. A renewal
      that is still trying when execution is over is given up. */
  method Work(net: Network, k: nat, h: Assignment, plan: Plan) returns (log: TurnLog)
    ensures Obeys(net, k, h, plan, log)
  {
    var m := Starting(h.job, h.token);
    var p, _, _ := Post(m, net(k, m));
    var sent := [m];
    if !p.Answered? {
      return TurnLog(sent, Some(h), None, None, AfterJobPost(p));
    }
    m := Renewing(h.job, h.token);
    while p.Answered? && |sent| <= plan.renewals
      invariant Script(net, k, sent, h, plan) && !sent[|sent| - 1].Finishing?
      invariant p == Answer(net, k, sent) && (p.Answered? || sent[|sent| - 1].Renewing?)
      invariant |sent| <= plan.renewals + 1
      decreases plan.renewals + 1 - |sent|
    {
      ScriptGrows(net, k, sent, m, h, plan);
      var q, _, _ := Post(m, net(k + |sent|, m));
      p, sent := q, sent + [m];
    }
    if p.Raised? {
      return TurnLog(sent, Some(h), None, None, AfterJobPost(p));
    }
    log := Finish(net, k, h, plan, sent);
  }

  /** One turn, whose posts are numbered from `k`. */
  method Turn(net: Network, k: nat, slot: int, plan: Plan) returns (log: TurnLog)
    ensures TurnObeys(net, k, slot, plan, log)
  {
    var m := Claiming(slot, plan.claimId);
    var p, _, _ := Post(m, net(k, m));
    match p {
      case StillTrying => return TurnLog([m], None, None, None, Repeating);
      case Raised(status, _) =>
        return TurnLog([m], None, None, None, if status == 409 then NextTurn else Crashed(status));
      case Answered(reply, step) =>
        if !reply.Assigned? {
          return TurnLog([m], None, None, None, NextTurn);
        }
        log := Work(net, k + 1, Assignment(reply.job, reply.token, step), plan);
        assert ([m] + log.sent)[1..] == log.sent;
        log := log.(sent := [m] + log.sent);
    }
  }

  /** The turns of one slot until the worker is told to stop (after the last plan), crashes, or
      waits for an answer. */
  method Consume(nets: seq<Network>, slot: int, plans: seq<Plan>) returns (logs: seq<TurnLog>)
    requires |nets| == |plans|
    ensures TurnsObey(nets, slot, plans, logs)
    ensures forall i :: 0 <= i < |logs| - 1 ==> logs[i].next.NextTurn?
    ensures |logs| == |plans| || (|logs| > 0 && !logs[|logs| - 1].next.NextTurn?)
  {
    logs := [];
    while |logs| < |plans|
      invariant TurnsObey(nets, slot, plans, logs)
      invariant forall i :: 0 <= i < |logs| ==> logs[i].next.NextTurn?
      decreases |plans| - |logs|
    {
      var log := Turn(nets[|logs|], 0, slot, plans[|logs|]);
      logs := logs + [log];
      if !log.next.NextTurn? {
        return;
      }
    }
  }

  predicate TurnsObey(nets: seq<Network>, slot: int, plans: seq<Plan>, logs: seq<TurnLog>)
    requires |nets| == |plans|
  {
    |logs| <= |plans| && forall i :: 0 <= i < |logs| ==> TurnObeys(nets[i], 0, slot, plans[i], logs[i])
  }

  // What following the protocol means

  /** Start, renewals, result, as far as `sent` goes. */
  predicate Regular(sent: seq<Message>, h: Assignment, plan: Plan) {
    && 1 <= |sent| <= plan.renewals + 2 && sent[0] == Starting(h.job, h.token)
    && (forall i :: 1 <= i < |sent| && i <= plan.renewals ==> sent[i] == Renewing(h.job, h.token))
    && (|sent| == plan.renewals + 2 ==> sent[|sent| - 1] == Finishing(h.job, h.token, plan.result))
  }

  lemma {:induction false} AnsweredIsRegular(net: Network, k: nat, sent: seq<Message>, h: Assignment, plan: Plan)
    requires Script(net, k, sent, h, plan)
    requires forall i :: 0 <= i < |sent| - 1 ==> Verdict(net(k + i, sent[i])).Answered?
    ensures Regular(sent, h, plan)
  {
    if |sent| > 1 {
      var before := sent[..|sent| - 1];
      AnsweredIsRegular(net, k, before, h, plan);
      assert Answer(net, k, before) == Verdict(net(k + |before| - 1, sent[|before| - 1]));
    }
  }

  /** With every message answered, the work is the start, every renewal that execution leaves time
      for, and the result, which is reported. */
  lemma Undisturbed(net: Network, k: nat, h: Assignment, plan: Plan, log: TurnLog)
    requires Obeys(net, k, h, plan, log)
    requires forall i :: 0 <= i < |log.sent| ==> Verdict(net(k + i, log.sent[i])).Answered?
    ensures |log.sent| == plan.renewals + 2 && Regular(log.sent, h, plan)
    ensures log.reported.Some? && log.reported.value.payload == plan.result && log.next == NextTurn
  {
    AnsweredIsRegular(net, k, log.sent, h, plan);
  }

  /** A second completion is sent exactly when the first, which is the result, was answered 413 or
      422; it is a permanent failure that names the status. */
  lemma {:induction false} SecondCompletion(net: Network, k: nat, sent: seq<Message>, h: Assignment, plan: Plan)
    requires Script(net, k, sent, h, plan) && sent[|sent| - 1].Finishing?
    ensures |sent| > 1
    ensures !sent[|sent| - 2].Finishing? ==> sent[|sent| - 1].payload == plan.result
    ensures sent[|sent| - 2].Finishing? ==>
              && sent[|sent| - 2].payload == plan.result
              && var p := Answer(net, k, sent[..|sent| - 1]);
                 && p.Raised?
                 && ((p.status == 413 && sent[|sent| - 1].payload
                        == Payload(None, Some("Coordinator rejected the result (HTTP 413)"), false))
                     || (p.status == 422 && sent[|sent| - 1].payload
                        == Payload(None, Some("Coordinator rejected the result (HTTP 422)"), false)))
  {
    if |sent| > 1 && sent[|sent| - 2].Finishing? {
      SecondCompletion(net, k, sent[..|sent| - 1], h, plan);
    }
  }

  /** No turn leaves its result at a 413 or 422. */
  lemma ResultNotDropped(net: Network, k: nat, h: Assignment, plan: Plan, log: TurnLog)
    requires Obeys(net, k, h, plan, log) && log.sent[|log.sent| - 1].Finishing?
    requires Answer(net, k, log.sent).Raised? && Answer(net, k, log.sent).status in {413, 422}
    ensures |log.sent| > 1 && log.sent[|log.sent| - 2].Finishing?
  {
    SecondCompletion(net, k, log.sent, h, plan);
  }

  // What a turn comes to, against any run

  /** A step of the run refused a start or a renewal of this assignment. */
  ghost predicate FencedOff(w: World, me: Identity, h: Assignment) {
    exists m, e, i ::
      && Replied(w, me, m, Rejected(e), i) && e != Unauthorized
      && (m == Starting(h.job, h.token) || m == Renewing(h.job, h.token))
  }

  /** A completion the turn reported is on record for good; one it was refused will never be
      taken; and it moves on only with one or the other, or when the run has fenced it off before
      it sent any. */
  ghost predicate Kept(w: World, me: Identity, h: Assignment, log: TurnLog) {
    && (log.reported.Some? ==> OnRecord(w, h, log.reported.value))
    && (log.refused.Some? ==> NeverTaken(w, me, h, log.refused.value))
    && (log.next.NextTurn? && log.reported.None? && log.refused.None? ==> FencedOff(w, me, h))
  }

  /** The answer to a completion that was posted after its start was acknowledged. */
  lemma Settles(w: World, me: Identity, net: Network, k0: nat, k: nat, h: Assignment, p: Payload)
    requires Sound(w) && Honest(w, me, net) && k0 < k && Verdict(net(k0, Starting(h.job, h.token))).Answered?
    ensures var r := Verdict(net(k, Finishing(h.job, h.token, p)));
            && (r.Answered? ==> OnRecord(w, h, Report(p, r.step)))
            && (r.Raised? && Fenced(r.status) ==> NeverTaken(w, me, h, Report(p, r.step)))
  {
    var start, m := Starting(h.job, h.token), Finishing(h.job, h.token, p);
    var r := Verdict(net(k, m));
    AnswerExplained(w, me, net, k0, start);
    AnswerExplained(w, me, net, k, m);
    if r.Answered? {
      AnsweredFinish(w, me, h, p, r.reply, r.step);
    } else if r.Raised? && Fenced(r.status) {
      AnsweredLater(w, me, net, k0, start, k, m);
      var e :| Replied(w, me, m, Rejected(e), r.step) && e != Unauthorized;
      var begun := Verdict(net(k0, start));
      AnsweredStart(w, me, h, begun.reply, begun.step);
      RefusedFinish(w, me, h, p, e, begun.step, r.step);
    }
  }

  /** A completion that was reported or refused was the last message, posted after the start was
      acknowledged, and `p` its answer. */
  lemma LastCompletion(net: Network, k: nat, h: Assignment, plan: Plan, log: TurnLog)
    returns (last: nat, payload: Payload, p: Posted)
    requires Obeys(net, k, h, plan, log) && (log.reported.Some? || log.refused.Some?)
    ensures k < last && Verdict(net(k, Starting(h.job, h.token))).Answered?
    ensures p == Verdict(net(last, Finishing(h.job, h.token, payload)))
    ensures log.reported.Some? ==> p.Answered? && log.reported.value == Report(payload, p.step)
    ensures log.refused.Some? ==> p.Raised? && Fenced(p.status) && log.refused.value == Report(payload, p.step)
  {
    ScriptBegins(net, k, log.sent, h, plan);
    last, payload, p := k + |log.sent| - 1, log.sent[|log.sent| - 1].payload, Answer(net, k, log.sent);
  }

  /** Work that moves on without a completion was refused its start or a renewal. */
  lemma LastRefusal(net: Network, k: nat, h: Assignment, plan: Plan, log: TurnLog) returns (last: nat, m: Message)
    requires Obeys(net, k, h, plan, log) && log.next.NextTurn? && log.reported.None? && log.refused.None?
    ensures m == Starting(h.job, h.token) || m == Renewing(h.job, h.token)
    ensures Verdict(net(last, m)).Raised? && Fenced(Verdict(net(last, m)).status)
  {
    ScriptBegins(net, k, log.sent, h, plan);
    last, m := k + |log.sent| - 1, log.sent[|log.sent| - 1];
  }

  /** Work that follows the protocol keeps its promises whatever the network and the run do. */
  lemma WorkKept(w: World, me: Identity, net: Network, k: nat, h: Assignment, plan: Plan, log: TurnLog)
    requires Sound(w) && Honest(w, me, net) && Obeys(net, k, h, plan, log)
    ensures Kept(w, me, h, log)
  {
    if log.reported.Some? || log.refused.Some? {
      var last, payload, p := LastCompletion(net, k, h, plan, log);
      Settles(w, me, net, k, last, h, payload);
    } else if log.next.NextTurn? {
      var last, m := LastRefusal(net, k, h, plan, log);
      AnswerExplained(w, me, net, last, m);
    }
  }

  /** A turn that follows the protocol, against any run and any network: the attempt it is
      assigned is the only one ever created under its claim ID, and its work keeps its promises. */
  lemma TurnKept(w: World, me: Identity, net: Network, k: nat, slot: int, plan: Plan, log: TurnLog)
    requires Sound(w) && Honest(w, me, net) && TurnObeys(net, k, slot, plan, log) && log.held.Some?
    ensures OwnAttempt(w, me, slot, plan.claimId, log.held.value) && Kept(w, me, log.held.value, log)
  {
    var m := Claiming(slot, plan.claimId);
    var p := Verdict(net(k, m));
    AnswerExplained(w, me, net, k, m);
    AnsweredClaim(w, me, slot, plan.claimId, p.reply, p.step);
    WorkKept(w, me, net, k + 1, log.held.value, plan, log.(sent := log.sent[1..]));
  }

  /** Turns with different claim IDs, of whatever workers and slots, never share an attempt. */
  lemma TurnsAreDisjoint(w: World, me: Identity, net: Network, k: nat, slot: int, plan: Plan, log: TurnLog,
                         me': Identity, net': Network, k': nat, slot': int, plan': Plan, log': TurnLog)
    requires Sound(w) && Honest(w, me, net) && Honest(w, me', net')
    requires TurnObeys(net, k, slot, plan, log) && TurnObeys(net', k', slot', plan', log')
    requires plan.claimId != plan'.claimId && log.held.Some? && log'.held.Some?
    ensures log.held.value.token != log'.held.value.token
  {
    TurnKept(w, me, net, k, slot, plan, log);
    TurnKept(w, me', net', k', slot', plan', log');
    AttemptsDiffer(w, me, slot, plan.claimId, log.held.value, me', slot', plan'.claimId, log'.held.value);
  }
}
