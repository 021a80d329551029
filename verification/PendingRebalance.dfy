/** Submitting a rebalance once: the hash of an unresolved send is kept, and blocks the next one. */
module PendingRebalance {
  import opened Prelude

  type Hash = string

  const POLLS: nat := 30

  /** What a status query gives; it may also throw. */
  datatype Reply = Success | Failed | Unknown | Throws

  datatype SendReply = SendThrows | Rejected | Accepted(hash: Hash)

  /** What the outside world answers during one submission. */
  datatype World = World(
    hasSecret: bool,
    prior: Reply,               // status of the hash left pending
    prepared: Option<Hash>,     // the hash of the new transaction; None when building it throws
    send: SendReply,
    poll: nat -> Reply)         // status at the i-th poll

  datatype Result = Sent(hash: Hash) | Error

  /** `outstanding` holds the sent hashes not yet seen as succeeded, failed or rejected. */
  datatype Send = Send(hash: Hash, outstanding: set<Hash>)

  datatype State = State(pending: Option<Hash>, outstanding: set<Hash>, sends: seq<Send>)

  const IDLE := State(None, {}, [])

  // ---------------------------------------------------------------- one call

  datatype Polled = Polled(confirmed: bool, resolved: bool)

  /** The polling loop from turn i: a failure seen before the last turn is caught and the polling goes on. */
  function PollFrom(poll: nat -> Reply, i: nat): Polled
    decreases POLLS - i
  {
    if i >= POLLS then Polled(false, false)
    else
      match poll(i)
      case Success => Polled(true, true)
      case Failed => PollFrom(poll, i + 1).(resolved := true)
      case Unknown => PollFrom(poll, i + 1)
      case Throws => PollFrom(poll, i + 1)
  }

  datatype Called = Called(after: State, result: Result)

  /** `txHash || pending`. */
  function Kept(hash: Hash, prepared: Hash): Hash { if hash != "" then hash else prepared }

  function SendAndPoll(s: State, w: World, prepared: Hash): Called {
    var sent := State(Some(prepared), s.outstanding + {prepared}, s.sends + [Send(prepared, s.outstanding)]);
    match w.send
    case SendThrows => Called(sent, Error)
    case Rejected => Called(sent.(pending := None, outstanding := sent.outstanding - {prepared}), Error)
    case Accepted(hash) =>
      var p := PollFrom(w.poll, 0);
      Called(
        if p.resolved then sent.(pending := None, outstanding := sent.outstanding - {hash})
        else sent.(pending := Some(Kept(hash, prepared))),
        if p.confirmed then Sent(hash) else Error)
  }

  function Build(s: State, w: World): Called {
    if w.prepared.None? then Called(s, Error) else SendAndPoll(s, w, w.prepared.value)
  }

  function Submit(s: State, w: World): Called {
    if !w.hasSecret then Called(s, Error)
    else if s.pending.None? then Build(s, w)
    else
      var hash := s.pending.value;
      var resolved := s.(pending := None, outstanding := s.outstanding - {hash});
      match w.prior
      case Success => Called(resolved, Sent(hash))
      case Failed => Build(resolved, w)
      case Unknown => Called(s, Error)
      case Throws => Called(s, Error)
  }

  /** Returns the pending hash when it turns out to have succeeded. */
  function Reconcile(s: State, reply: Reply): State {
    if s.pending.None? || reply.Unknown? || reply.Throws? then s
    else s.(pending := None, outstanding := s.outstanding - {s.pending.value})
  }

  class RebalanceHooks {
    var pending: Option<Hash>
    ghost var outstanding: set<Hash>
    ghost var sends: seq<Send>

    constructor ()
      ensures View() == IDLE
    {
      pending, outstanding, sends := None, {}, [];
    }

    ghost function View(): State
      reads this
    {
      State(pending, outstanding, sends)
    }

    method SubmitRebalance(w: World) returns (result: Result)
      modifies this
      ensures View() == Submit(old(View()), w).after && result == Submit(old(View()), w).result
      ensures !w.hasSecret || (old(pending).Some? && (w.prior.Unknown? || w.prior.Throws?)) ==>
        result == Error && View() == old(View())
      ensures w.hasSecret && old(pending).Some? && w.prior.Success? ==>
        result == Sent(old(pending).value) && pending == None && sends == old(sends)
      ensures w.hasSecret && (old(pending).None? || w.prior.Failed?) ==>
        if w.prepared.None? then result == Error && pending == None && sends == old(sends)
        else
          var prepared := w.prepared.value;
          var before := if old(pending).None? then old(outstanding) else old(outstanding) - {old(pending).value};
          var settled := exists i :: 0 <= i < 30 && (w.poll(i).Success? || w.poll(i).Failed?);
          && sends == old(sends) + [Send(prepared, before)]
          && match w.send
             case SendThrows => result == Error && pending == Some(prepared) && outstanding == before + {prepared}
             case Rejected => result == Error && pending == None && outstanding == before - {prepared}
             case Accepted(hash) =>
               && result == (if exists i :: 0 <= i < 30 && w.poll(i).Success? then Sent(hash) else Error)
               && pending == (if settled then None else Some(if hash == "" then prepared else hash))
               && outstanding == before + {prepared} - if settled then {hash} else {}
    {
      if !w.hasSecret {
        return Error;
      }
      if pending.Some? {
        var priorHash := pending.value;
        if w.prior.Success? {
          pending, outstanding := None, outstanding - {priorHash};
          return Sent(priorHash);
        }
        if w.prior.Failed? {
          pending, outstanding := None, outstanding - {priorHash};
        } else {
          return Error;
        }
      }
      if w.prepared.None? {
        return Error;
      }
      var prepared := w.prepared.value;
      pending := Some(prepared);
      sends, outstanding := sends + [Send(prepared, outstanding)], outstanding + {prepared};
      if w.send.SendThrows? {
        return Error;
      }
      if w.send.Rejected? {
        pending, outstanding := None, outstanding - {prepared};
        return Error;
      }
      result := AwaitConfirmation(w.send.hash, w.poll);
    }

    /** The polling loop: thirty turns, one a second. */
    method AwaitConfirmation(hash: Hash, poll: nat -> Reply) returns (result: Result)
      requires pending.Some?
      modifies this`pending, this`outstanding
      ensures var p := PollFrom(poll, 0);
        && pending == (if p.resolved then None else Some(Kept(hash, old(pending).value)))
        && outstanding == (if p.resolved then old(outstanding) - {hash} else old(outstanding))
        && result == if p.confirmed then Sent(hash) else Error
      ensures result == if exists i :: 0 <= i < 30 && poll(i).Success? then Sent(hash) else Error
      ensures pending.None? <==> exists i :: 0 <= i < 30 && (poll(i).Success? || poll(i).Failed?)
    {
      PollsConfirmIff(poll, 0);
      PollsResolveIff(poll, 0);
      pending := Some(Kept(hash, pending.value));
      ghost var resolved := false;
      var confirmed, i := false, 0;
      while i < POLLS && !confirmed
        invariant 0 <= i <= POLLS
        invariant pending == if resolved then None else Some(Kept(hash, old(pending).value))
        invariant outstanding == if resolved then old(outstanding) - {hash} else old(outstanding)
        invariant confirmed ==> resolved && PollFrom(poll, 0) == Polled(true, true)
        invariant !confirmed ==> PollFrom(poll, 0) == PollFrom(poll, i).(resolved := resolved || PollFrom(poll, i).resolved)
        decreases POLLS - i
      {
        var reply := poll(i);
        if reply.Success? {
          confirmed := true;
        }
        if reply.Success? || reply.Failed? {
          pending, outstanding := None, outstanding - {hash};
          resolved := true;
        }
        i := i + 1;
      }
      result := if confirmed then Sent(hash) else Error;
    }

    method ReconcileRebalance(reply: Reply) returns (found: Option<Hash>)
      modifies this
      ensures View() == Reconcile(old(View()), reply)
      ensures found == if reply.Success? then old(pending) else None
      ensures pending == if reply.Success? || reply.Failed? then None else old(pending)
      ensures sends == old(sends)
    {
      if pending.None? {
        return None;
      }
      found := None;
      if reply.Success? {
        found := pending;
      }
      if reply.Success? || reply.Failed? {
        outstanding := outstanding - {pending.value};
        pending := None;
      }
    }
  }

  // ---------------------------------------------------------------- calls one after another

  datatype Call = SubmitCall(world: World) | ReconcileCall(reply: Reply)

  function Next(s: State, call: Call): State {
    match call
    case SubmitCall(w) => Submit(s, w).after
    case ReconcileCall(reply) => Reconcile(s, reply)
  }

  function Run(s: State, calls: seq<Call>): State
    decreases |calls|
  {
    if calls == [] then s else Run(Next(s, calls[0]), calls[1..])
  }

  /** The RPC's acknowledgement carries the hash of the transaction that was sent. */
  predicate Echoes(call: Call) {
    call.SubmitCall? && call.world.send.Accepted? && call.world.prepared.Some? ==>
      call.world.send.hash == call.world.prepared.value
  }

  /** Whatever is outstanding is what is pending; nothing was ever sent on top of something outstanding. */
  ghost predicate Inv(s: State) {
    && s.outstanding <= (if s.pending.Some? then {s.pending.value} else {})
    && forall i :: 0 <= i < |s.sends| ==> s.sends[i].outstanding == {}
  }

  lemma {:induction false} RunKeepsInv(s: State, calls: seq<Call>)
    requires Inv(s) && forall i :: 0 <= i < |calls| ==> Echoes(calls[i])
    ensures Inv(Run(s, calls))
    decreases |calls|
  {
    if calls != [] {
      assert Echoes(calls[0]);
      RunKeepsInv(Next(s, calls[0]), calls[1..]);
    }
  }

  /**
   * With submissions and reconciliations one at a time, a transaction is never sent while an earlier sent hash has
   * not been seen as succeeded, failed or rejected.
   */
  lemma NeverSendsOnTopOfAnUncertainSend(calls: seq<Call>)
    requires forall i :: 0 <= i < |calls| ==> Echoes(calls[i])
    ensures forall i :: 0 <= i < |Run(IDLE, calls).sends| ==> Run(IDLE, calls).sends[i].outstanding == {}
  {
    RunKeepsInv(IDLE, calls);
  }

  // ---------------------------------------------------------------- when an accepted send loses its guard

  predicate Final(reply: Reply) { reply.Success? || reply.Failed? }

  /** Some poll from turn i on shows a final status. */
  predicate Settles(poll: nat -> Reply, i: nat) {
    exists j :: i <= j < 30 && Final(poll(j))
  }

  lemma {:induction false} PollsResolveIff(poll: nat -> Reply, i: nat)
    ensures PollFrom(poll, i).resolved <==> Settles(poll, i)
    decreases POLLS - i
  {
    if i < POLLS {
      PollsResolveIff(poll, i + 1);
      assert Settles(poll, i) <==> Final(poll(i)) || Settles(poll, i + 1);
    }
  }

  /** A send is confirmed exactly when some poll of the thirty shows success, whatever the polls before it showed. */
  lemma {:induction false} PollsConfirmIff(poll: nat -> Reply, i: nat)
    ensures PollFrom(poll, i).confirmed <==> exists j :: i <= j < 30 && poll(j).Success?
    decreases POLLS - i
  {
    if i < POLLS {
      PollsConfirmIff(poll, i + 1);
    }
  }

  /** After the call, some submission would send on top of the transaction just sent, whose outcome is not known. */
  ghost predicate CanBeSentOver(after: State, sent: Hash) {
    exists again: World :: |Submit(after, again).after.sends| > |after.sends|
      && sent in Submit(after, again).after.sends[|after.sends|].outstanding
  }

  /** Nothing guards a sent hash that is outstanding and not pending. */
  predicate Unguarded(after: State, sent: Hash) {
    sent in after.outstanding && after.pending != Some(sent)
  }

  /** An untroubled submission of something else. */
  function Another(other: Hash): World {
    World(true, Failed, Some(other), SendThrows, i => Unknown)
  }

  lemma UnguardedIff(after: State, sent: Hash)
    ensures CanBeSentOver(after, sent) <==> Unguarded(after, sent)
  {
    if Unguarded(after, sent) {
      var again := Another(sent);
      assert |Submit(after, again).after.sends| == |after.sends| + 1;
      assert sent in Submit(after, again).after.sends[|after.sends|].outstanding;
    }
  }

  /**
   * An accepted send loses its guard, so that another transaction can be sent over it, exactly when the
   * acknowledgement names another hash and that hash is not empty or some poll shows a final status.
   */
  lemma AcceptedSendLosesGuardIff(s: State, w: World)
    requires w.hasSecret && w.prepared.Some? && w.send.Accepted?
    requires s.pending.Some? ==> w.prior.Failed?
    ensures CanBeSentOver(Submit(s, w).after, w.prepared.value) <==>
      w.send.hash != w.prepared.value && (w.send.hash != "" || Settles(w.poll, 0))
  {
    PollsResolveIff(w.poll, 0);
    UnguardedIff(Submit(s, w).after, w.prepared.value);
  }

  /** A pending hash that never shows a final status blocks every later submission, for good. */
  lemma {:induction false} UncertainHashBlocksForever(s: State, calls: seq<Call>)
    requires s.pending.Some?
    requires forall i :: 0 <= i < |calls| ==>
      match calls[i]
      case SubmitCall(w) => w.prior.Unknown? || w.prior.Throws?
      case ReconcileCall(reply) => reply.Unknown? || reply.Throws?
    ensures Run(s, calls) == s
    decreases |calls|
  {
    if calls != [] {
      assert Next(s, calls[0]) == s;
      UncertainHashBlocksForever(s, calls[1..]);
    }
  }
}
