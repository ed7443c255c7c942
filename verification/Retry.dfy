/** Starting an upstream stream again after an error, on another account or
    with a shorter prompt. */
module Retry {
  import opened Common
  import opened SendLimit

  datatype Kind =
    | TokenExpired | SmBlocked | WafBlocked | PayloadTooLarge | Timeout | Connection | ChatNotFound
    | Unretryable

  datatype Result = Completed | CancelledInside | Raised(kind: Kind)

  /** One attempt as the upstream and the environment let it happen: the events
      it yields, how it ends, whether the server is shutting down when the
      error is looked at and when it is decided, whether accounts can be
      switched, and whether switching finds a session. */
  datatype Attempt = Attempt(
    events: seq<string>,
    result: Result,
    shuttingDown: bool,
    shutDownMeanwhile: bool,
    canSwitch: bool,
    switched: bool)

  datatype Verdict = Again | GiveUp(kind: Kind) | ShutDown

  /** What becomes of the `retries`-th error (counting it). */
  function Decide(a: Attempt, l: Limits, retries: nat, limit: int, model: Option<string>): Verdict
    requires a.result.Raised?
  {
    var kind := a.result.kind;
    if kind == Unretryable then GiveUp(kind)
    else if a.shuttingDown then ShutDown
    else
      match kind
      case PayloadTooLarge =>
        if l.sendFull || Effective(l, model) <= SMALLEST || retries > 1 then GiveUp(kind) else Again
      case ChatNotFound => if retries <= limit then Again else GiveUp(kind)
      case Timeout => OrShutDown(a, kind, retries > limit, a.shutDownMeanwhile)
      case Connection => OrShutDown(a, kind, retries > limit, a.shutDownMeanwhile)
      case _ => OrShutDown(a, kind, !a.canSwitch || !a.switched || retries > limit, false)
  }

  /** Giving up becomes a shutdown when the server is going down. */
  function OrShutDown(a: Attempt, kind: Kind, give: bool, always: bool): Verdict {
    if always || (give && a.shutDownMeanwhile) then ShutDown else if give then GiveUp(kind) else Again
  }

  function LimitsAfter(a: Attempt, l: Limits, model: Option<string>): Limits {
    if a.result == Raised(PayloadTooLarge) && !a.shuttingDown then Shrink(l, model) else l
  }

  predicate Retryable(r: Result) { r.Raised? && r.kind != Unretryable }

  /** How a request ends. */
  datatype Ending = Succeeded | Cancelled | Failed(kind: Kind) | Stopped

  /** `started` attempts, of which the last one decides. */
  datatype Report = Report(started: nat, ending: Ending, limits: Limits)

  /** What an attempt after `retries` errors makes of the request; None when it
      is tried again. */
  function After(a: Attempt, l: Limits, retries: nat, limit: int, model: Option<string>): Option<Ending> {
    match a.result
    case Completed => Some(Succeeded)
    case CancelledInside => Some(Cancelled)
    case Raised(_) =>
      match Decide(a, l, retries + 1, limit, model)
      case Again => None
      case GiveUp(kind) => Some(Failed(kind))
      case ShutDown => Some(Cancelled)
  }

  /** Whether the error of an attempt after `retries` others is worth another one,
      by its kind. */
  predicate WorthAnother(a: Attempt, l: Limits, retries: nat, limit: int, model: Option<string>) {
    && a.result.Raised? && !a.shuttingDown
    && match a.result.kind
       case PayloadTooLarge => retries == 0 && !l.sendFull && Effective(l, model) > 50000
       case ChatNotFound => retries < limit
       case Timeout => retries < limit && !a.shutDownMeanwhile
       case Connection => retries < limit && !a.shutDownMeanwhile
       case Unretryable => false
       case _ => a.canSwitch && a.switched && retries < limit
  }

  /** An attempt is followed by another if and only if it is worth it. If not, the
      request ends as the attempt did: an error is passed on unless the server is
      found to be shutting down, which counts as a cancellation. */
  lemma AgainIffWorthIt(a: Attempt, l: Limits, retries: nat, limit: int, model: Option<string>)
    ensures
      var e := After(a, l, retries, limit, model);
      && (e.None? <==> WorthAnother(a, l, retries, limit, model))
      && (a.result == Completed ==> e == Some(Succeeded))
      && (a.result == CancelledInside ==> e == Some(Cancelled))
      && (a.result.Raised? && e.Some? ==>
            var kind := a.result.kind;
            var goingDown := a.shuttingDown || (a.shutDownMeanwhile && kind != PayloadTooLarge && kind != ChatNotFound);
            e.value == if goingDown && kind != Unretryable then Cancelled else Failed(kind))
  {
    hide Effective;
  }

  /** Only a prompt that is too long changes the limits: that of its model is
      halved, to no less than 50000, also when the request then gives up. */
  lemma OnlyTooLongShrinks(a: Attempt, l: Limits, model: Option<string>)
    ensures
      var m, before := LimitsAfter(a, l, model), Effective(l, model);
      var tooLong := a.result == Raised(PayloadTooLarge) && !a.shuttingDown;
      var named := model.Some? && model.value != "";
      && m.sendFull == l.sendFull && m.fallback == l.fallback
      && (!tooLong || l.sendFull || before <= 50000 || (!named && l.splitter.None?) ==> m == l)
      && (tooLong && !l.sendFull && before > 50000 && (named || l.splitter.Some?) ==>
            Effective(m, model) == if before / 2 < 50000 then 50000 else before / 2)
  {}

  /** The limits in force before attempt `n`. */
  function LimitsBefore(oracle: nat -> Attempt, l: Limits, model: Option<string>, n: nat): Limits {
    if n == 0 then l else LimitsAfter(oracle(n - 1), LimitsBefore(oracle, l, model, n - 1), model)
  }

  /** A request makes exactly the attempts that are worth it and one more, which
      decides; so if all before attempt `k` are worth another one and that one
      completes, the request succeeds with it. */
  lemma {:induction false} RetriesAreMade(oracle: nat -> Attempt, limit: int, model: Option<string>, l: Limits,
                                          retries: nat, k: nat)
    requires retries <= k
    requires forall j :: retries <= j < k ==>
      WorthAnother(oracle(j), LimitsBefore(oracle, l, model, j), j, limit, model)
    requires !WorthAnother(oracle(k), LimitsBefore(oracle, l, model, k), k, limit, model)
    ensures
      var before := LimitsBefore(oracle, l, model, k);
      var e := After(oracle(k), before, k, limit, model);
      && e.Some?
      && Attempts(oracle, limit, model, LimitsBefore(oracle, l, model, retries), retries)
         == Report(k + 1, e.value, LimitsAfter(oracle(k), before, model))
      && (oracle(k).result == Completed ==> e.value == Succeeded)
    decreases k - retries
  {
    hide After, LimitsAfter, WorthAnother;
    var m := LimitsBefore(oracle, l, model, retries);
    AgainIffWorthIt(oracle(retries), m, retries, limit, model);
    Unfold(oracle, limit, model, m, retries);
    if retries < k { RetriesAreMade(oracle, limit, model, l, retries + 1, k); }
  }

  /** Only errors within the limit, and one prompt that is too long, are
      followed by another attempt. */
  lemma TriedAgain(a: Attempt, l: Limits, retries: nat, limit: int, model: Option<string>)
    requires After(a, l, retries, limit, model).None?
    ensures retries < Max(limit, 1) && Retryable(a.result) && !a.shuttingDown
    ensures a.result == Raised(PayloadTooLarge) ==> retries == 0
    ensures a.result != Raised(PayloadTooLarge) ==> retries < limit
  {
    hide Effective;
  }

  lemma LastOne(a: Attempt, l: Limits, retries: nat, limit: int, model: Option<string>)
    ensures
      var e := After(a, l, retries, limit, model);
      e.Some? ==>
        && e.value != Stopped
        && (e.value == Succeeded <==> a.result == Completed)
        && (e.value.Failed? ==> a.result == Raised(e.value.kind))
  {
    hide Effective;
  }

  /** The attempts of a request after `retries` errors. */
  function Attempts(oracle: nat -> Attempt, limit: int, model: Option<string>, l: Limits, retries: nat): Report
    decreases Max(limit, 1) - retries
  {
    hide After, LimitsAfter;
    var a := oracle(retries);
    var e, m := After(a, l, retries, limit, model), LimitsAfter(a, l, model);
    if e.Some? then Report(retries + 1, e.value, m)
    else
      TriedAgain(a, l, retries, limit, model);
      Attempts(oracle, limit, model, m, retries + 1)
  }

  /** What the first `n` attempts yield, in order. */
  function Yielded(oracle: nat -> Attempt, n: nat): seq<string> {
    if n == 0 then [] else Yielded(oracle, n - 1) + oracle(n - 1).events
  }

  /** Whatever mix of errors comes: the request ends after at most one start
      more than the limit (two with no retries allowed, for one prompt that is
      too long); every attempt but the last failed with a retryable error; and
      the last one decides the ending. */
  lemma {:induction false} RetryTerminates(oracle: nat -> Attempt, limit: int, model: Option<string>, l: Limits,
                                           retries: nat)
    requires retries <= Max(limit, 1)
    ensures
      var r := Attempts(oracle, limit, model, l, retries);
      && retries < r.started <= Max(limit, 1) + 1
      && (forall k :: retries <= k < r.started - 1 ==> Retryable(oracle(k).result))
      && (r.started > Max(limit, 0) + 1 ==> oracle(0).result == Raised(PayloadTooLarge) || retries > 0)
      && var last := oracle(r.started - 1);
         && (r.ending == Succeeded <==> last.result == Completed)
         && (r.ending.Failed? ==> last.result == Raised(r.ending.kind))
         && r.ending != Stopped
    decreases Max(limit, 1) - retries
  {
    hide After, LimitsAfter;
    var a := oracle(retries);
    if After(a, l, retries, limit, model).None? {
      TriedAgain(a, l, retries, limit, model);
      RetryTerminates(oracle, limit, model, LimitsAfter(a, l, model), retries + 1);
    } else {
      LastOne(a, l, retries, limit, model);
    }
  }

  lemma NothingYielded(oracle: nat -> Attempt)
    ensures Yielded(oracle, 0) == []
  {}

  lemma Unfold(oracle: nat -> Attempt, limit: int, model: Option<string>, l: Limits, retries: nat)
    ensures Yielded(oracle, retries + 1) == Yielded(oracle, retries) + oracle(retries).events
    ensures
      var a := oracle(retries);
      var e, m := After(a, l, retries, limit, model), LimitsAfter(a, l, model);
      Attempts(oracle, limit, model, l, retries)
      == if e.Some? then Report(retries + 1, e.value, m) else Attempts(oracle, limit, model, m, retries + 1)
  {
    hide After, LimitsAfter;
  }

  /** How many prompts were found too long in the first `n` attempts. */
  function TooLong(oracle: nat -> Attempt, n: nat): nat {
    if n == 0 then 0
    else
      var a := oracle(n - 1);
      TooLong(oracle, n - 1) + (if a.result == Raised(PayloadTooLarge) && !a.shuttingDown then 1 else 0)
  }

  /** Errors other than the first that a prompt was too long end the request:
      at most two shrinks in one, and at most one if it succeeds. */
  lemma {:induction false} AtMostTwoShrinks(oracle: nat -> Attempt, limit: int, model: Option<string>, l: Limits,
                                            retries: nat)
    requires retries <= Max(limit, 1)
    ensures
      var r := Attempts(oracle, limit, model, l, retries);
      && TooLong(oracle, r.started) <= TooLong(oracle, retries) + (if retries == 0 then 2 else 1)
      && (r.ending == Succeeded ==>
            TooLong(oracle, r.started) <= TooLong(oracle, retries) + (if retries == 0 then 1 else 0))
    decreases Max(limit, 1) - retries
  {
    hide After, LimitsAfter;
    var a := oracle(retries);
    if After(a, l, retries, limit, model).None? {
      TriedAgain(a, l, retries, limit, model);
      AtMostTwoShrinks(oracle, limit, model, LimitsAfter(a, l, model), retries + 1);
    } else {
      LastOne(a, l, retries, limit, model);
    }
  }

  /** Retrying on a stream the client consumes event by event. */
  class RetryingStream {
    var limits: Limits
    var opened_: nat
    var closed: nat
    var output: seq<string>

    constructor (limits: Limits)
      ensures this.limits == limits && opened_ == 0 && closed == 0 && output == []
    {
      this.limits, opened_, closed, output := limits, 0, 0, [];
    }

    /** Opens an inner generator; no other one may be open. */
    method MakeStream()
      requires opened_ == closed
      modifies this`opened_
      ensures opened_ == old(opened_) + 1
    {
      opened_ := opened_ + 1;
    }

    method ResetStream()
      requires closed <= opened_ <= closed + 1
      modifies this`closed
      ensures closed == opened_
    {
      closed := opened_;
    }

    /** Shrinks the limit even when the request then gives up. */
    method ShrinkPayloadLimit(retries: nat, model: Option<string>) returns (again: bool)
      modifies this`limits
      ensures limits == Shrink(old(limits), model)
      ensures again <==> !old(limits).sendFull && Effective(old(limits), model) > SMALLEST && retries <= 1
    {
      if limits.sendFull { return false; }
      var current := Effective(limits, model);
      if current <= SMALLEST { return false; }
      var limit, key := Max(SMALLEST, current / 2), Key(model);
      if key.Some? {
        limits := limits.(overrides := limits.overrides[key.value := limit]);
      } else if limits.splitter.Some? {
        limits := limits.(splitter := Some(limits.splitter.value.(maxChars := limit)));
      }
      again := retries <= 1;
    }

    method DispatchRetry(a: Attempt, retries: nat, limit: int, model: Option<string>) returns (verdict: Verdict)
      requires a.result.Raised? && retries > 0
      modifies this`limits
      ensures verdict == Decide(a, old(limits), retries, limit, model)
      ensures limits == LimitsAfter(a, old(limits), model)
    {
      hide Shrink, Effective;
      var kind := a.result.kind;
      if kind == Unretryable { return GiveUp(kind); }
      if a.shuttingDown { return ShutDown; }
      match kind {
        case PayloadTooLarge =>
          var again := ShrinkPayloadLimit(retries, model);
          verdict := if again then Again else GiveUp(kind);
        case ChatNotFound =>
          verdict := if retries <= limit then Again else GiveUp(kind);
        case Timeout | Connection =>
          if a.shutDownMeanwhile { return ShutDown; }
          verdict := if retries > limit then GiveUp(kind) else Again;
        case _ =>
          if !a.canSwitch || !a.switched || retries > limit {
            return if a.shutDownMeanwhile then ShutDown else GiveUp(kind);
          }
          verdict := Again;
      }
    }

    /** Passes on the events of one attempt; the client stops when it has
        taken `stop` events. */
    method ConsumeOnce(events: seq<string>, stop: Option<nat>) returns (stopped: bool)
      requires stop.Some? ==> |output| < stop.value
      modifies this`output
      ensures old(output) <= output <= old(output) + events
      ensures stopped <==> stop.Some? && |old(output)| + |events| >= stop.value
      ensures if stopped then |output| == stop.value else output == old(output) + events
    {
      for k := 0 to |events|
        invariant output == old(output) + events[..k]
        invariant stop.Some? ==> |output| < stop.value
      {
        assert old(output) + events == old(output) + events[..k + 1] + events[k + 1..];
        output := output + [events[k]];
        if stop.Some? && |output| == stop.value { return true; }
      }
      stopped := false;
    }

    /** One attempt, from opening its generator to closing it; None when the
        request is to be tried again. */
    method AttemptOnce(a: Attempt, retries: nat, limit: int, model: Option<string>, stop: Option<nat>)
      returns (ending: Option<Ending>)
      requires opened_ == closed && (stop.Some? ==> |output| < stop.value)
      modifies this
      ensures opened_ == closed == old(opened_) + 1
      ensures old(output) <= output <= old(output) + a.events
      ensures ending == Some(Stopped) ==> stop == Some(|output|)
      ensures ending != Some(Stopped) ==>
        && output == old(output) + a.events && (stop.Some? ==> |output| < stop.value)
        && ending == After(a, old(limits), retries, limit, model) && limits == LimitsAfter(a, old(limits), model)
    {
      hide Decide, Shrink, Effective;
      MakeStream();
      var stopped := ConsumeOnce(a.events, stop);
      ResetStream();
      if stopped { return Some(Stopped); }
      match a.result {
        case Completed => ending := Some(Succeeded);
        case CancelledInside => ending := Some(Cancelled);
        case Raised(_) =>
          var verdict := DispatchRetry(a, retries + 1, limit, model);
          match verdict {
            case Again => ending := None;
            case GiveUp(kind) => ending := Some(Failed(kind));
            case ShutDown => ending := Some(Cancelled);
          }
      }
    }

    /** Streams until an attempt succeeds, the request gives up, or the client
        stops. The client gets the events of all attempts in order; at most
        one generator is open at a time and none in the end. */
    method Stream(oracle: nat -> Attempt, limit: int, model: Option<string>, stop: Option<nat>)
      returns (started: nat, ending: Ending)
      requires opened_ == closed == 0 && output == []
      requires stop.Some? ==> stop.value > 0
      modifies this
      ensures opened_ == closed == started <= Max(limit, 1) + 1
      ensures ending != Stopped ==>
        output == Yielded(oracle, started)
        && Report(started, ending, limits) == Attempts(oracle, limit, model, old(limits), 0)
      ensures ending == Stopped ==>
        output <= Yielded(oracle, started) && stop == Some(|output|)
        && started <= Attempts(oracle, limit, model, old(limits), 0).started
    {
      hide After, LimitsAfter, Attempts, Yielded, Decide, Effective, Shrink, Retryable;
      ghost var report := Attempts(oracle, limit, model, limits, 0);
      NothingYielded(oracle);
      RetryTerminates(oracle, limit, model, limits, 0);
      started := 0;
      while true
        invariant opened_ == closed == started < report.started
        invariant output == Yielded(oracle, started)
        invariant stop.Some? ==> |output| < stop.value
        invariant Attempts(oracle, limit, model, limits, started) == report
        decreases report.started - started
      {
        Unfold(oracle, limit, model, limits, started);
        var a := oracle(started);
        ghost var before := limits;
        var e := AttemptOnce(a, started, limit, model, stop);
        started := started + 1;
        if e == Some(Stopped) { return started, Stopped; }
        if e.Some? { return started, e.value; }
        TriedAgain(a, before, started - 1, limit, model);
        RetryTerminates(oracle, limit, model, limits, started);
      }
    }
  }
}
