/** Commands take effect once however often they are sent: a retry changes nothing and is told what the first was
    told. */
module ExactlyOnce {
  import opened Wrappers
  import opened Tables
  import opened Commands

  // ---------- stored results are never lost or replaced ----------

  /** Everything stored stays stored under the same key. */
  ghost predicate Remembers(s: State, t: State) {
    forall key | key in s.results :: key in t.results && t.results[key] == s.results[key]
  }

  lemma NextRemembers(s: State, call: Call)
    ensures Remembers(s, Next(s, call))
  {
  }

  lemma {:induction false} RunRemembers(s: State, calls: seq<Call>)
    ensures Remembers(s, Run(s, calls))
  {
    if calls != [] {
      RunRemembers(s, calls[..|calls| - 1]);
      NextRemembers(Run(s, calls[..|calls| - 1]), calls[|calls| - 1]);
    }
  }

  // ---------- what a retry can repeat ----------

  /** A number for each command; recording work has one per stage, reviewing one per decision. */
  function Kind(op: Op): nat {
    match op
    case SubmitOrder(_, _, _, _, _, _) => 0
    case ConfirmOrder(_) => 1
    case AllocateOrder(_) => 2
    case ClaimWork(_) => 3
    case ReleaseWork(_) => 4
    case SetWork(_, stage, _) => if stage == PickStage then 5 else 6
    case Ship(_, _) => 7
    case CancelOrder(_) => 8
    case RequestCancellation(_, _) => 9
    case ReviewCancellation(_, approve) => if approve then 10 else 11
    case StartCount(_) => 12
    case FinalizeCount(_, _) => 13
    case CancelCount(_) => 14
    case AdjustStock(_, _) => 15
    case ReceiveStock(_, _, _) => 16
    case RequestReturn(_, _) => 17
    case InspectReturn(_, _, _, _) => 18
    case CreditReturn(_, _, _) => 19
    case DisposeDefect(_, _, _, _) => 20
    case ResolveDefect(_, _, _, _) => 21
    case DraftSettlement(_, _, _) => 26
    case FinalizeSettlement(_) => 27
    case RecordPayment(_, _, _) => 22
    case AllocatePayment(_, _, _) => 23
    case RecordRefund(_, _, _, _) => 24
    case VoidPayment(_) => 25
  }

  /** The number of the command whose results are stored under the name, by its length and a character. */
  function KindNamed(name: string): nat {
    if |name| == 12 then (if name[6] == 's' then 0 else if name[6] == 'c' then 8 else 25)
    else if |name| == 13 then (if name[2] == 'd' then 1 else if name[2] == 't' then 19 else 24)
    else if |name| == 14 then
      (if name[7] == 'l' then 2 else if name[7] == 'r' then 17 else if name[7] == 'i' then 18 else 22)
    else if |name| == 15 then (if name[0] == 's' then 7 else 16)
    else if |name| == 16 then (if name[0] == 'i' then 15 else 23)
    else if |name| == 17 then 12
    else if |name| == 18 then 14
    else if |name| == 19 then 3
    else if |name| == 20 then (if name[1] == 'h' then 5 else 13)
    else if |name| == 21 then 4
    else if |name| == 23 then 6
    else if |name| == 24 then 21
    else if |name| == 25 then 20
    else if |name| == 26 then 9
    else if |name| == 27 then (if name[19] == 'a' then 10 else 11)
    else 28
  }

  lemma NamesKind1(op: Op)
    requires op.SubmitOrder? || op.SetWork? || op.StartCount? || op.RequestReturn? || op.RecordPayment?
    ensures KindNamed(CommandType(op).value) == Kind(op)
  {
  }

  lemma NamesKind2(op: Op)
    requires op.ConfirmOrder? || op.Ship? || op.FinalizeCount? || op.InspectReturn? || op.AllocatePayment?
    ensures KindNamed(CommandType(op).value) == Kind(op)
  {
  }

  lemma NamesKind3(op: Op)
    requires op.AllocateOrder? || op.CancelOrder? || op.CancelCount? || op.CreditReturn? || op.RecordRefund?
    ensures KindNamed(CommandType(op).value) == Kind(op)
  {
  }

  lemma NamesKind4(op: Op)
    requires op.ClaimWork? || op.RequestCancellation? || op.AdjustStock? || op.DisposeDefect? || op.VoidPayment?
    ensures KindNamed(CommandType(op).value) == Kind(op)
  {
  }

  lemma NamesKind5(op: Op)
    requires op.ReleaseWork? || op.ReviewCancellation? || op.ReceiveStock? || op.ResolveDefect?
    ensures KindNamed(CommandType(op).value) == Kind(op)
  {
  }

  lemma NamesKind(op: Op)
    requires CommandType(op).Some?
    ensures KindNamed(CommandType(op).value) == Kind(op)
  {
    if op.SubmitOrder? || op.SetWork? || op.StartCount? || op.RequestReturn? || op.RecordPayment? {
      NamesKind1(op);
    } else if op.ConfirmOrder? || op.Ship? || op.FinalizeCount? || op.InspectReturn? || op.AllocatePayment? {
      NamesKind2(op);
    } else if op.AllocateOrder? || op.CancelOrder? || op.CancelCount? || op.CreditReturn? || op.RecordRefund? {
      NamesKind3(op);
    } else if op.ClaimWork? || op.RequestCancellation? || op.AdjustStock? || op.DisposeDefect? || op.VoidPayment? {
      NamesKind4(op);
    } else {
      NamesKind5(op);
    }
  }

  /** No two commands share their stored results. */
  lemma TypesAreApart(a: Op, b: Op)
    requires CommandType(a).Some? && CommandType(a) == CommandType(b)
    ensures Kind(a) == Kind(b)
  {
    NamesKind(a);
    NamesKind(b);
  }

  /** An input that is refused at once would be refused in any state. */
  lemma RefusedAnyway(d: Db, actor: Id, op: Op)
    requires Refused(op)
    ensures Apply(d, actor, op) == Failed(BadRequest)
  {
  }

  // ---------- retries ----------

  /** Call `n` of the run succeeded. */
  predicate Succeeded(s: State, calls: seq<Call>, n: nat)
    requires n < |calls|
  {
    Answer(Run(s, calls[..n]), calls[n]).Success?
  }

  /** The last call repeats the actor, command type and request identifier of an earlier successful one; its other
      arguments need not be the same. */
  predicate EndsInRetryOf(s: State, calls: seq<Call>, n: nat) {
    && n < |calls| - 1
    && KeyOf(calls[n]).Some? && KeyOf(calls[|calls| - 1]) == KeyOf(calls[n])
    && Succeeded(s, calls, n)
  }

  /** A successful call leaves its reply under its key, whether it did the work or was itself a retry. */
  lemma SuccessIsStored(s: State, call: Call)
    requires Answer(s, call).Success? && KeyOf(call).Some?
    ensures var t := Next(s, call);
            KeyOf(call).value in t.results && t.results[KeyOf(call).value] == Answer(s, call).value
  {
  }

  /** A retry changes nothing; it is answered like the call it repeats unless its own input is refused. */
  lemma RetryIsReplayed(s: State, calls: seq<Call>, n: nat)
    requires EndsInRetryOf(s, calls, n)
    ensures var init, last := calls[..|calls| - 1], calls[|calls| - 1];
            && Run(s, calls) == Run(s, init)
            && Answer(Run(s, init), last) ==
                (if Refused(last.op) then Failure(BadRequest) else Answer(Run(s, calls[..n]), calls[n]))
  {
    var init := calls[..|calls| - 1];
    assert init == calls[..n + 1] + calls[n + 1..|calls| - 1];
    assert calls[..n + 1][..n] == calls[..n];
    SuccessIsStored(Run(s, calls[..n]), calls[n]);
    RunConcat(s, calls[..n + 1], calls[n + 1..|calls| - 1]);
    RunRemembers(Run(s, calls[..n + 1]), calls[n + 1..|calls| - 1]);
  }

  /** `padded` is `calls` with any number of retries put in anywhere after the calls they repeat. */
  ghost predicate WithRetries(s: State, calls: seq<Call>, padded: seq<Call>)
    decreases |padded|
  {
    if padded == [] then calls == []
    else
      var init, last := padded[..|padded| - 1], padded[|padded| - 1];
      || (calls != [] && calls[|calls| - 1] == last && WithRetries(s, calls[..|calls| - 1], init))
      || ((exists n: nat :: EndsInRetryOf(s, padded, n)) && WithRetries(s, calls, init))
  }

  /** A run with retries ends in the state of the run without them. */
  lemma {:induction false} RetriesAreInvisible(s: State, calls: seq<Call>, padded: seq<Call>)
    requires WithRetries(s, calls, padded)
    ensures Run(s, padded) == Run(s, calls)
    decreases |padded|
  {
    if padded != [] {
      var init, last := padded[..|padded| - 1], padded[|padded| - 1];
      if calls != [] && calls[|calls| - 1] == last && WithRetries(s, calls[..|calls| - 1], init) {
        RetriesAreInvisible(s, calls[..|calls| - 1], init);
      } else {
        var n: nat :| EndsInRetryOf(s, padded, n);
        RetryIsReplayed(s, padded, n);
        RetriesAreInvisible(s, calls, init);
      }
    }
  }

  /** No key's command ever takes effect twice: at most one call of a run with that key changes the database. */
  lemma OneEffectPerKey(s: State, calls: seq<Call>, m: nat, n: nat)
    requires m < n < |calls| && KeyOf(calls[m]).Some? && KeyOf(calls[n]) == KeyOf(calls[m])
    requires Run(s, calls[..m + 1]) != Run(s, calls[..m])
    ensures Run(s, calls[..n + 1]) == Run(s, calls[..n])
  {
    var run := calls[..n + 1];
    assert run[..m] == calls[..m] && run[..n] == calls[..n] && calls[..m + 1][..m] == calls[..m];
    assert Succeeded(s, run, m);
    RetryIsReplayed(s, run, m);
  }
}
