/** The per-chat pipeline of src/buddy_bot/main.py: lazily created buffers,
    when on_message starts a processing loop, and the _processing_loop state machine
    (drain, process, count consecutive failures, requeue or give up after three
    with one notice, check the buffer again).

    The executor call is an input: `failing` is the set of process-call indices
    that raise. Events that reach the buffer while the loop runs are an input
    too: `arrivals[k]` holds those added while call k runs and those added
    during the 30-second pause after a requeue. */
module BuddyBot {
  import opened Buffer
  import opened Bot

  datatype TaskState = Running | Done

  /** One process call: the batch it was given and whether it succeeded. */
  datatype Call<E> = Call(batch: seq<E>, ok: bool)

  datatype Arrival<E> = Arrival(duringCall: seq<E>, duringSleep: seq<E>)

  /** What a run of the loop did: its process calls in order, whether the
      trouble notice was sent, and what it left in the buffer. */
  datatype LoopResult<E> = LoopResult(calls: seq<Call<E>>, notified: bool, pending: seq<E>)

  const TroubleNotice := "I'm having trouble right now, please try again later."
  const MaxConsecutiveFailures := 3

  function DuringCall<E>(a: seq<Arrival<E>>, k: nat): seq<E> {
    if k < |a| then a[k].duringCall else []
  }

  function DuringSleep<E>(a: seq<Arrival<E>>, k: nat): seq<E> {
    if k < |a| then a[k].duringSleep else []
  }

  function Prepend<E>(call: Call<E>, r: LoopResult<E>): LoopResult<E> {
    LoopResult([call] + r.calls, r.notified, r.pending)
  }

  /** A run that made `calls` and then went on as `r`. */
  function Then<E>(calls: seq<Call<E>>, r: LoopResult<E>): LoopResult<E> {
    LoopResult(calls + r.calls, r.notified, r.pending)
  }

  lemma ThenPrepend<E>(calls: seq<Call<E>>, c: Call<E>, r: LoopResult<E>)
    ensures Then(calls, Prepend(c, r)) == Then(calls + [c], r)
  {
    assert calls + ([c] + r.calls) == (calls + [c]) + r.calls;
  }

  /** The loop from its head with `pending` in the buffer, `k` calls made so
      far and `failures` consecutive failures counted. */
  function RunLoop<E>(pending: seq<E>, k: nat, failures: nat, a: seq<Arrival<E>>, failing: set<nat>): (r: LoopResult<E>)
    requires |pending| > 0 && failures < MaxConsecutiveFailures
    ensures |r.calls| > 0 && r.calls[0] == Call(pending, k !in failing)
    decreases (if k < |a| then |a| - k else 0), MaxConsecutiveFailures - failures
  {
    var call := Call(pending, k !in failing);
    if k !in failing then
      var next := DuringCall(a, k);
      if next == [] then LoopResult([call], false, [])
      else Prepend(call, RunLoop(next, k + 1, 0, a, failing))
    else if failures + 1 == MaxConsecutiveFailures then LoopResult([call], true, DuringCall(a, k))
    else Prepend(call, RunLoop(DuringCall(a, k) + pending + DuringSleep(a, k), k + 1, failures + 1, a, failing))
  }

  /** The batch the loop drains after `call`, the k-th call of the run:
      after a success what arrived meanwhile; after a failure what arrived
      meanwhile, then the failed batch, then what arrived during the pause. */
  function NextBatch<E>(call: Call<E>, a: seq<Arrival<E>>, k: nat): seq<E> {
    if call.ok then DuringCall(a, k) else DuringCall(a, k) + call.batch + DuringSleep(a, k)
  }

  /** One turn of the loop: the head call, then either the end of the run or
      the run from the next head. */
  lemma RunLoopUnfold<E>(p: seq<E>, k: nat, failures: nat, a: seq<Arrival<E>>, failing: set<nat>)
    requires |p| > 0 && failures < MaxConsecutiveFailures
    ensures RunLoop(p, k, failures, a, failing) ==
      if k !in failing then
        if DuringCall(a, k) == [] then LoopResult([Call(p, true)], false, [])
        else Prepend(Call(p, true), RunLoop(DuringCall(a, k), k + 1, 0, a, failing))
      else if failures + 1 == MaxConsecutiveFailures then LoopResult([Call(p, false)], true, DuringCall(a, k))
      else Prepend(Call(p, false), RunLoop(NextBatch(Call(p, false), a, k), k + 1, failures + 1, a, failing))
  {
  }

  /** The calls of a run after the first are the run from the next head. */
  lemma RunLoopTail<E>(p: seq<E>, k: nat, failures: nat, a: seq<Arrival<E>>, failing: set<nat>)
    requires |p| > 0 && failures < MaxConsecutiveFailures
    ensures var r := RunLoop(p, k, failures, a, failing);
      if k !in failing && DuringCall(a, k) != [] then
        r.calls[1..] == RunLoop(DuringCall(a, k), k + 1, 0, a, failing).calls &&
        r.notified == RunLoop(DuringCall(a, k), k + 1, 0, a, failing).notified
      else if k in failing && failures + 1 < MaxConsecutiveFailures then
        var next := DuringCall(a, k) + p + DuringSleep(a, k);
        r.calls[1..] == RunLoop(next, k + 1, failures + 1, a, failing).calls &&
        r.notified == RunLoop(next, k + 1, failures + 1, a, failing).notified
      else
        |r.calls| == 1 && r.notified == (k in failing) &&
        r.pending == (if k in failing then DuringCall(a, k) else [])
  {
    var r := RunLoop(p, k, failures, a, failing);
    if k !in failing && DuringCall(a, k) != [] {
      var s := RunLoop(DuringCall(a, k), k + 1, 0, a, failing);
      assert r.calls == [Call(p, true)] + s.calls;
    } else if k in failing && failures + 1 < MaxConsecutiveFailures {
      var s := RunLoop(DuringCall(a, k) + p + DuringSleep(a, k), k + 1, failures + 1, a, failing);
      assert r.calls == [Call(p, false)] + s.calls;
    }
  }

  /** Call i of a run succeeds iff its index is not among the failing ones. */
  lemma {:induction false} CallOutcomes<E>(p: seq<E>, k: nat, failures: nat, a: seq<Arrival<E>>, failing: set<nat>)
    requires |p| > 0 && failures < MaxConsecutiveFailures
    ensures var r := RunLoop(p, k, failures, a, failing);
      forall i :: 0 <= i < |r.calls| ==> r.calls[i].ok == (k + i !in failing)
    decreases (if k < |a| then |a| - k else 0), MaxConsecutiveFailures - failures
  {
    var r := RunLoop(p, k, failures, a, failing);
    RunLoopTail(p, k, failures, a, failing);
    if |r.calls| > 1 {
      var next := if k !in failing then DuringCall(a, k) else DuringCall(a, k) + p + DuringSleep(a, k);
      var f := if k !in failing then 0 else failures + 1;
      CallOutcomes(next, k + 1, f, a, failing);
      forall i | 1 <= i < |r.calls| ensures r.calls[i].ok == (k + i !in failing) {
        assert r.calls[i] == r.calls[1..][i - 1];
      }
    }
  }

  /** Each batch of a run after the first follows from the call before it. */
  lemma {:induction false} NextBatches<E>(p: seq<E>, k: nat, failures: nat, a: seq<Arrival<E>>, failing: set<nat>)
    requires |p| > 0 && failures < MaxConsecutiveFailures
    ensures var r := RunLoop(p, k, failures, a, failing);
      forall i :: 0 <= i < |r.calls| - 1 ==> r.calls[i + 1].batch == NextBatch(r.calls[i], a, k + i)
    decreases (if k < |a| then |a| - k else 0), MaxConsecutiveFailures - failures
  {
    var r := RunLoop(p, k, failures, a, failing);
    RunLoopTail(p, k, failures, a, failing);
    if |r.calls| > 1 {
      var next := NextBatch(r.calls[0], a, k);
      var f := if k !in failing then 0 else failures + 1;
      NextBatches(next, k + 1, f, a, failing);
      var s := RunLoop(next, k + 1, f, a, failing);
      assert r.calls[1] == s.calls[0];
      forall i | 1 <= i < |r.calls| - 1
        ensures r.calls[i + 1].batch == NextBatch(r.calls[i], a, k + i)
      {
        assert r.calls[i] == s.calls[i - 1] && r.calls[i + 1] == s.calls[i];
        assert k + i == (k + 1) + (i - 1);
      }
    }
  }

  /** A run ends either on a success with nothing new in the buffer, or on a
      failure that gives up: the notice is sent and what arrived during that
      last call stays in the buffer. */
  lemma {:induction false} RunEnds<E>(p: seq<E>, k: nat, failures: nat, a: seq<Arrival<E>>, failing: set<nat>)
    requires |p| > 0 && failures < MaxConsecutiveFailures
    ensures var r := RunLoop(p, k, failures, a, failing); var n := |r.calls| - 1;
      (r.calls[n].ok && DuringCall(a, k + n) == [] && !r.notified && r.pending == []) ||
      (!r.calls[n].ok && r.notified && r.pending == DuringCall(a, k + n))
    decreases (if k < |a| then |a| - k else 0), MaxConsecutiveFailures - failures
  {
    var r := RunLoop(p, k, failures, a, failing);
    RunLoopTail(p, k, failures, a, failing);
    if |r.calls| > 1 {
      var next := if k !in failing then DuringCall(a, k) else DuringCall(a, k) + p + DuringSleep(a, k);
      var f := if k !in failing then 0 else failures + 1;
      RunEnds(next, k + 1, f, a, failing);
      var s := RunLoop(next, k + 1, f, a, failing);
      assert r.calls[|r.calls| - 1] == s.calls[|s.calls| - 1];
      assert k + (|r.calls| - 1) == (k + 1) + (|s.calls| - 1);
    }
  }

  /** The number of failed calls at the end of `calls`. */
  function TrailingFailures<E>(calls: seq<Call<E>>): nat {
    if calls == [] || calls[|calls| - 1].ok then 0 else 1 + TrailingFailures(calls[..|calls| - 1])
  }

  lemma TrailingFailuresSnoc<E>(calls: seq<Call<E>>, c: Call<E>)
    ensures TrailingFailures(calls + [c]) == if c.ok then 0 else 1 + TrailingFailures(calls)
  {
    assert (calls + [c])[..|calls|] == calls;
  }

  /** The counter is the number of trailing failures of all calls so far: the
      notice is sent exactly when a failure makes that three, and no earlier
      point of the run had three failures in a row. `before` stands for the
      calls made before this point of the run. */
  lemma {:induction false} NoticeOnThirdFailure<E>(before: seq<Call<E>>, p: seq<E>, k: nat, failures: nat,
                                                   a: seq<Arrival<E>>, failing: set<nat>)
    requires |p| > 0 && failures < MaxConsecutiveFailures && TrailingFailures(before) == failures
    ensures var r := RunLoop(p, k, failures, a, failing);
      r.notified <==> TrailingFailures(before + r.calls) == MaxConsecutiveFailures
    decreases (if k < |a| then |a| - k else 0), MaxConsecutiveFailures - failures
  {
    var r := RunLoop(p, k, failures, a, failing);
    var c := Call(p, k !in failing);
    RunLoopUnfold(p, k, failures, a, failing);
    TrailingFailuresSnoc(before, c);
    if c.ok && DuringCall(a, k) == [] {
      assert r == LoopResult([c], false, []);
    } else if !c.ok && failures + 1 == MaxConsecutiveFailures {
      assert r == LoopResult([c], true, DuringCall(a, k));
    } else {
      var f := if c.ok then 0 else failures + 1;
      var next := NextBatch(c, a, k);
      var s := RunLoop(next, k + 1, f, a, failing);
      assert r == Prepend(c, s);
      NoticeOnThirdFailure(before + [c], next, k + 1, f, a, failing);
      assert before + r.calls == (before + [c]) + s.calls;
    }
  }

  /** Before its last call a run never had three failures in a row. */
  lemma {:induction false} NeverThreeBeforeEnd<E>(before: seq<Call<E>>, p: seq<E>, k: nat, failures: nat,
                                                  a: seq<Arrival<E>>, failing: set<nat>)
    requires |p| > 0 && failures < MaxConsecutiveFailures && TrailingFailures(before) == failures
    ensures var all := before + RunLoop(p, k, failures, a, failing).calls;
      forall j :: |before| <= j < |all| ==> TrailingFailures(all[..j]) < MaxConsecutiveFailures
    decreases (if k < |a| then |a| - k else 0), MaxConsecutiveFailures - failures
  {
    var r := RunLoop(p, k, failures, a, failing);
    var c := Call(p, k !in failing);
    RunLoopUnfold(p, k, failures, a, failing);
    var all := before + r.calls;
    assert all[..|before|] == before;
    if |r.calls| > 1 {
      TrailingFailuresSnoc(before, c);
      var f := if c.ok then 0 else failures + 1;
      var s := RunLoop(NextBatch(c, a, k), k + 1, f, a, failing);
      NeverThreeBeforeEnd(before + [c], NextBatch(c, a, k), k + 1, f, a, failing);
      assert all == (before + [c]) + s.calls;
    }
  }

  /** For a whole run: the notice is sent iff the run ends with three failed
      calls in a row, and it never had three in a row before its end. */
  lemma NoticeIffThreeFailuresInARow<E>(p: seq<E>, a: seq<Arrival<E>>, failing: set<nat>)
    requires |p| > 0
    ensures var cs := RunLoop(p, 0, 0, a, failing).calls;
      && (RunLoop(p, 0, 0, a, failing).notified <==> TrailingFailures(cs) == MaxConsecutiveFailures)
      && forall j :: 0 <= j < |cs| ==> TrailingFailures(cs[..j]) < MaxConsecutiveFailures
  {
    NoticeOnThirdFailure([], p, 0, 0, a, failing);
    NeverThreeBeforeEnd([], p, 0, 0, a, failing);
    assert [] + RunLoop(p, 0, 0, a, failing).calls == RunLoop(p, 0, 0, a, failing).calls;
  }

  /** A run makes at most three calls beyond the arrivals it is given. */
  lemma {:induction false} CallsBounded<E>(p: seq<E>, k: nat, failures: nat, a: seq<Arrival<E>>, failing: set<nat>)
    requires |p| > 0 && failures < MaxConsecutiveFailures
    ensures |RunLoop(p, k, failures, a, failing).calls| <=
      if k < |a| then |a| - k + MaxConsecutiveFailures else MaxConsecutiveFailures - failures
    decreases (if k < |a| then |a| - k else 0), MaxConsecutiveFailures - failures
  {
    if k !in failing && DuringCall(a, k) != [] {
      CallsBounded(DuringCall(a, k), k + 1, 0, a, failing);
    } else if k in failing && failures + 1 < MaxConsecutiveFailures {
      CallsBounded(DuringCall(a, k) + p + DuringSleep(a, k), k + 1, failures + 1, a, failing);
    }
  }

  /** One transient failure, then success, with nothing new arriving: the
      batch is processed exactly twice and no notice is sent. */
  lemma TransientFailureThenSuccess<E>(p: seq<E>)
    requires |p| > 0
    ensures RunLoop(p, 0, 0, [], {0}) == LoopResult([Call(p, false), Call(p, true)], false, [])
  {
    var none: seq<Arrival<E>> := [];
    assert DuringCall(none, 0) + p + DuringSleep(none, 0) == p;
    assert RunLoop(p, 1, 1, none, {0}) == LoopResult([Call(p, true)], false, []);
  }

  /** Three failures with nothing new arriving: three calls on the same batch,
      the notice, and the batch is dropped. */
  lemma ThreeFailuresDrop<E>(p: seq<E>)
    requires |p| > 0
    ensures RunLoop(p, 0, 0, [], {0, 1, 2}) ==
      LoopResult([Call(p, false), Call(p, false), Call(p, false)], true, [])
  {
    var none: seq<Arrival<E>> := [];
    assert DuringCall(none, 0) + p + DuringSleep(none, 0) == p;
    assert DuringCall(none, 1) + p + DuringSleep(none, 1) == p;
    assert RunLoop(p, 2, 2, none, {0, 1, 2}) == LoopResult([Call(p, false)], true, []);
    assert RunLoop(p, 1, 1, none, {0, 1, 2}) == LoopResult([Call(p, false), Call(p, false)], true, []);
  }

  /** The counter is not per batch: a failure, a new message merged into the
      retried batch, and two more failures still give up and notify. */
  lemma FailuresOfDifferentBatchesAccumulate<E>(p: seq<E>, e: E)
    requires |p| > 0
    ensures var r := RunLoop(p, 0, 0, [Arrival([e], [])], {0, 1, 2});
      && |r.calls| == 3 && r.notified
      && r.calls[0].batch == p && r.calls[1].batch == [e] + p && r.calls[2].batch == [e] + p
  {
    var a := [Arrival([e], [])];
    var q := [e] + p;
    assert DuringCall(a, 0) + p + DuringSleep(a, 0) == q;
    assert DuringCall(a, 1) + q + DuringSleep(a, 1) == q;
    assert RunLoop(q, 2, 2, a, {0, 1, 2}) == LoopResult([Call(q, false)], true, []);
    assert RunLoop(q, 1, 1, a, {0, 1, 2}) == LoopResult([Call(q, false), Call(q, false)], true, []);
  }

  class BuddyBot {
    var buffers: map<string, MessageBuffer<Event>>
    var tasks: map<string, TaskState>

    /** Every buffer is consistent and no two chats share one. */
    ghost predicate Valid()
      reads this, buffers.Values
    {
      && (forall c :: c in buffers ==> buffers[c].Valid())
      && (forall c, d :: c in buffers && d in buffers && c != d ==> buffers[c] != buffers[d])
    }

    constructor ()
      ensures Valid() && buffers == map[] && tasks == map[]
    {
      buffers, tasks := map[], map[];
    }

    /** _get_buffer: made on first use, the same buffer afterwards. */
    method GetBuffer(chat: string) returns (buf: MessageBuffer<Event>)
      requires Valid()
      modifies this
      ensures Valid() && tasks == old(tasks)
      ensures chat in buffers && buf == buffers[chat]
      ensures chat in old(buffers) ==> buffers == old(buffers)
      ensures chat !in old(buffers) ==>
        fresh(buf) && buf.events == [] && !buf.wake && buffers == old(buffers)[chat := buf]
    {
      if chat !in buffers {
        var b := new MessageBuffer<Event>();
        buffers := buffers[chat := b];
      }
      buf := buffers[chat];
    }

    /** on_message: the event goes to the back of its chat's buffer; a
        processing task is started iff the chat has none or its last one is
        done. */
    method OnMessage(event: Event) returns (started: bool)
      requires Valid()
      modifies this, buffers.Values
      ensures Valid()
      ensures buffers.Keys == old(buffers.Keys) + {event.chatId}
      ensures buffers[event.chatId].events ==
        (if event.chatId in old(buffers) then old(buffers[event.chatId].events) else []) + [event]
      ensures buffers[event.chatId].wake
      ensures forall c :: c in old(buffers) && c != event.chatId ==>
        buffers[c] == old(buffers[c]) && buffers[c].events == old(buffers[c].events) &&
        buffers[c].wake == old(buffers[c].wake)
      ensures started <==> (event.chatId !in old(tasks) || old(tasks[event.chatId]) == Done)
      ensures tasks == if started then old(tasks)[event.chatId := Running] else old(tasks)
    {
      var chat := event.chatId;
      var buf := GetBuffer(chat);
      buf.Add(event);
      started := chat !in tasks || tasks[chat] == Done;
      if started {
        tasks := tasks[chat := Running];
      }
    }

    /** _processing_loop for one chat, from a buffer that on_message has just
        filled; the chat's asyncio task ends when it returns. */
    method ProcessingLoop(chat: string, shutdown: bool, arrivals: seq<Arrival<Event>>, failing: set<nat>)
      returns (calls: seq<Call<Event>>, notified: bool)
      requires Valid() && chat in buffers && |buffers[chat].events| > 0 && buffers[chat].wake
      modifies this, buffers[chat]
      ensures Valid() && buffers == old(buffers) && tasks == old(tasks)[chat := Done]
      ensures var r := RunLoop(old(buffers[chat].events), 0, 0, arrivals, failing);
        calls == r.calls && notified == r.notified && buffers[chat].events == r.pending
    {
      var buf := GetBuffer(chat);
      calls, notified := DrainAndProcess(buf, shutdown, arrivals, failing);
      tasks := tasks[chat := Done];
    }
  }

  /** The body of _processing_loop on the chat's buffer. */
  method DrainAndProcess(buf: MessageBuffer<Event>, shutdown: bool, arrivals: seq<Arrival<Event>>, failing: set<nat>)
    returns (calls: seq<Call<Event>>, notified: bool)
    requires buf.Valid() && |buf.events| > 0 && buf.wake
    modifies buf
    ensures buf.Valid()
    ensures var r := RunLoop(old(buf.events), 0, 0, arrivals, failing);
      calls == r.calls && notified == r.notified && buf.events == r.pending
  {
    var failures := 0;
    var k := 0;
    calls, notified := [], false;
    ghost var spec := RunLoop(buf.events, 0, 0, arrivals, failing);
    while !buf.IsEmpty() || !shutdown
      invariant buf.Valid() && |buf.events| > 0 && buf.wake
      invariant failures < MaxConsecutiveFailures && !notified
      invariant spec == Then(calls, RunLoop(buf.events, k, failures, arrivals, failing))
      decreases (if k < |arrivals| then |arrivals| - k else 0), MaxConsecutiveFailures - failures
    {
      ghost var before := calls;
      var call, giveUp;
      call, failures, giveUp := Turn(buf, k, failures, arrivals, failing);
      calls := calls + [call];
      if giveUp {
        // the notice is sent; a failure to send it is swallowed
        notified := true;
        break;
      }
      k := k + 1;
      if buf.IsEmpty() {
        break;
      }
      ThenPrepend(before, call, RunLoop(buf.events, k, failures, arrivals, failing));
    }
  }

  /** One turn of the loop, from drain to the end of the failure handling:
      the batch is taken, processed as call k, and on failure either given up
      on (third failure in a row) or put back behind what arrived meanwhile. */
  method Turn(buf: MessageBuffer<Event>, k: nat, failures: nat, arrivals: seq<Arrival<Event>>, failing: set<nat>)
    returns (call: Call<Event>, failures': nat, giveUp: bool)
    requires buf.Valid() && |buf.events| > 0 && buf.wake && failures < MaxConsecutiveFailures
    modifies buf
    ensures buf.Valid() && (buf.events != [] ==> buf.wake)
    ensures call == Call(old(buf.events), k !in failing)
    ensures failures' == if call.ok then 0 else failures + 1
    ensures giveUp <==> failures' >= MaxConsecutiveFailures
    ensures RunLoop(old(buf.events), k, failures, arrivals, failing) ==
      if giveUp || buf.events == [] then LoopResult([call], giveUp, buf.events)
      else Prepend(call, RunLoop(buf.events, k + 1, failures', arrivals, failing))
    ensures !giveUp && buf.events != [] ==> k < |arrivals| || failures' > failures
  {
    RunLoopUnfold(buf.events, k, failures, arrivals, failing);
    var events := buf.Drain();
    // the source's `if not events: break` cannot fire: the flag was up
    assert events != [];
    var ok := k !in failing;
    Deliver(buf, DuringCall(arrivals, k));
    assert buf.events == DuringCall(arrivals, k);
    call := Call(events, ok);
    if ok {
      failures', giveUp := 0, false;
    } else {
      failures' := failures + 1;
      giveUp := failures' >= MaxConsecutiveFailures;
      if !giveUp {
        Requeue(buf, events, DuringSleep(arrivals, k));
      }
    }
  }

  /** The failure path: the batch goes back behind what is pending, then the
      loop pauses while more events may arrive. */
  method Requeue(buf: MessageBuffer<Event>, events: seq<Event>, duringSleep: seq<Event>)
    requires buf.Valid() && |events| > 0
    modifies buf
    ensures buf.Valid() && buf.wake && buf.events == old(buf.events) + events + duringSleep
  {
    buf.Append(events);
    Deliver(buf, duringSleep);
  }

  /** Events reaching a buffer one by one through on_message while its loop
      runs; its task is running, so no second task is started. */
  method Deliver(buf: MessageBuffer<Event>, es: seq<Event>)
    requires buf.Valid()
    modifies buf
    ensures buf.Valid() && buf.events == old(buf.events) + es
    ensures buf.wake == (old(buf.wake) || |es| > 0)
  {
    for i := 0 to |es|
      invariant buf.Valid() && buf.events == old(buf.events) + es[..i]
      invariant buf.wake == (old(buf.wake) || i > 0)
    {
      buf.Add(es[i]);
      assert es[..i + 1] == es[..i] + [es[i]];
    }
  }
}
