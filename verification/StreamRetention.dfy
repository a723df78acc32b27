/**
 * Trimming the trade stream: the group is read, then perhaps its oldest pending
 * entry, then everything below the cutoff is dropped, with deliveries and
 * acknowledgements going on in between. No entry that was not delivered, or not
 * acknowledged, is ever dropped - unless the reply hid that entries were pending.
 */
module StreamRetention {
  import opened Common

  /** Ids grow; entries above `last` have not been delivered, `pending` ones not acknowledged. */
  datatype Stream = Stream(entries: set<int>, last: nat, pending: set<int>)

  /** What the group query returned: the last delivered id, and the pending count if it could be read. */
  datatype GroupReply = GroupReply(last: nat, pending: Option<nat>)

  datatype Phase = Idle | GotGroup(reply: GroupReply) | GotCutoff(cutoff: nat)

  /** `appended` and `acked` are what ever was: the history the guarantee is about. */
  datatype State = State(stream: Stream, phase: Phase, appended: set<int>, acked: set<int>)

  datatype Step =
    | Append(id: int)
    | Deliver(id: int)
    | Ack(id: int)
    | ReadGroup(reply: GroupReply)
    | ReadPending
    | Trim
    | GiveUp

  predicate IsNext(s: Stream, id: int) {
    id in s.entries && id > s.last && forall e :: e in s.entries && e > s.last ==> id <= e
  }

  predicate Truthful(s: Stream, reply: GroupReply) {
    reply.last == s.last && reply.pending == Some(|s.pending|)
  }

  predicate Enabled(st: State, step: Step) {
    match step
    case Append(id) => id > st.stream.last && forall e :: e in st.appended ==> e < id
    case Deliver(id) => IsNext(st.stream, id)
    case Ack(id) => id in st.stream.pending
    case ReadGroup(reply) => st.phase == Idle && reply.last == st.stream.last
    case ReadPending => st.phase.GotGroup?
    case Trim => st.phase.GotCutoff?
    case GiveUp => true
  }

  predicate IsOldest(pending: set<int>, id: int) {
    id in pending && forall p :: p in pending ==> id <= p
  }

  lemma Member<T>(s: set<T>) returns (x: T)
    requires s != {}
    ensures x in s
  {
    x :| x in s;
  }

  lemma {:induction false} OldestExists(pending: set<int>) returns (id: int)
    requires pending != {}
    ensures IsOldest(pending, id)
    decreases |pending|
  {
    var p := Member(pending);
    if pending == {p} {
      id := p;
    } else {
      var q := OldestExists(pending - {p});
      id := if p < q then p else q;
      forall r | r in pending
        ensures id <= r
      {
        assert r == p || r in pending - {p};
      }
    }
  }

  /** The oldest pending id; only asked for when something is pending. */
  ghost function Oldest(pending: set<int>): int
    requires pending != {}
  {
    assert exists id :: IsOldest(pending, id) by {
      var id := OldestExists(pending);
    }
    var id :| IsOldest(pending, id);
    id
  }

  /** After the group query: no cutoff without a delivery; a pending count above zero asks for the oldest one first. */
  function PhaseAfter(reply: GroupReply): Phase {
    if reply.last == 0 then Idle
    else if reply.pending.Some? && reply.pending.value > 0 then GotGroup(reply)
    else GotCutoff(reply.last)
  }

  ghost function Next(st: State, step: Step): State
    requires Enabled(st, step)
  {
    var s := st.stream;
    match step
    case Append(id) => st.(stream := s.(entries := s.entries + {id}), appended := st.appended + {id})
    case Deliver(id) => st.(stream := s.(last := id, pending := s.pending + {id}))
    case Ack(id) => st.(stream := s.(pending := s.pending - {id}), acked := st.acked + {id})
    case ReadGroup(reply) => st.(phase := PhaseAfter(reply))
    case ReadPending =>
      st.(phase := if s.pending == {} then Idle else GotCutoff(if Oldest(s.pending) >= 0 then Oldest(s.pending) else 0))
    case Trim => st.(stream := s.(entries := set e | e in s.entries && e >= st.phase.cutoff), phase := Idle)
    case GiveUp => st.(phase := Idle)
  }

  /** Nothing below the cutoff is undelivered or unacknowledged. */
  predicate SafeCutoff(s: Stream, cutoff: nat) {
    cutoff <= s.last && forall p :: p in s.pending ==> cutoff <= p
  }

  ghost predicate Inv(st: State) {
    var s := st.stream;
    && (forall p :: p in s.pending ==> 0 < p <= s.last)
    && (forall e :: e in st.appended ==> e in s.entries || e in st.acked)
    && (forall e :: e in s.entries ==> e in st.appended)
    && (forall e :: e in s.entries && e <= s.last ==> e in s.pending || e in st.acked)
    && (st.phase.GotGroup? ==> st.phase.reply.last <= s.last)
    && (st.phase.GotCutoff? ==> SafeCutoff(s, st.phase.cutoff))
  }

  /** A group query is safe to act on when it tells the truth, or nothing is pending below the last delivered id. */
  predicate SafeReply(s: Stream, reply: GroupReply) {
    PhaseAfter(reply).GotCutoff? ==> forall p :: p in s.pending ==> reply.last <= p
  }

  lemma TruthfulIsSafe(s: Stream, reply: GroupReply)
    requires Truthful(s, reply)
    ensures SafeReply(s, reply)
  {
    if reply.pending == Some(0) {
      assert s.pending == {};
    }
  }

  lemma StepKeepsInv(st: State, step: Step)
    requires Inv(st) && Enabled(st, step)
    requires step.ReadGroup? ==> SafeReply(st.stream, step.reply)
    ensures Inv(Next(st, step))
  {
    match step
    case Append(id) =>
    case Deliver(id) =>
    case Ack(id) =>
    case ReadGroup(reply) =>
    case ReadPending =>
      if st.stream.pending != {} {
        assert IsOldest(st.stream.pending, Oldest(st.stream.pending));
      }
    case Trim =>
    case GiveUp =>
  }

  ghost predicate Runs(st: State, steps: seq<Step>)
    decreases steps
  {
    steps == [] ||
    (Enabled(st, steps[0]) && (steps[0].ReadGroup? ==> Truthful(st.stream, steps[0].reply)) && Runs(Next(st, steps[0]), steps[1..]))
  }

  ghost function After(st: State, steps: seq<Step>): State
    requires Runs(st, steps)
    decreases steps
  {
    if steps == [] then st else After(Next(st, steps[0]), steps[1..])
  }

  const EMPTY := State(Stream({}, 0, {}), Idle, {}, {})

  lemma {:induction false} RunKeepsInv(st: State, steps: seq<Step>)
    requires Inv(st) && Runs(st, steps)
    ensures Inv(After(st, steps))
    decreases steps
  {
    if steps != [] {
      if steps[0].ReadGroup? {
        TruthfulIsSafe(st.stream, steps[0].reply);
      }
      StepKeepsInv(st, steps[0]);
      RunKeepsInv(Next(st, steps[0]), steps[1..]);
    }
  }

  /**
   * With truthful group replies, under any interleaving, every entry ever
   * appended is still in the stream or has been acknowledged: trimming never
   * drops an undelivered or unacknowledged entry.
   */
  lemma NothingUnacknowledgedIsDropped(steps: seq<Step>, id: int)
    requires Runs(EMPTY, steps) && id in After(EMPTY, steps).appended && id !in After(EMPTY, steps).acked
    ensures id in After(EMPTY, steps).stream.entries
  {
    RunKeepsInv(EMPTY, steps);
  }

  /**
   * With truthful replies and nothing in between, trimming drops exactly what is
   * older than everything still pending, or, when nothing is pending, than the
   * last delivered entry; a group that was never delivered to drops nothing.
   */
  lemma TrimDropsExactly(st: State, reply: GroupReply)
    requires Inv(st) && Enabled(st, ReadGroup(reply)) && Truthful(st.stream, reply)
    ensures
      var s, asked := st.stream, Next(st, ReadGroup(reply));
      if s.last == 0 then asked == st
      else if s.pending == {} then
        Enabled(asked, Trim) && forall e :: e in Next(asked, Trim).stream.entries <==> e in s.entries && e >= s.last
      else
        Enabled(asked, ReadPending) && Enabled(Next(asked, ReadPending), Trim) &&
        forall e :: e in Next(Next(asked, ReadPending), Trim).stream.entries <==> e in s.entries && exists p :: p in s.pending && p <= e
  {
    var s := st.stream;
    if s.last > 0 && s.pending != {} {
      assert |s.pending| > 0;
      var oldest := Oldest(s.pending);
      assert IsOldest(s.pending, oldest) && oldest > 0;
    }
  }

  /**
   * A reply whose pending count is missing or unreadable is taken as zero. Acting
   * on it at once drops an unacknowledged entry exactly when a pending entry that
   * is still in the stream lies below the last delivered one.
   */
  lemma MalformedReplyDropsIff(st: State, reply: GroupReply)
    requires Inv(st) && Enabled(st, ReadGroup(reply)) && reply.pending.None? && reply.last > 0
    ensures Enabled(Next(st, ReadGroup(reply)), Trim)
    ensures
      var after := Next(Next(st, ReadGroup(reply)), Trim).stream;
      (exists p :: p in st.stream.pending && p in st.stream.entries && p !in after.entries) <==>
      (exists p :: p in st.stream.pending && p in st.stream.entries && p < st.stream.last)
  {
    var after := Next(Next(st, ReadGroup(reply)), Trim).stream;
    assert forall p :: p in after.entries <==> p in st.stream.entries && p >= reply.last;
  }
}
