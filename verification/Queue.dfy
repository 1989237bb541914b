/** The output pipeline: a bounded queue drained by one worker (concurrency.go), and the short-write
    retry loop that puts a line on the output stream (tracer_printer.go:51-83). Concurrency is modelled by
    the atomic steps of producer, worker and closer; every interleaving is a run of such steps. */
module Queue {
  import opened Wrappers
  import opened Bytes

  // ---------------------------------------------------------------- writing one line

  const MAX_WRITE_ATTEMPTS := 10

  /** The stream an output writer writes to. `accepts` scripts how many bytes each coming write takes at most. */
  class Writer {
    var written: Bytes
    var accepts: seq<nat>

    constructor (accepts: seq<nat>)
      ensures written == [] && this.accepts == accepts
    {
      written := [];
      this.accepts := accepts;
    }

    /** One write call, possibly short. A writer out of script takes nothing. */
    method Write(data: Bytes) returns (n: nat)
      modifies this
      ensures n == if |old(accepts)| == 0 then 0 else if old(accepts)[0] < |data| then old(accepts)[0] else |data|
      ensures n <= |data| && written == old(written) + data[..n]
      ensures accepts == if |old(accepts)| == 0 then [] else old(accepts)[1..]
    {
      n := if |accepts| == 0 then 0 else if accepts[0] < |data| then accepts[0] else |data|;
      written := written + data[..n];
      accepts := if |accepts| == 0 then [] else accepts[1..];
    }
  }

  /** How much of `size` bytes is still unwritten after `attempts` writes. */
  function Unwritten(accepts: seq<nat>, size: nat, attempts: nat): (rest: nat)
    ensures rest <= size
  {
    if attempts == 0 || size == 0 || |accepts| == 0 then size
    else Unwritten(accepts[1..], if accepts[0] < size then size - accepts[0] else 0, attempts - 1)
  }

  /** Total size of the first `attempts` acceptances. */
  function Capacity(accepts: seq<nat>, attempts: nat): nat {
    if attempts == 0 || |accepts| == 0 then 0 else accepts[0] + Capacity(accepts[1..], attempts - 1)
  }

  lemma {:induction false} UnwrittenIs(accepts: seq<nat>, size: nat, attempts: nat)
    ensures Unwritten(accepts, size, attempts)
         == if Capacity(accepts, attempts) < size then size - Capacity(accepts, attempts) else 0
    decreases attempts
  {
    if attempts > 0 && size > 0 && |accepts| > 0 {
      UnwrittenIs(accepts[1..], if accepts[0] < size then size - accepts[0] else 0, attempts - 1);
    }
  }

  /** Writes a line whole across short writes, or reports the panic with only a strict prefix written. It
      succeeds exactly when the first ten writes together take the whole line. */
  method FlushToFirehose(w: Writer, data: Bytes) returns (r: Result<()>)
    modifies w
    ensures r.Ok? <==> Capacity(old(w.accepts), MAX_WRITE_ATTEMPTS) >= |data|
    ensures r.Ok? ==> w.written == old(w.written) + data
    ensures r.Panic? ==> exists k :: 0 <= k < |data| && w.written == old(w.written) + data[..k]
  {
    var rest := data;
    ghost var start, script := w.written, w.accepts;
    UnwrittenIs(script, |data|, MAX_WRITE_ATTEMPTS);
    for attempt := 0 to MAX_WRITE_ATTEMPTS
      invariant |rest| <= |data| && rest == data[|data| - |rest|..]
      invariant w.written == start + data[..|data| - |rest|]
      invariant Unwritten(w.accepts, |rest|, MAX_WRITE_ATTEMPTS - attempt)
        == Unwritten(script, |data|, MAX_WRITE_ATTEMPTS)
      invariant attempt > 0 ==> |rest| > 0
    {
      var n := w.Write(rest);
      assert data[..|data| - |rest|] + rest[..n] == data[..|data| - |rest| + n];
      rest := rest[n..];
      if |rest| == 0 {
        assert data[..|data|] == data;
        return Ok(());
      }
    }
    assert w.written == start + data[..|data| - |rest|];
    return Panic;
  }

  // ---------------------------------------------------------------- the queue as a state machine

  datatype Worker = Waiting | Writing(line: Bytes) | Exited

  /** `pushed` and `written` are the histories of lines pushed and of lines written whole; `stream` is what
      reached the output; `crashed` means that a write panicked. */
  datatype Pipeline = Pipeline(capacity: nat, queue: seq<Bytes>, worker: Worker, closed: bool, crashed: bool,
                               pushed: seq<Bytes>, written: seq<Bytes>, stream: Bytes)

  datatype Step =
    | Push(line: Bytes)
    | Close
    | Take
    | Finish
    | Crash(prefix: nat)
    | Exit

  /** The queue with its worker just started. */
  function Started(capacity: nat): (p: Pipeline)
    ensures InOrder(p)
  {
    Pipeline(capacity, [], Waiting, false, false, [], [], [])
  }

  /** Steps of any party, when they can happen: a push waits for room, the worker's loop ends when the
      closed queue is empty, and after a panic nothing happens any more. */
  predicate Enabled(p: Pipeline, s: Step) {
    !p.crashed && match s
    case Push(_) => !p.closed && |p.queue| < p.capacity
    case Close => true
    case Take => p.worker.Waiting? && |p.queue| > 0
    case Finish => p.worker.Writing?
    case Crash(prefix) => p.worker.Writing? && prefix < |p.worker.line|
    case Exit => p.worker.Waiting? && p.closed && |p.queue| == 0
  }

  function Next(p: Pipeline, s: Step): Pipeline
    requires Enabled(p, s)
  {
    match s
    case Push(line) => p.(queue := p.queue + [line], pushed := p.pushed + [line])
    case Close => p.(closed := true)
    case Take => p.(queue := p.queue[1..], worker := Writing(p.queue[0]))
    case Finish => p.(worker := Waiting, written := p.written + [p.worker.line], stream := p.stream + p.worker.line)
    case Crash(prefix) => p.(crashed := true, stream := p.stream + p.worker.line[..prefix])
    case Exit => p.(worker := Exited)
  }

  predicate Runs(p: Pipeline, steps: seq<Step>)
    decreases |steps|
  {
    |steps| > 0 ==> Enabled(p, steps[0]) && Runs(Next(p, steps[0]), steps[1..])
  }

  function After(p: Pipeline, steps: seq<Step>): Pipeline
    requires Runs(p, steps)
    decreases |steps|
  {
    if |steps| == 0 then p else After(Next(p, steps[0]), steps[1..])
  }

  function InProgress(w: Worker): seq<Bytes> { if w.Writing? then [w.line] else [] }

  /** What writing lines one after the other puts on the stream. */
  function Flat(lines: seq<Bytes>): Bytes {
    if |lines| == 0 then [] else Flat(lines[..|lines| - 1]) + lines[|lines| - 1]
  }

  /** Everything pushed is, in order, written, in progress or queued; the stream holds the written lines, and
      after a panic a strict prefix of the line in progress. */
  ghost predicate InOrder(p: Pipeline) {
    && p.pushed == p.written + InProgress(p.worker) + p.queue
    && |p.queue| <= p.capacity
    && (p.worker.Exited? ==> p.closed && |p.queue| == 0)
    && (!p.crashed ==> p.stream == Flat(p.written))
    && (p.crashed ==> p.worker.Writing?
                      && exists k :: 0 <= k < |p.worker.line| && p.stream == Flat(p.written) + p.worker.line[..k])
  }

  lemma StepInOrder(p: Pipeline, s: Step)
    requires InOrder(p) && Enabled(p, s)
    ensures InOrder(Next(p, s))
  {
    match s
    case Push(line) =>
      assert p.written + InProgress(p.worker) + (p.queue + [line])
          == (p.written + InProgress(p.worker) + p.queue) + [line];
    case Take =>
      assert p.queue == [p.queue[0]] + p.queue[1..];
    case Finish =>
      assert (p.written + [p.worker.line])[..|p.written|] == p.written;
    case _ => {}
  }

  /** Whatever the interleaving of producer, worker and closer, the queue refines writing in order: nothing is
      lost, duplicated or reordered, lines reach the stream whole, and once the worker has exited, which is
      what closing waits for, the stream is exactly that of writing the pushed lines synchronously. */
  lemma {:induction false} QueueRefinesSynchronous(p: Pipeline, steps: seq<Step>)
    requires InOrder(p) && Runs(p, steps)
    ensures var q := After(p, steps);
      InOrder(q) && (q.worker.Exited? ==> q.written == q.pushed && q.stream == Flat(q.pushed))
    decreases |steps|
  {
    if |steps| == 0 {
      if p.worker.Exited? {
        assert p.written + [] + [] == p.written;
      }
    } else {
      StepInOrder(p, steps[0]);
      QueueRefinesSynchronous(Next(p, steps[0]), steps[1..]);
    }
  }

  /** Worker steps left before a closed queue is drained. */
  function Remaining(p: Pipeline): nat {
    2 * |p.queue| + match p.worker case Waiting => 1 case Writing(_) => 2 case Exited => 0
  }

  predicate IsWorkerStep(s: Step) { s.Take? || s.Finish? || s.Exit? }

  /** Closing terminates: until the worker has exited it can always move, each of its moves brings the end
      closer, and the other parties cannot push it away. */
  lemma DrainTerminates(p: Pipeline)
    requires p.closed && !p.crashed && InOrder(p)
    ensures !p.worker.Exited? ==> exists s :: IsWorkerStep(s) && Enabled(p, s)
    ensures forall s :: IsWorkerStep(s) && Enabled(p, s) ==> Remaining(Next(p, s)) < Remaining(p)
    ensures forall s :: Enabled(p, s) ==> Remaining(Next(p, s)) <= Remaining(p)
    ensures Remaining(p) == 0 <==> p.worker.Exited?
  {
    if !p.worker.Exited? {
      var s := if p.worker.Writing? then Finish else if |p.queue| > 0 then Take else Exit;
      assert IsWorkerStep(s) && Enabled(p, s);
    }
  }

  /** A full queue never blocks for good: the worker can move, and its next moves make room. */
  lemma FullQueueMoves(p: Pipeline)
    requires InOrder(p) && !p.crashed && !p.closed && p.capacity > 0 && |p.queue| == p.capacity
    ensures exists steps :: Runs(p, steps) && |After(p, steps).queue| < p.capacity
  {
    if p.worker.Writing? {
      var steps := [Finish, Take];
      var p1 := Next(p, Finish);
      assert steps[1..] == [Take] && [Take][1..] == [];
      assert Runs(p1, [Take]) && Runs(p, steps);
      assert After(p1, [Take]) == Next(p1, Take);
      assert After(p, steps) == Next(p1, Take);
    } else {
      var steps := [Take];
      assert steps[1..] == [];
      assert Runs(p, steps);
      assert After(p, steps) == Next(p, Take);
    }
  }

  // ---------------------------------------------------------------- the queue object

  /** From `start`, the stream got the first lines whole and then a strict prefix of the next one. */
  ghost predicate Torn(lines: seq<Bytes>, start: Bytes, stream: Bytes) {
    exists n, k | 0 <= n < |lines| && 0 <= k < |lines[n]| :: stream == start + Flat(lines[..n]) + lines[n][..k]
  }

  lemma TornInLonger(lines: seq<Bytes>, line: Bytes, start: Bytes, stream: Bytes)
    requires Torn(lines, start, stream)
    ensures Torn(lines + [line], start, stream)
  {
    var n, k :| 0 <= n < |lines| && 0 <= k < |lines[n]| && stream == start + Flat(lines[..n]) + lines[n][..k];
    assert (lines + [line])[..n] == lines[..n] && (lines + [line])[n] == lines[n];
  }

  /** From `start`, the stream got the first `n` lines whole. */
  ghost predicate Wrote(lines: seq<Bytes>, n: nat, start: Bytes, stream: Bytes) {
    n <= |lines| && stream == start + Flat(lines[..n])
  }

  lemma OneMore(lines: seq<Bytes>, line: Bytes, n: nat)
    requires n <= |lines|
    ensures (lines + [line])[..n] == lines[..n] && (lines + [line])[n..] == lines[n..] + [line]
  {
  }

  lemma FlatOne(line: Bytes)
    ensures Flat([line]) == line && [] + [line] == [line] && [line][..1] == [line]
  {
    assert [line][..0] == [];
  }

  /** The queue with its worker. How far the worker gets before the caller goes on is up to the scheduler: `turns`. */
  class ConcurrentFlushQueue {
    const bufferSize: nat
    var jobQueue: seq<Bytes>
    var closed: bool
    var exited: bool
    const writer: Writer

    ghost predicate Valid()
      reads this
    {
      |jobQueue| <= bufferSize && (exited ==> closed && jobQueue == [])
    }

    constructor (bufferSize: nat, writer: Writer)
      ensures Valid() && this.bufferSize == bufferSize && this.writer == writer && jobQueue == [] && !closed && !exited
    {
      this.bufferSize, this.writer := bufferSize, writer;
      jobQueue, closed, exited := [], false, false;
    }

    /** The worker's loop for a number of turns: it writes queued lines in order, waits on an open queue that is
        empty, and exits on a closed one. It stops at the first line whose write panics. */
    method RunWorker(turns: nat) returns (r: Result<()>)
      requires Valid() && !exited
      modifies this`jobQueue, this`exited, writer
      ensures Valid()
      ensures var lines, n := old(jobQueue), if turns < |old(jobQueue)| then turns else |old(jobQueue)|;
        r.Ok? ==> jobQueue == lines[n..] && Wrote(lines, n, old(writer.written), writer.written)
                  && (exited <==> closed && |lines| < turns)
      ensures r.Panic? ==> !exited && Torn(old(jobQueue), old(writer.written), writer.written)
    {
      ghost var lines, start := jobQueue, writer.written;
      var n := 0;
      assert start + Flat(lines[..0]) == start;
      while n < turns && |jobQueue| > 0
        invariant 0 <= n <= |lines| && n <= turns && jobQueue == lines[n..] && !exited
        invariant Wrote(lines, n, start, writer.written)
      {
        var line := jobQueue[0];
        jobQueue := jobQueue[1..];
        var ok := FlushToFirehose(writer, line);
        if ok.Panic? {
          return Panic;
        }
        assert lines[..n + 1][..n] == lines[..n];
        assert Flat(lines[..n + 1]) == Flat(lines[..n]) + line;
        n := n + 1;
      }
      exited := closed && n < turns;
      return Ok(());
    }

    /** A send on the channel; on a closed channel it panics. While there is no room the caller is blocked, and goes
        on once the worker has taken a line; without a buffer the worker takes the line itself. Whatever the worker
        did meanwhile, the lines written and those still queued are the earlier ones and this one, in order. */
    method Push(line: Bytes, turns: nat) returns (r: Result<()>)
      requires Valid()
      modifies this`jobQueue, this`exited, writer
      ensures Valid() && exited == old(exited)
      ensures closed ==> r.Panic? && jobQueue == old(jobQueue) && writer.written == old(writer.written)
      ensures var lines := old(jobQueue) + [line];
        !closed && r.Ok? ==> |jobQueue| <= |lines| && jobQueue == lines[|lines| - |jobQueue|..]
                             && Wrote(lines, |lines| - |jobQueue|, old(writer.written), writer.written)
      ensures !closed && r.Panic? ==> Torn(old(jobQueue) + [line], old(writer.written), writer.written)
    {
      if closed {
        return Panic;
      }
      ghost var before, start := jobQueue, writer.written;
      var needed := if |jobQueue| == bufferSize then 1 else 0;
      r := RunWorker(if turns < needed then needed else turns);
      if r.Panic? {
        TornInLonger(before, line, start, writer.written);
        return;
      }
      ghost var n := |before| - |jobQueue|;
      OneMore(before, line, n);
      if bufferSize == 0 {
        FlatOne(line);
        r := FlushToFirehose(writer, line);
        return;
      }
      jobQueue := jobQueue + [line];
    }

    /** Closes the channel and waits for the worker; closing again does nothing. */
    method Close() returns (r: Result<()>)
      requires Valid() && (closed <==> exited)
      modifies this`closed, this`jobQueue, this`exited, writer
      ensures Valid() && closed
      ensures old(closed) ==> r.Ok? && writer.written == old(writer.written) && jobQueue == old(jobQueue)
      ensures !old(closed) && r.Ok? ==> exited && jobQueue == []
                                        && writer.written == old(writer.written) + Flat(old(jobQueue))
      ensures !old(closed) && r.Panic? ==> !exited && Torn(old(jobQueue), old(writer.written), writer.written)
    {
      if closed {
        return Ok(());
      }
      closed := true;
      ghost var lines := jobQueue;
      r := RunWorker(|jobQueue| + 1);
      assert lines[..|lines|] == lines;
    }
  }
}
