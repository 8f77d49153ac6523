/** The two pure fragments of the connection worker: its start flag, which lets the
    background thread be spawned only once, and the delay it sleeps after a failed
    connection or read. Connecting, reading, cancelling and sleeping themselves are
    I/O and are not modelled. */
module Instance {
  import opened Constants

  /** The worker's bookkeeping: the settable retry hint (an `int` property, 0 until
      set), whether `StartAsync` has run, and how many threads it has started. */
  datatype Worker = Worker(retryDelay: int32, isStarted: bool, threadStarts: nat)

  /** A started worker has started exactly one thread, an unstarted one none. */
  predicate Valid(w: Worker) {
    w.threadStarts == if w.isStarted then 1 else 0
  }

  /** A freshly constructed worker. */
  function NewWorker(): (w: Worker)
    ensures Valid(w) && !w.isStarted && w.retryDelay == 0
  {
    Worker(0, false, 0)
  }

  /** `StartAsync`: the thread is started on the first call only. */
  function StartAsync(w: Worker): (r: Worker)
    ensures r.isStarted
    ensures w.isStarted ==> r == w
    ensures Valid(w) ==> Valid(r) && r.threadStarts == 1
    ensures r.retryDelay == w.retryDelay
  {
    if w.isStarted then w
    else w.(threadStarts := w.threadStarts + 1, isStarted := true)
  }

  /** Any number of further `StartAsync` calls changes nothing. */
  lemma {:induction false} StartAsyncIdempotent(w: Worker, calls: nat)
    ensures StartAsyncTimes(StartAsync(w), calls) == StartAsync(w)
    decreases calls
  {
    if calls > 0 {
      StartAsyncIdempotent(w, calls - 1);
    }
  }

  function StartAsyncTimes(w: Worker, calls: nat): Worker
    decreases calls
  {
    if calls == 0 then w else StartAsync(StartAsyncTimes(w, calls - 1))
  }

  /** The sleep after a failure: the retry hint when positive, else the default. */
  function RetrySleep(retryDelay: int32): (ms: int)
    ensures ms > 0
    ensures retryDelay > 0 ==> ms == retryDelay as int
    ensures retryDelay <= 0 ==> ms == DefaultRetry
  {
    if retryDelay > 0 then retryDelay as int else DefaultRetry
  }
}
