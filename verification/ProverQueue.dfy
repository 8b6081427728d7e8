/** The per-process job queue, which keeps one main task at a time. */
module ProverQueue {
  import opened Options

  class Queue<Job(==)> {
    var queue: seq<Job>
    var running: Option<Job>
    ghost var enqueued: seq<Job>
    ghost var finished: seq<Job>

    /** Jobs run one at a time, in the order they came, none lost; an idle queue has run them all. */
    ghost predicate Valid()
      reads this
    {
      && enqueued == finished + (match running case None => [] case Some(j) => [j]) + queue
      && (running.None? ==> queue == [])
    }

    constructor ()
      ensures Valid() && enqueued == [] && finished == []
    {
      queue, running, enqueued, finished := [], None, [], [];
    }

    method Enqueue(job: Job)
      requires Valid()
      modifies this
      ensures Valid() && enqueued == old(enqueued) + [job] && finished == old(finished)
      ensures old(running).Some? ==> running == old(running)
      ensures old(running).None? ==> running == Some(job)
    {
      queue := queue + [job];
      enqueued := enqueued + [job];
      Pump();
    }

    /** Starts the oldest waiting job if none is running. */
    method Pump()
      requires enqueued == finished + (match running case None => [] case Some(j) => [j]) + queue
      modifies `queue, `running
      ensures Valid()
      ensures old(running).Some? ==> running == old(running) && queue == old(queue)
      ensures old(running).None? && old(queue) != [] ==> running == Some(old(queue)[0]) && queue == old(queue)[1..]
    {
      if running.None? && queue != [] {
        running := Some(queue[0]);
        queue := queue[1..];
        assert old(queue) == [old(queue)[0]] + queue;
      }
    }

    /** The running job settled, by value or by throw. */
    method Settle()
      requires Valid() && running.Some?
      modifies this
      ensures Valid() && enqueued == old(enqueued) && finished == old(finished) + [old(running).value]
      ensures running == if old(queue) == [] then None else Some(old(queue)[0])
    {
      finished := finished + [running.value];
      running := None;
      Pump();
    }
  }
}
