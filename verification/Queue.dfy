/** backend/app/queue.py: a stream with one consumer group, its pending entries, bounded
    retry by re-enqueueing, and a dead-letter stream. */
module JobQueue {
  import opened Json
  import opened TraceModel

  const DEFAULT_MAX_ATTEMPTS := 3

  datatype Job = Job(execution: Id, version: Id, taskId: string, attempt: Positive)

  /** A stream entry. `lineage` tells which client request the job descends from; a retry
      keeps it. The program stores no such number and nothing depends on it. */
  datatype Entry = Entry(lineage: nat, job: Job)

  /** The stream and its consumer group: entries from `cursor` on have not been delivered,
      and those in `pending` were delivered and not acknowledged. A message id is the
      place of its entry in the stream. */
  datatype Group = Group(stream: seq<Entry>, cursor: nat, pending: set<nat>, dead: seq<Entry>)

  ghost predicate WellFormed(g: Group) {
    g.cursor <= |g.stream| && forall i | i in g.pending :: i < g.cursor
  }

  function Add(g: Group, e: Entry): Group {
    g.(stream := g.stream + [e])
  }

  function Deliver(g: Group): Group
    requires g.cursor < |g.stream|
  {
    g.(cursor := g.cursor + 1, pending := g.pending + {g.cursor})
  }

  function Acked(g: Group, at: nat): Group {
    g.(pending := g.pending - {at})
  }

  function Bury(g: Group, e: Entry): Group {
    g.(dead := g.dead + [e])
  }

  function Undelivered(g: Group): seq<Entry>
    requires g.cursor <= |g.stream|
  {
    g.stream[g.cursor..]
  }

  /** The same job, one attempt later. */
  function Retried(e: Entry): Entry {
    e.(job := e.job.(attempt := e.job.attempt + 1))
  }

  /** What a failed attempt leaves behind once its entry is acknowledged. */
  function Requeued(g: Group, e: Entry, maxAttempts: int): Group {
    if e.job.attempt >= maxAttempts then Bury(g, e) else Add(g, Retried(e))
  }

  /** How often a job that now has this attempt number can still be claimed. */
  function Budget(attempt: Positive, maxAttempts: int): nat {
    if attempt >= maxAttempts then 1 else maxAttempts - attempt + 1
  }

  class Queue {
    var stream: seq<Entry>
    var cursor: nat
    var pending: set<nat>
    var dead: seq<Entry>
    const maxAttempts: int

    ghost predicate Valid()
      reads this
    {
      WellFormed(View())
    }

    function View(): Group
      reads this
    {
      Group(stream, cursor, pending, dead)
    }

    constructor (maxAttempts: int)
      ensures Valid() && View() == Group([], 0, {}, []) && this.maxAttempts == maxAttempts
    {
      stream, cursor, pending, dead := [], 0, {}, [];
      this.maxAttempts := maxAttempts;
    }

    method Enqueue(e: Entry) returns (messageId: nat)
      requires Valid()
      modifies this`stream
      ensures Valid()
      ensures messageId == |old(stream)| && stream == old(stream) + [e]
    {
      messageId := |stream|;
      stream := stream + [e];
    }

    /** Hands out the oldest entry never delivered, to one caller only, and keeps it
        pending; None when there is none. */
    method Claim() returns (claimed: Option<nat>)
      requires Valid()
      modifies this`cursor, this`pending
      ensures Valid()
      ensures claimed.None? <==> old(Undelivered(View())) == []
      ensures claimed.None? ==> View() == old(View())
      ensures claimed.Some? ==>
        && claimed.value == old(cursor) < |stream|
        && [stream[claimed.value]] + Undelivered(View()) == old(Undelivered(View()))
        && claimed.value !in old(pending) && pending == old(pending) + {claimed.value}
        && cursor == old(cursor) + 1
    {
      if cursor == |stream| {
        return None;
      }
      claimed := Some(cursor);
      cursor, pending := cursor + 1, pending + {cursor};
    }

    method Ack(messageId: nat)
      requires Valid()
      modifies this`pending
      ensures Valid()
      ensures pending == old(pending) - {messageId}
    {
      pending := pending - {messageId};
    }

    /** Acknowledges, then adds the job again with the next attempt number, or dead-letters
        it once the attempts are used up. */
    method RetryOrDeadletter(messageId: nat, e: Entry) returns (retried: bool)
      requires Valid()
      modifies this`stream, this`pending, this`dead
      ensures Valid()
      ensures retried <==> e.job.attempt < maxAttempts
      ensures pending == old(pending) - {messageId}
      ensures stream == old(stream) + if retried then [Retried(e)] else []
      ensures dead == old(dead) + if retried then [] else [e]
    {
      Ack(messageId);
      if e.job.attempt >= maxAttempts {
        dead := dead + [e];
        return false;
      }
      var _ := Enqueue(Retried(e));
      return true;
    }
  }
}
