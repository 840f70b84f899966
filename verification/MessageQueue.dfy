/** The queues of steering and follow-up messages. */
module MessageQueue {
  import opened AgentMessages

  datatype Mode = All | OneAtATime

  datatype Queue = Queue(messages: seq<Message>, mode: Mode)

  /** What a poll takes out. */
  function Drained(q: Queue): seq<Message> {
    if q.mode == All then q.messages else if q.messages == [] then [] else [q.messages[0]]
  }

  function AfterDrain(q: Queue): Queue {
    if q.mode == All then q.(messages := [])
    else if q.messages == [] then q else q.(messages := q.messages[1..])
  }

  class PendingMessageQueue {
    var messages: seq<Message>
    var mode: Mode

    constructor (mode: Mode)
      ensures View() == Queue([], mode)
    {
      messages, this.mode := [], mode;
    }

    function View(): Queue
      reads this
    {
      Queue(messages, mode)
    }

    method Enqueue(m: Message)
      modifies this
      ensures View() == old(View()).(messages := old(messages) + [m])
    {
      messages := messages + [m];
    }

    method HasItems() returns (r: bool)
      ensures r <==> Drained(View()) != []
    {
      r := |messages| > 0;
    }

    method Drain() returns (drained: seq<Message>)
      modifies this
      ensures drained == Drained(old(View())) && View() == AfterDrain(old(View()))
      ensures drained + messages == old(messages)
    {
      if mode == All {
        drained := messages;
        messages := [];
        return;
      }
      if messages == [] {
        return [];
      }
      drained := [messages[0]];
      messages := messages[1..];
    }

    method SetMode(mode: Mode)
      modifies this
      ensures View() == old(View()).(mode := mode)
    {
      this.mode := mode;
    }

    method Clear()
      modifies this
      ensures View() == old(View()).(messages := [])
    {
      messages := [];
    }
  }

  lemma DrainSplits(q: Queue)
    ensures Drained(q) + AfterDrain(q).messages == q.messages
    ensures Drained(q) == [] <==> q.messages == []
  {
  }

  // ----- Any mix of operations -----

  datatype Op = Enqueue(m: Message) | Drain | SetMode(mode: Mode)

  /** The queue after the operations, and everything drained so far. */
  function Play(mode: Mode, ops: seq<Op>): (Queue, seq<Message>) {
    if ops == [] then (Queue([], mode), [])
    else
      var (q, delivered) := Play(mode, ops[..|ops| - 1]);
      match ops[|ops| - 1]
      case Enqueue(m) => (q.(messages := q.messages + [m]), delivered)
      case Drain => (AfterDrain(q), delivered + Drained(q))
      case SetMode(next) => (q.(mode := next), delivered)
  }

  function Enqueued(ops: seq<Op>): seq<Message> {
    if ops == [] then []
    else
      var before, op := Enqueued(ops[..|ops| - 1]), ops[|ops| - 1];
      if op.Enqueue? then before + [op.m] else before
  }

  /** No message is lost, doubled or reordered, whatever the modes. */
  lemma {:induction false} QueueConserves(mode: Mode, ops: seq<Op>)
    ensures Play(mode, ops).1 + Play(mode, ops).0.messages == Enqueued(ops)
  {
    if ops == [] {
    } else {
      var (q, delivered) := Play(mode, ops[..|ops| - 1]);
      QueueConserves(mode, ops[..|ops| - 1]);
      DrainSplits(q);
      assert delivered + (Drained(q) + AfterDrain(q).messages) == (delivered + Drained(q)) + AfterDrain(q).messages;
    }
  }

  /** What k polls take out together, and what they leave. */
  function DrainTimes(q: Queue, k: nat): (seq<Message>, Queue) {
    if k == 0 then ([], q)
    else
      var (taken, left) := DrainTimes(q, k - 1);
      (taken + Drained(left), AfterDrain(left))
  }

  /** One at a time, k polls take the first k messages; otherwise the first poll takes
      them all. */
  lemma {:induction false} PollsTake(q: Queue, k: nat)
    ensures var (taken, left) := DrainTimes(q, k);
      var n := if k == 0 then 0 else if q.mode == All || k > |q.messages| then |q.messages| else k;
      taken == q.messages[..n] && left == Queue(q.messages[n..], q.mode)
  {
    if k == 0 {
    } else {
      PollsTake(q, k - 1);
      var left := DrainTimes(q, k - 1).1;
      assert left.messages == [] ==> Drained(left) == [] && AfterDrain(left) == left;
    }
  }
}
