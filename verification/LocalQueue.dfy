/**
 The cooperative scheduler of the client's local file work: one task is worked on at a time, in
 slices driven by a zero-interval timer, the others wait in a queue.
 */
module LocalQueue {
  import opened Wrappers

  type Token = string

  /** What the slice of the current task came to. */
  datatype SliceOutcome = StillWorking | WorkDone | TaskEnds

  function Without(q: seq<Token>, t: Token): seq<Token> {
    if q == [] then [] else (if q[0] == t then [] else [q[0]]) + Without(q[1..], t)
  }

  ghost predicate Distinct(q: seq<Token>) {
    forall i, j :: 0 <= i < j < |q| ==> q[i] != q[j]
  }

  lemma {:induction false} WithoutMembers(q: seq<Token>, t: Token)
    ensures forall x :: x in Without(q, t) <==> x in q && x != t
  {
    if q != [] {
      WithoutMembers(q[1..], t);
    }
  }

  lemma {:induction false} WithoutAbsent(q: seq<Token>, t: Token)
    requires t !in q
    ensures Without(q, t) == q
  {
    if q != [] {
      WithoutAbsent(q[1..], t);
    }
  }

  lemma {:induction false} WithoutDistinct(q: seq<Token>, t: Token)
    requires Distinct(q)
    ensures Distinct(Without(q, t))
  {
    if q != [] {
      WithoutDistinct(q[1..], t);
      WithoutMembers(q[1..], t);
      assert q[0] !in q[1..];
      DistinctOneMore(q[0], Without(q[1..], t));
    }
  }

  lemma DistinctOneMore(x: Token, q: seq<Token>)
    requires Distinct(q) && x !in q
    ensures Distinct([x] + q)
  {
  }

  lemma WithoutFirst(q: seq<Token>)
    requires Distinct(q) && q != []
    ensures Without(q, q[0]) == q[1..]
  {
    assert q[0] !in q[1..];
    WithoutAbsent(q[1..], q[0]);
  }

  lemma WithoutHead(q: seq<Token>, t: Token)
    ensures q == [] ==> Without(q, t) == []
    ensures q != [] && q[0] != t ==> Without(q, t) == [q[0]] + Without(q[1..], t)
  {
  }

  /** The two things that happen to the tasks owning local work: one more at the end, one less anywhere. */
  datatype QueueOp = Append(token: Token) | Drop(token: Token)

  function Apply(q: seq<Token>, ops: seq<QueueOp>): seq<Token>
    decreases |ops|
  {
    if ops == [] then q
    else
      match ops[0]
      case Append(t) => Apply(q + [t], ops[1..])
      case Drop(t) => Apply(Without(q, t), ops[1..])
  }

  lemma {:induction false} ApplySplits(q: seq<Token>, ops: seq<QueueOp>, more: seq<QueueOp>)
    ensures Apply(q, ops + more) == Apply(Apply(q, ops), more)
    decreases |ops|
  {
    if ops == [] {
      assert ops + more == more;
    } else {
      assert (ops + more)[1..] == ops[1..] + more;
      match ops[0] {
        case Append(t) => ApplySplits(q + [t], ops[1..], more);
        case Drop(t) => ApplySplits(Without(q, t), ops[1..], more);
      }
    }
  }

  lemma OneMoreOp(ops: seq<QueueOp>, token: Token)
    ensures Apply([], ops + [Append(token)]) == Apply([], ops) + [token]
    ensures Apply([], ops + [Drop(token)]) == Without(Apply([], ops), token)
  {
    ApplySplits([], ops, [Append(token)]);
    ApplySplits([], ops, [Drop(token)]);
  }

  /** The tasks owning work are those of the queue, each once, and live, but for one that is about to go. */
  ghost predicate Consistent(q: seq<Token>, tasks: map<Token, bool>, owners: set<Token>, leaving: Option<Token>) {
    && Distinct(q)
    && (forall t :: t in q <==> t in owners)
    && (forall t <- q :: leaving == Some(t) || (t in tasks && !tasks[t]))
  }

  lemma DropLeaving(q: seq<Token>, tasks: map<Token, bool>, owners: set<Token>, token: Token)
    requires Consistent(q, tasks, owners, Some(token))
    ensures Consistent(Without(q, token), tasks, owners - {token}, None)
    ensures token !in Without(q, token) && Without(Without(q, token), token) == Without(q, token)
  {
    hide Without, Distinct;
    WithoutMembers(q, token);
    WithoutDistinct(q, token);
    WithoutAbsent(Without(q, token), token);
  }

  /** A task may start leaving, whatever becomes of its own entry. */
  lemma StartLeaving(q: seq<Token>, tasks: map<Token, bool>, after: map<Token, bool>, owners: set<Token>, token: Token)
    requires Consistent(q, tasks, owners, None) && after - {token} == tasks - {token}
    ensures Consistent(q, after, owners, Some(token))
    ensures token !in q ==> Consistent(q, after, owners, None)
  {
    forall t | t in q && t != token
      ensures t in after && !after[t]
    {
      assert t in tasks - {token} && t in after - {token} && (after - {token})[t] == (tasks - {token})[t];
    }
  }

  lemma JoinKeeps(q: seq<Token>, tasks: map<Token, bool>, owners: set<Token>, token: Token)
    requires Consistent(q, tasks, owners, None) && token in tasks && !tasks[token] && token !in owners
    ensures Consistent(q + [token], tasks, owners + {token}, None)
  {
  }

  lemma AllLive(q: seq<Token>, tasks: map<Token, bool>, owners: set<Token>)
    requires Consistent(q, tasks, owners, None)
    ensures forall t <- q :: t in tasks && !tasks[t] && t in owners
  {
  }

  class LocalPump {
    var tasks: map<Token, bool> // token -> cancelled
    var hashing: set<Token>
    var saving: set<Token>
    var localToken: Option<Token>
    var pending: seq<Token>
    var pumping: bool
    ghost var history: seq<QueueOp> // since the last reset

    constructor ()
      ensures Valid() && Queue() == [] && tasks == map[] && history == []
    {
      tasks, hashing, saving, localToken, pending, pumping := map[], {}, {}, None, [], false;
      history := [];
    }

    /** The task being worked on, then those waiting. */
    function Queue(): seq<Token>
      reads this
    {
      (if localToken.Some? then [localToken.value] else []) + pending
    }

    /** Whoever waits, someone is worked on and the timer runs; the queue is what its history made it. */
    ghost predicate InShape()
      reads this
    {
      && (localToken == None ==> pending == [])
      && (Queue() != [] ==> pumping)
      && Queue() == Apply([], history)
    }

    ghost predicate Valid()
      reads this
    {
      InShape() && Consistent(Queue(), tasks, hashing + saving, None)
    }

    /** Takes the first waiting task that still has work. */
    method AdvanceLocalWork()
      modifies this`localToken, this`pending
      ensures (forall t <- old(pending) :: t in tasks && !tasks[t] && t in hashing + saving) ==> Queue() == old(pending)
      ensures localToken == None ==> pending == []
    {
      localToken := None;
      ghost var waiting := pending;
      while pending != []
        invariant localToken == None
        invariant (forall t <- waiting :: t in tasks && !tasks[t] && t in hashing + saving) ==> pending == waiting
        decreases |pending|
      {
        var next := pending[0];
        pending := pending[1..];
        if next !in tasks || tasks[next] {
          assert next in waiting || !(forall t <- waiting :: t in tasks && !tasks[t] && t in hashing + saving);
          continue;
        }
        if next !in hashing && next !in saving {
          assert next in waiting || !(forall t <- waiting :: t in tasks && !tasks[t] && t in hashing + saving);
          continue;
        }
        localToken := Some(next);
        return;
      }
    }

    method AddTask(token: Token)
      requires Valid() && token !in tasks && token !in hashing + saving
      modifies this`tasks
      ensures Valid() && Queue() == old(Queue()) && tasks == old(tasks)[token := false]
    {
      tasks := tasks[token := false];
    }

    method EnqueueLocalWork(token: Token)
      requires InShape() && Consistent(Queue() + [token], tasks, hashing + saving, None)
      modifies this`localToken, this`pending, this`pumping, this`history
      ensures Valid() && Queue() == old(Queue()) + [token] && history == old(history) + [Append(token)]
    {
      OneMoreOp(history, token);
      hide Apply;
      history := history + [Append(token)];
      ghost var after := Queue() + [token];
      pending := pending + [token];
      if localToken == None {
        assert pending == after;
        AdvanceLocalWork();
      }
      assert Queue() == after;
      pumping := true;
    }

    /** A task enters its hashing or saving phase. */
    method Begin(token: Token, isHash: bool)
      requires Valid() && token in tasks && token !in hashing + saving
      modifies this
      ensures Valid() && tasks == old(tasks)
      ensures Queue() == if tasks[token] then old(Queue()) else old(Queue()) + [token]
      ensures history == old(history) + if tasks[token] then [] else [Append(token)]
    {
      hide Apply, Consistent, Distinct;
      if tasks[token] {
        return;
      }
      JoinKeeps(Queue(), tasks, hashing + saving, token);
      assert hashing + {token} + saving == hashing + saving + {token} == hashing + (saving + {token});
      if isHash {
        hashing := hashing + {token};
      } else {
        saving := saving + {token};
      }
      EnqueueLocalWork(token);
    }

    /** Releases whatever local work a task owns, wherever it stands in the queue. */
    method ClearLocalStateForToken(token: Token)
      requires InShape() && Consistent(Queue(), tasks, hashing + saving, Some(token))
      modifies this`hashing, this`saving, this`localToken, this`pending, this`history
      ensures Valid() && Queue() == Without(old(Queue()), token) && history == old(history) + [Drop(token)]
      ensures hashing == old(hashing) - {token} && saving == old(saving) - {token}
    {
      hide Without, Apply, Consistent;
      ghost var before, rest := Queue(), Without(Queue(), token);
      OneMoreOp(history, token);
      DropLeaving(before, tasks, hashing + saving, token);
      AllLive(rest, tasks, hashing + saving - {token});
      WithoutHead(before, token);
      FirstLeaves(before, token, tasks, hashing + saving);
      history := history + [Drop(token)];
      assert localToken.Some? ==> before[0] == localToken.value && before[1..] == pending;
      assert hashing - {token} + (saving - {token}) == hashing + saving - {token};
      hashing := hashing - {token};
      saving := saving - {token};
      if localToken == Some(token) {
        assert pending == rest;
        AdvanceLocalWork();
      } else {
        pending := RemoveAll(pending, token);
        assert localToken == None ==> before == [] && pending == [] by {
          WithoutHead([], token);
        }
      }
      assert Queue() == rest;
    }

    /** Finishing and failing a task: its work is released and its entry dropped; without a task nothing happens. */
    method EndTask(token: Token)
      requires InShape() && Consistent(Queue(), tasks, hashing + saving, Some(token))
      modifies this
      ensures token !in old(tasks) ==> unchanged(this)
      ensures token in old(tasks) ==> Valid() && Queue() == Without(old(Queue()), token) && history == old(history) + [Drop(token)]
      ensures tasks == old(tasks) - {token} && pumping == old(pumping)
    {
      hide Without, Apply, Consistent;
      if token !in tasks {
        return;
      }
      DropLeaving(Queue(), tasks, hashing + saving, token);
      ClearLocalStateForToken(token);
      StartLeaving(Queue(), tasks, tasks - {token}, hashing + saving, token);
      tasks := tasks - {token};
    }

    /** The user cancels; an upload the server knows of stays as a cancelled task until it answers. */
    method CancelTask(token: Token, awaitServer: bool)
      requires Valid()
      modifies this
      ensures Valid()
      ensures token !in old(tasks) || old(tasks)[token] ==> Queue() == old(Queue()) && tasks == old(tasks)
      ensures token in old(tasks) && !old(tasks)[token] ==>
                && Queue() == Without(old(Queue()), token)
                && tasks == (if awaitServer then old(tasks)[token := true] else old(tasks) - {token})
                && history == old(history) + (if awaitServer then [Drop(token)] else [Drop(token), Drop(token)])
    {
      hide Without, Apply, Consistent;
      if token !in tasks {
        return;
      }
      if tasks[token] {
        return;
      }
      ghost var before := Queue();
      StartLeaving(before, tasks, tasks[token := true], hashing + saving, token);
      tasks := tasks[token := true];
      DropLeaving(before, tasks, hashing + saving, token);
      ClearLocalStateForToken(token);
      if awaitServer {
        return;
      }
      StartLeaving(Queue(), tasks, tasks, hashing + saving, token);
      EndTask(token);
      assert old(tasks)[token := true] - {token} == old(tasks) - {token};
    }

    /** One timer tick: a slice of the oldest task. Its work ending is the only way the queue shrinks here. */
    method RunLocalSlice(outcome: SliceOutcome)
      requires Valid()
      modifies this
      ensures Valid()
      ensures old(Queue()) == [] ==> Queue() == [] && tasks == old(tasks) && !pumping
      ensures old(Queue()) != [] ==>
                && Queue() == (if outcome == StillWorking then old(Queue()) else old(Queue())[1..])
                && tasks == (if outcome == TaskEnds then old(tasks) - {old(Queue())[0]} else old(tasks))
      ensures history == old(history) +
                if old(Queue()) == [] || outcome == StillWorking then []
                else if outcome == WorkDone then [Drop(old(Queue())[0])]
                else [Drop(old(Queue())[0]), Drop(old(Queue())[0])]
      ensures pumping <==> Queue() != []
    {
      hide Without, Apply, Consistent;
      HeadLives(Queue(), tasks, hashing + saving);
      if localToken == None || localToken.value !in tasks {
        assert Queue() == pending == [];
        AdvanceLocalWork();
      }
      if localToken == None {
        pumping := false;
        return;
      }
      var token := localToken.value;
      EndSlice(token, outcome);
      if localToken == None && pending == [] {
        pumping := false;
      }
    }

    /** What the slice's outcome means for the task worked on. */
    method EndSlice(token: Token, outcome: SliceOutcome)
      requires Valid() && localToken == Some(token)
      modifies this
      ensures Valid() && pumping == old(pumping)
      ensures Queue() == (if outcome == StillWorking then old(Queue()) else old(Queue())[1..])
      ensures tasks == (if outcome == TaskEnds then old(tasks) - {token} else old(tasks))
      ensures history == old(history) + match outcome
                                        case StillWorking => []
                                        case WorkDone => [Drop(token)]
                                        case TaskEnds => [Drop(token), Drop(token)]
    {
      hide Without, Apply, Consistent;
      ghost var before := Queue();
      HeadLives(before, tasks, hashing + saving);
      StartLeaving(before, tasks, tasks, hashing + saving, token);
      DropLeaving(before, tasks, hashing + saving, token);
      FirstLeaves(before, token, tasks, hashing + saving);
      match outcome {
        case StillWorking =>
        case WorkDone => ClearLocalStateForToken(token);
        case TaskEnds =>
          ClearLocalStateForToken(token);
          StartLeaving(Queue(), tasks, tasks, hashing + saving, token);
          EndTask(token);
      }
    }

    method Reset()
      modifies this
      ensures Valid() && Queue() == [] && tasks == map[] && !pumping && history == []
    {
      pumping := false;
      localToken := None;
      pending := [];
      hashing, saving := {}, {};
      tasks := map[];
      history := [];
    }
  }

  lemma HeadLives(q: seq<Token>, tasks: map<Token, bool>, owners: set<Token>)
    requires Consistent(q, tasks, owners, None)
    ensures q != [] ==> q[0] in tasks && !tasks[q[0]] && q[0] in owners
  {
    assert q != [] ==> q[0] in q;
  }

  /** When the first task goes, the rest moves up as it is. */
  lemma FirstLeaves(q: seq<Token>, token: Token, tasks: map<Token, bool>, owners: set<Token>)
    requires Consistent(q, tasks, owners, Some(token))
    ensures q != [] && q[0] == token ==> Without(q, token) == q[1..]
  {
    if q != [] {
      WithoutFirst(q);
    }
  }

  method RemoveAll(q: seq<Token>, t: Token) returns (rest: seq<Token>)
    ensures rest == Without(q, t)
  {
    rest := [];
    var i := |q|;
    while i > 0
      invariant 0 <= i <= |q|
      invariant rest == Without(q[i..], t)
    {
      i := i - 1;
      assert q[i..][1..] == q[i + 1..];
      if q[i] != t {
        rest := [q[i]] + rest;
      }
    }
  }

  ghost predicate Before(q: seq<Token>, a: Token, b: Token) {
    exists i, j :: 0 <= i < j < |q| && q[i] == a && q[j] == b
  }

  /** Dropping a third task does not reorder the other two. */
  lemma {:induction false} WithoutKeepsOrder(q: seq<Token>, t: Token, a: Token, b: Token)
    requires Before(q, a, b) && t != a && t != b
    ensures Before(Without(q, t), a, b)
  {
    var i, j :| 0 <= i < j < |q| && q[i] == a && q[j] == b;
    WithoutMembers(q[1..], t);
    if i == 0 {
      assert q[1..][j - 1] == b;
      var rest := Without(q[1..], t);
      assert b in q[1..] && b in rest;
      var k :| 0 <= k < |rest| && rest[k] == b;
      var w := Without(q, t);
      assert w[0] == a && w[k + 1] == b;
    } else {
      assert q[1..][i - 1] == a && q[1..][j - 1] == b;
      WithoutKeepsOrder(q[1..], t, a, b);
      var rest := Without(q[1..], t);
      var i', j' :| 0 <= i' < j' < |rest| && rest[i'] == a && rest[j'] == b;
      var d := if q[0] == t then 0 else 1;
      var w := Without(q, t);
      assert w[i' + d] == a && w[j' + d] == b;
    }
  }

  /** First come, first served over any run: of two waiting tasks neither of which is dropped, the earlier stays ahead. */
  lemma {:induction false} ServedInOrder(q: seq<Token>, ops: seq<QueueOp>, a: Token, b: Token)
    requires Before(q, a, b)
    requires Drop(a) !in ops && Drop(b) !in ops
    ensures Before(Apply(q, ops), a, b)
    decreases |ops|
  {
    if ops != [] {
      assert ops[0] in ops;
      match ops[0] {
        case Append(t) =>
          var i, j :| 0 <= i < j < |q| && q[i] == a && q[j] == b;
          assert (q + [t])[i] == a && (q + [t])[j] == b;
          ServedInOrder(q + [t], ops[1..], a, b);
        case Drop(t) =>
          WithoutKeepsOrder(q, t, a, b);
          ServedInOrder(Without(q, t), ops[1..], a, b);
      }
    }
  }

  /** In the pump's own terms, its queue being Apply([], history): the order survives whatever follows but a drop of either. */
  lemma PumpServesInOrder(history: seq<QueueOp>, later: seq<QueueOp>, a: Token, b: Token)
    requires Before(Apply([], history), a, b)
    requires Drop(a) !in later && Drop(b) !in later
    ensures Before(Apply([], history + later), a, b)
  {
    ApplySplits([], history, later);
    ServedInOrder(Apply([], history), later, a, b);
  }
}
