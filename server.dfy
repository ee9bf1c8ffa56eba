/**
 * The task lifecycle actions the gateway's HTTP and WebSocket handlers
 * perform on the task table: a new task is created and queued at once, an
 * approval completes it, and a rejection sends it back to the queue — over
 * REST by way of `rejected`, over the WebSocket directly. Parsing,
 * responses and broadcasting are not part of this model.
 */
module Server {
  import opened Types
  import opened TaskStore

  // ─── The table changes, as values ──────────────────────

  /** A row with an id no row has can be appended, and is then what its id finds. */
  lemma AppendFresh(tasks: seq<Task>, t: Task)
    requires UniqueIds(tasks) && Find(tasks, t.id).None?
    ensures UniqueIds(tasks + [t]) && Find(tasks + [t], t.id) == Some(t)
  {
    var rows := tasks + [t];
    forall i, j | 0 <= i < j < |rows|
      ensures rows[i].id != rows[j].id
    {
      if j == |tasks| {
        assert tasks[i].id != t.id;
      }
    }
    FindUnique(rows, |tasks|);
  }

  /** Queuing a row changes only its status. */
  lemma QueueOnlyStatus(t: Task, now: nat)
    ensures Transition(t, Queued, NoExtra, now) == t.(status := Queued)
  {
  }

  /** Queuing the row just appended with the fresh id changes only its status. */
  lemma SubmitQueues(tasks: seq<Task>, t: Task, queued: nat)
    requires UniqueIds(tasks) && Find(tasks, t.id).None?
    ensures var after := UpdateRows(tasks + [t], t.id, Queued, NoExtra, queued);
      && after == tasks + [t.(status := Queued)]
      && UniqueIds(after) && IsQueued(after, t.id)
      && CountStatus(after, Queued) == CountStatus(tasks, Queued) + 1
  {
    var rows := tasks + [t];
    var q := t.(status := Queued);
    var after := UpdateRows(rows, t.id, Queued, NoExtra, queued);
    QueueOnlyStatus(t, queued);
    forall i | 0 <= i < |tasks|
      ensures after[i] == tasks[i]
    {
      assert tasks[i].id != t.id;
    }
    assert after == tasks + [q];
    AppendFresh(tasks, t);
    AppendFresh(tasks, q);
    CountSnoc(tasks, q, Queued);
  }

  lemma {:induction false} CountSnoc(tasks: seq<Task>, t: Task, s: TaskStatus)
    ensures CountStatus(tasks + [t], s) == CountStatus(tasks, s) + (if t.status == s then 1 else 0)
    decreases |tasks|
  {
    if |tasks| == 0 {
      assert [t][1..] == [];
    } else {
      assert (tasks + [t])[1..] == tasks[1..] + [t];
      CountSnoc(tasks[1..], t, s);
    }
  }

  /**
   * Approving: an unknown id changes nothing and finds nothing; a known row
   * becomes completed, stamped with the time, and is what its id finds.
   */
  lemma ApproveSpec(tasks: seq<Task>, id: nat, now: nat)
    requires UniqueIds(tasks)
    ensures var r := UpdateResult(tasks, id, Completed, NoExtra, now);
      var after := UpdateRows(tasks, id, Completed, NoExtra, now);
      && (r.None? <==> Find(tasks, id).None?)
      && (r.None? ==> after == tasks)
      && (r.Some? ==> r.value.status == Completed && r.value.completedAt == Some(now) && Find(after, id) == r)
  {
    UpdateFind(tasks, id, Completed, NoExtra, now, id);
    if Find(tasks, id).None? {
      UpdateUnknown(tasks, id, Completed, NoExtra, now);
    }
  }

  /** Rejecting a known row changes only its status; an unknown id finds nothing and changes nothing. */
  lemma RejectSpec(tasks: seq<Task>, id: nat, now: nat)
    requires UniqueIds(tasks)
    ensures var r := UpdateResult(tasks, id, Rejected, NoExtra, now);
      var after := UpdateRows(tasks, id, Rejected, NoExtra, now);
      && UniqueIds(after)
      && (r.None? <==> Find(tasks, id).None?)
      && (r.None? ==> after == tasks)
      && (r.Some? ==> r.value == Find(tasks, id).value.(status := Rejected))
  {
    UpdateFind(tasks, id, Rejected, NoExtra, now, id);
    if Find(tasks, id).None? {
      UpdateUnknown(tasks, id, Rejected, NoExtra, now);
    }
  }

  /**
   * Rejecting over REST (`rejected`, then `queued`) leaves the same table as
   * rejecting over the WebSocket (`queued` alone), since neither status
   * touches a timestamp; the row ends queued with its other fields kept.
   */
  lemma RejectPathsAgree(tasks: seq<Task>, id: nat, rejected: nat, queued: nat)
    requires UniqueIds(tasks)
    ensures var rest := UpdateRows(UpdateRows(tasks, id, Rejected, NoExtra, rejected), id, Queued, NoExtra, queued);
      && rest == UpdateRows(tasks, id, Queued, NoExtra, queued)
      && (Find(tasks, id).Some? ==> Find(rest, id) == Some(Find(tasks, id).value.(status := Queued)) && IsQueued(rest, id))
      && (Find(tasks, id).None? ==> rest == tasks)
  {
    var mid := UpdateRows(tasks, id, Rejected, NoExtra, rejected);
    var rest := UpdateRows(mid, id, Queued, NoExtra, queued);
    var ws := UpdateRows(tasks, id, Queued, NoExtra, queued);
    assert rest == ws by {
      forall i | 0 <= i < |tasks|
        ensures rest[i] == ws[i]
      {
        if tasks[i].id == id {
          assert rest[i] == Transition(Transition(tasks[i], Rejected, NoExtra, rejected), Queued, NoExtra, queued);
        }
      }
    }
    UpdateFind(tasks, id, Queued, NoExtra, queued, id);
    if Find(tasks, id).None? {
      UpdateUnknown(tasks, id, Queued, NoExtra, queued);
    }
  }

  // ─── The actions ───────────────────────────────────────

  /**
   * `POST /api/tasks` and the `task:create` message: the task is created
   * with the fresh id and queued at once; the caller gets the row as
   * created, while the table holds it queued.
   */
  method SubmitTask(store: TaskTable, env: Env, input: TaskCreateInput, id: nat) returns (task: Task)
    requires store.Valid() && Find(store.tasks, id).None?
    modifies store`tasks, env
    ensures env.clock == old(env.clock) + 2 && env.minted == old(env.minted)
    ensures store.Valid()
    ensures task == NewTask(input, id, old(env.clock) + 1)
    ensures store.tasks == old(store.tasks) + [task.(status := Queued)]
    ensures IsQueued(store.tasks, id)
    ensures CountStatus(store.tasks, Queued) == old(CountStatus(store.tasks, Queued)) + 1
  {
    var created := env.Now();
    ghost var before := store.tasks;
    task := store.CreateTask(input, id, created);
    var queued := env.Now();
    SubmitQueues(before, task, queued);
    var _ := store.UpdateTaskStatus(id, Queued, NoExtra, queued);
  }

  /** `POST /api/tasks/:id/approve` and the `task:approve` message: the row is completed, or nothing is found. */
  method Approve(store: TaskTable, env: Env, id: nat) returns (task: Option<Task>)
    requires store.Valid()
    modifies store`tasks, env
    ensures env.clock == old(env.clock) + 1 && env.minted == old(env.minted)
    ensures store.Valid()
    ensures task.None? <==> old(Find(store.tasks, id)).None?
    ensures task.None? ==> store.tasks == old(store.tasks)
    ensures task.Some? ==>
      && task == Some(Transition(old(Find(store.tasks, id)).value, Completed, NoExtra, old(env.clock) + 1))
      && task.value.status == Completed && task.value.completedAt == Some(old(env.clock) + 1)
      && Find(store.tasks, id) == task
    ensures store.tasks == UpdateRows(old(store.tasks), id, Completed, NoExtra, old(env.clock) + 1)
  {
    var now := env.Now();
    ApproveSpec(store.tasks, id, now);
    task := store.UpdateTaskStatus(id, Completed, NoExtra, now);
  }

  /**
   * `POST /api/tasks/:id/reject`: the row is set rejected and, when it
   * exists, queued again; the caller gets the row as it was when rejected.
   */
  method RejectRest(store: TaskTable, env: Env, id: nat) returns (task: Option<Task>)
    requires store.Valid()
    modifies store`tasks, env
    ensures env.clock == old(env.clock) + 2 && env.minted == old(env.minted)
    ensures store.Valid()
    ensures task.None? <==> old(Find(store.tasks, id)).None?
    ensures task.None? ==> store.tasks == old(store.tasks)
    ensures task.Some? ==>
      && task.value == old(Find(store.tasks, id)).value.(status := Rejected)
      && Find(store.tasks, id) == Some(task.value.(status := Queued))
    ensures store.tasks == UpdateRows(old(store.tasks), id, Queued, NoExtra, old(env.clock) + 2)
  {
    ghost var before := store.tasks;
    var rejected := env.Now();
    RejectSpec(before, id, rejected);
    task := store.UpdateTaskStatus(id, Rejected, NoExtra, rejected);
    var queued := env.Now();
    assert queued == env.clock == old(env.clock) + 2;
    RejectPathsAgree(before, id, rejected, queued);
    if task.Some? {
      var _ := store.UpdateTaskStatus(id, Queued, NoExtra, queued);
    }
  }

  /**
   * The `task:reject` message: the row goes straight back to the queue and
   * is read again; an unknown id finds nothing and changes nothing.
   */
  method RejectWs(store: TaskTable, env: Env, id: nat) returns (task: Option<Task>)
    requires store.Valid()
    modifies store`tasks, env
    ensures env.clock == old(env.clock) + 1 && env.minted == old(env.minted)
    ensures store.Valid()
    ensures task == Find(store.tasks, id)
    ensures task.None? <==> old(Find(store.tasks, id)).None?
    ensures task.None? ==> store.tasks == old(store.tasks)
    ensures task.Some? ==> task.value == old(Find(store.tasks, id)).value.(status := Queued)
    ensures store.tasks == UpdateRows(old(store.tasks), id, Queued, NoExtra, old(env.clock) + 1)
  {
    var now := env.Now();
    ghost var before := store.tasks;
    RejectPathsAgree(before, id, now, now);
    var _ := store.UpdateTaskStatus(id, Queued, NoExtra, now);
    task := Find(store.tasks, id);
  }
}
