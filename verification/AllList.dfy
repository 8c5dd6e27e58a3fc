/** The doubly linked list of all tasks of a set, as its owner sees it: links are
    rewritten in place, and the length is cached in the nodes, exactly only at the head. */
module AllList {
  /** A node; `nextAll` is the stub while the task is not linked. */
  class Task {
    var nextAll: Task?
    var prevAll: Task?
    var lenAll: nat

    constructor (pending: Task?)
      ensures nextAll == pending && prevAll == null && lenAll == 0
    {
      nextAll, prevAll, lenAll := pending, null, 0;
    }
  }

  ghost function Without<T>(s: seq<T>, i: nat): seq<T>
    requires i < |s|
  {
    s[..i] + s[i + 1..]
  }

  class TaskList {
    const stub: Task
    var headAll: Task?
    ghost var tasks: seq<Task>

    ghost function Nodes(): set<Task>
      reads this
    {
      set t | t in tasks
    }

    /** The `i`-th node knows its neighbours, and its cached length covers the nodes
        from it onward. */
    ghost predicate NodeInv(i: int)
      requires 0 <= i < |tasks|
      reads this, tasks
    {
      && tasks[i].nextAll == (if i + 1 < |tasks| then tasks[i + 1] else null)
      && tasks[i].prevAll == (if i > 0 then tasks[i - 1] else null)
      && tasks[i].lenAll >= |tasks| - i
    }

    ghost predicate Valid()
      reads this, tasks
    {
      && stub !in tasks
      && (forall i, j :: 0 <= i < j < |tasks| ==> tasks[i] != tasks[j])
      && headAll == (if tasks == [] then null else tasks[0])
      && forall i :: 0 <= i < |tasks| ==> NodeInv(i)
    }

    /** The cached length at the head is exact. */
    ghost predicate Exact()
      reads this, tasks
    {
      tasks != [] ==> tasks[0].lenAll == |tasks|
    }

    ghost predicate Unlinked(t: Task)
      reads this, t
    {
      t.nextAll == stub && t.prevAll == null && t != stub
    }

    constructor ()
      ensures Valid() && Exact() && tasks == [] && fresh(stub)
    {
      stub := new Task(null);
      headAll, tasks := null, [];
    }

    /** `len`. */
    method Len() returns (n: nat)
      requires Valid() && Exact()
      ensures n == |tasks|
    {
      if headAll == null {
        return 0;
      }
      assert NodeInv(0);
      return headAll.lenAll;
    }

    /** `link`, with no other thread linking at the same time. */
    method Link(task: Task)
      requires Valid() && Unlinked(task) && task !in tasks
      modifies this`headAll, this`tasks, task, Nodes()
      ensures Valid() && tasks == [task] + old(tasks)
      ensures old(Exact()) ==> Exact()
    {
      ghost var was := tasks;
      assert tasks != [] ==> NodeInv(0);
      var next := headAll;
      headAll := task;
      task.lenAll := if next == null then 1 else next.lenAll + 1;
      task.nextAll := next;
      tasks := [task] + tasks;
      if next != null {
        next.prevAll := task;
      }
      forall i | 0 <= i < |tasks| ensures NodeInv(i) {
        if i > 0 {
          assert tasks[i] == was[i - 1];
          assert old(NodeInv(i - 1));
        }
      }
    }

    /** `unlink`; `at` is the position of the task. */
    method Unlink(task: Task, ghost at: nat)
      requires Valid() && at < |tasks| && tasks[at] == task
      modifies this`headAll, this`tasks, Nodes()
      ensures Valid() && tasks == Without(old(tasks), at)
      ensures Unlinked(task)
      ensures old(Exact()) ==> Exact()
    {
      ghost var was := tasks;
      assert NodeInv(0) && NodeInv(at);
      var head := headAll;
      var newLen := head.lenAll - 1;
      var next, prev := task.nextAll, task.prevAll;
      task.nextAll := stub;
      task.prevAll := null;
      if next != null {
        next.prevAll := prev;
      }
      if prev != null {
        prev.nextAll := next;
      } else {
        headAll := next;
      }
      head := headAll;
      if head != null {
        head.lenAll := newLen;
      }
      tasks := Without(was, at);
      forall i | 0 <= i < |tasks| ensures NodeInv(i) {
        var k := if i < at then i else i + 1;
        assert tasks[i] == was[k];
        assert old(NodeInv(k));
      }
    }

    /** One round of `Drop`: the head task comes off, those released before stay off. */
    method ReleaseHead(ghost before: seq<Task>) returns (head: Task)
      requires Valid() && headAll != null
      requires forall t :: t in before ==> Unlinked(t) && t !in tasks
      modifies this`headAll, this`tasks, Nodes()
      ensures Valid() && old(tasks) == [head] + tasks
      ensures forall t :: t in before + [head] ==> Unlinked(t) && t !in tasks
    {
      HeadFacts();
      head := headAll;
      Unlink(head, 0);
    }

    /** `Drop`: takes every task off the list, front first. */
    method DropAll() returns (ghost released: seq<Task>)
      requires Valid()
      modifies this`headAll, this`tasks, Nodes()
      ensures Valid() && tasks == [] && released == old(tasks)
      ensures forall t :: t in released ==> Unlinked(t)
    {
      hide Valid, NodeInv, Exact, Unlinked;
      released := [];
      HeadFacts();
      while headAll != null
        invariant Valid() && released + tasks == old(tasks)
        invariant headAll == null ==> tasks == []
        invariant Nodes() <= old(Nodes())
        invariant forall t :: t in released ==> Unlinked(t) && t !in tasks
        decreases |tasks|
      {
        ghost var left := tasks;
        var head := ReleaseHead(released);
        assert released + left == released + [head] + tasks;
        released := released + [head];
        HeadFacts();
      }
    }

    lemma HeadFacts()
      requires Valid()
      ensures if tasks == [] then headAll == null else headAll == tasks[0]
      ensures tasks != [] ==>
        tasks[0] !in tasks[1..] && tasks == [tasks[0]] + tasks[1..] && Without(tasks, 0) == tasks[1..]
    {
    }
  }

  /** `IntoIter`: moves the head on without updating the cached length. */
  class IntoIter {
    const list: TaskList
    var len: nat

    ghost predicate Valid()
      reads this, list, list.tasks
    {
      list.Valid() && len == |list.tasks|
    }

    constructor (list: TaskList)
      requires list.Valid() && list.Exact()
      ensures Valid() && this.list == list && len == |list.tasks|
    {
      this.list := list;
      new;
      len := list.Len();
    }

    method Next() returns (task: Task?)
      requires Valid()
      modifies this`len, list`headAll, list`tasks, list.Nodes()
      ensures Valid()
      ensures old(list.tasks) == [] ==> task == null && list.tasks == []
      ensures old(list.tasks) != [] ==> task == old(list.tasks)[0] && list.tasks == old(list.tasks)[1..]
    {
      task := list.headAll;
      if task == null {
        return;
      }
      ghost var was := list.tasks;
      assert list.NodeInv(0);
      var next := task.nextAll;
      list.headAll := next;
      if next != null {
        next.prevAll := null;
      }
      len := len - 1;
      list.tasks := was[1..];
      forall i | 0 <= i < |list.tasks| ensures list.NodeInv(i) {
        assert list.tasks[i] == was[i + 1];
        assert old(list.NodeInv(i + 1));
      }
    }
  }

  /** `IterPinMut`: walks the list by its length at the start. */
  class IterPinMut {
    const list: TaskList
    var task: Task?
    var len: nat
    ghost var position: nat

    ghost predicate Valid()
      reads this, list, list.tasks
    {
      && list.Valid()
      && position + len == |list.tasks|
      && task == (if len == 0 then null else list.tasks[position])
    }

    constructor (list: TaskList)
      requires list.Valid() && list.Exact()
      ensures Valid() && this.list == list && position == 0
    {
      this.list := list;
      task := list.headAll;
      position := 0;
      new;
      len := list.Len();
    }

    /** Visits every task once, in list order; `len` never underflows. */
    method Next() returns (visited: Task?)
      requires Valid()
      modifies this
      ensures Valid()
      ensures old(len) == 0 ==> visited == null && position == old(position)
      ensures old(len) > 0 ==> visited == list.tasks[old(position)] && position == old(position) + 1
    {
      if task == null {
        return null;
      }
      visited := task;
      assert list.NodeInv(position);
      task := task.nextAll;
      len := len - 1;
      position := position + 1;
    }
  }
}
