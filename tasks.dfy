/**
 * The task record of the task board: its workflow status, priority and energy
 * choices, its field defaults, the two status transitions and the derived
 * predicates. Times are instants on one integer axis; "now" is an input.
 */
module Tasks {
  import opened Common

  /** Workflow state, stored as its code. */
  datatype Status = Todo | InProgress | Blocked | Cancelled | Done {
    function Code(): string {
      match this
      case Todo => "todo"
      case InProgress => "in_progress"
      case Blocked => "blocked"
      case Cancelled => "cancelled"
      case Done => "done"
    }
  }

  /** The status a stored code stands for, if any. */
  function ParseStatus(code: string): (r: Option<Status>)
    ensures r.Some? ==> r.value.Code() == code
    ensures r.None? ==> code !in {"todo", "in_progress", "blocked", "cancelled", "done"}
  {
    if code == "todo" then Some(Todo)
    else if code == "in_progress" then Some(InProgress)
    else if code == "blocked" then Some(Blocked)
    else if code == "cancelled" then Some(Cancelled)
    else if code == "done" then Some(Done)
    else None
  }

  lemma StatusCodeRoundTrip(s: Status)
    ensures ParseStatus(s.Code()) == Some(s)
  {
  }

  /** Importance level, stored as the integers 1 to 4. */
  datatype Priority = Low | Normal | High | Urgent {
    function Value(): (v: int)
      ensures 1 <= v <= 4
    {
      match this
      case Low => 1
      case Normal => 2
      case High => 3
      case Urgent => 4
    }
  }

  /** The priority a stored integer stands for: exactly the integers 1 to 4 have one. */
  function PriorityOf(v: int): (r: Option<Priority>)
    ensures r.Some? <==> 1 <= v <= 4
    ensures r.Some? ==> r.value.Value() == v
  {
    if v == 1 then Some(Priority.Low)
    else if v == 2 then Some(Normal)
    else if v == 3 then Some(Priority.High)
    else if v == 4 then Some(Urgent)
    else None
  }

  lemma PriorityRoundTrip(p: Priority)
    ensures PriorityOf(p.Value()) == Some(p)
  {
  }

  /** Distinct priorities are stored as distinct integers. */
  lemma PriorityValueInjective(p: Priority, q: Priority)
    ensures p.Value() == q.Value() <==> p == q
  {
  }

  /** Energy level a task needs, stored as its code. */
  datatype Energy = Low | Medium | High {
    function Code(): string {
      match this
      case Low => "LOW"
      case Medium => "MEDIUM"
      case High => "HIGH"
    }
  }

  /** A task. `parent` is the task it is nested under; `routine` identifies the routine that generated it. */
  class Task {
    var title: string
    var description: string
    var status: Status
    var priority: Priority
    var dueAt: Option<Instant>
    var startsAt: Option<Instant>
    var endsAt: Option<Instant>
    var estimateMinutes: Option<nat>
    var energy: Energy
    var completedAt: Option<Instant>
    var parent: Task?
    var order: nat
    var routine: Option<nat>
    var routineStep: Option<nat>
    var routineDate: Option<Day>
    var promotedFromRoutine: bool
    var createdAt: Instant
    var updatedAt: Instant

    /** A new task with every field at its default. */
    constructor (title: string, now: Instant)
      ensures this.title == title && description == ""
      ensures status == Todo && priority == Normal && priority.Value() == 2 && energy == Energy.Medium && order == 0
      ensures dueAt == None && startsAt == None && endsAt == None && estimateMinutes == None
      ensures completedAt == None && parent == null
      ensures routine == None && routineStep == None && routineDate == None && !promotedFromRoutine
      ensures createdAt == now && updatedAt == now
      ensures IsActive() && !IsSubtask() && !IsRoutineTask()
    {
      this.title := title;
      description := "";
      status := Todo;
      priority := Normal;
      dueAt, startsAt, endsAt := None, None, None;
      estimateMinutes := None;
      energy := Energy.Medium;
      completedAt := None;
      parent := null;
      order := 0;
      routine, routineStep, routineDate := None, None, None;
      promotedFromRoutine := false;
      createdAt, updatedAt := now, now;
    }

    /** Still to be worked on: neither done nor cancelled. */
    predicate IsActive()
      reads this
      ensures IsActive() <==> status.Code() !in {"done", "cancelled"}
    {
      status != Done && status != Cancelled
    }

    /** Not done, and due before `now`. */
    predicate IsOverdue(now: Instant)
      reads this
      ensures IsOverdue(now) <==> status.Code() != "done" && dueAt.Some? && dueAt.value < now
    {
      status != Done && dueAt.Some? && dueAt.value < now
    }

    /** Nested under another task. */
    predicate IsSubtask()
      reads this
      ensures IsSubtask() <==> parent != null
    {
      parent != null
    }

    /** Generated by a routine. */
    predicate IsRoutineTask()
      reads this
      ensures IsRoutineTask() <==> routine.Some?
    {
      routine.Some?
    }

    /** Cancel the task: only the status and the update time are written. */
    method Cancel(now: Instant)
      modifies this`status, this`updatedAt
      ensures status == Cancelled && updatedAt == now
      ensures !IsActive()
      ensures forall at :: IsOverdue(at) <==> dueAt.Some? && dueAt.value < at
      ensures IsSubtask() == old(IsSubtask()) && IsRoutineTask() == old(IsRoutineTask())
    {
      status := Cancelled;
      updatedAt := now;
    }

    /** Complete the task, stamping the completion time even if it was already set. */
    method MarkDone(now: Instant)
      modifies this`status, this`completedAt, this`updatedAt
      ensures status == Done && completedAt == Some(now) && updatedAt == now
      ensures !IsActive()
      ensures forall at :: !IsOverdue(at)
      ensures IsSubtask() == old(IsSubtask()) && IsRoutineTask() == old(IsRoutineTask())
    {
      status := Done;
      completedAt := Some(now);
      updatedAt := now;
    }
  }

  /** Being active depends on the status alone, and is lost exactly in the two closed states. */
  lemma ActiveIffOpen(t: Task)
    ensures t.IsActive() <==> t.status in {Todo, InProgress, Blocked}
  {
  }

  /** Once overdue, a task stays overdue as time passes. */
  lemma OverdueStaysOverdue(t: Task, now: Instant, later: Instant)
    requires t.IsOverdue(now) && now <= later
    ensures t.IsOverdue(later)
  {
  }

  /** Only a done task is never overdue: a cancelled one past its due time still counts as overdue. */
  lemma OverdueIgnoresCancellation(t: Task, now: Instant)
    requires t.status == Cancelled && t.dueAt.Some? && t.dueAt.value < now
    ensures t.IsOverdue(now) && !t.IsActive()
  {
  }
}
