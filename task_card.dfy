/** One task's card of client/src/components/TaskCard.jsx: the status
    toggle with its in-flight guard, the colour of the priority and status
    badges, the overdue flag and the status label. The toggle awaits an
    update; the part before the await and the part after it (its
    `finally`) are two methods. The clock is a parameter. */
module TaskCard {
  import opened Js
  import opened TaskSchema
  import TaskController

  // ---------------------------------------------------------------------
  // The toggle

  /** The status a toggle asks for. */
  function NextStatus(status: string): (r: string)
    ensures r == "pending" <==> status == "completed"
    ensures r == "completed" <==> status != "completed"
  {
    if status == "completed" then "pending" else "completed"
  }

  class TaskCard {
    const task: Task
    var toggling: bool

    constructor (task: Task)
      ensures this.task == task && !toggling
    {
      this.task := task;
      toggling := false;
    }

    /** `handleStatusToggle` up to its await: while a toggle is in flight
        nothing happens; otherwise the card marks one in flight and asks
        for the next status. */
    method ToggleBegin() returns (request: Option<string>)
      modifies this`toggling
      ensures old(toggling) ==> request.None? && toggling
      ensures !old(toggling) ==> request == Some(NextStatus(task.status)) && toggling
    {
      if toggling {
        return None;
      }
      var newStatus := NextStatus(task.status);
      toggling := true;
      request := Some(newStatus);
    }

    /** `handleStatusToggle` after its await, whatever the update did. */
    method ToggleSettle()
      modifies this`toggling
      ensures !toggling
    {
      toggling := false;
    }
  }

  /** The card asks for the status the server's own toggle would pick, the
      server stores it as sent, and it is always one the schema admits. */
  lemma ToggleAgreesWithServer(status: string)
    ensures NextStatus(status) == TaskController.Toggle(status)
    ensures TaskController.RequestedStatus(status, Text(NextStatus(status))) == NextStatus(status)
    ensures StatusAllowed(NextStatus(status))
  {
    StatusEnumIsTwoValued(NextStatus(status));
  }

  /** Two toggles bring a completed or pending task back; an in-progress
      task ends up pending. */
  lemma ToggleTwiceOnCard(status: string)
    ensures status == "completed" || status == "pending" ==> NextStatus(NextStatus(status)) == status
    ensures status == "in-progress" ==> NextStatus(NextStatus(status)) == "pending"
  {
  }

  // ---------------------------------------------------------------------
  // Badges

  const Gray: string := "text-gray-600 bg-gray-100"

  function PriorityColor(priority: string): (r: string)
    ensures priority !in {"high", "medium"} ==> r == Gray
  {
    match priority
    case "high" => "text-red-600 bg-red-100"
    case "medium" => "text-orange-600 bg-orange-100"
    case "low" => "text-gray-600 bg-gray-100"
    case _ => Gray
  }

  function StatusColor(status: string): (r: string)
    ensures status !in {"completed", "in-progress", "pending"} ==> r == Gray
    ensures status in {"completed", "in-progress", "pending"} ==> r != Gray
  {
    match status
    case "completed" => "text-green-600 bg-green-100"
    case "in-progress" => "text-blue-600 bg-blue-100"
    case "pending" => "text-yellow-600 bg-yellow-100"
    case _ => Gray
  }

  /** The three statuses get three different colours; "high" and "medium"
      differ from each other and from "low", whose colour is the default. */
  lemma ColoursDistinguish()
    ensures StatusColor("completed") != StatusColor("in-progress")
    ensures StatusColor("completed") != StatusColor("pending")
    ensures StatusColor("in-progress") != StatusColor("pending")
    ensures PriorityColor("high") != PriorityColor("medium")
    ensures PriorityColor("high") != PriorityColor("low") && PriorityColor("medium") != PriorityColor("low")
    ensures PriorityColor("low") == PriorityColor("urgent")
  {
  }

  // ---------------------------------------------------------------------
  // Overdue

  /** A task is overdue when it has a due date before `now` and is not
      completed. */
  predicate IsOverdue(t: Task, now: int) {
    t.dueDate.Some? && t.dueDate.value < now && t.status != "completed"
  }

  /** A completed task is never overdue; an overdue task stays overdue as
      time passes; completing it (the card's toggle) clears the flag. */
  lemma OverdueProperties(t: Task, now: int, later: int)
    requires now <= later
    ensures t.status == "completed" ==> !IsOverdue(t, now)
    ensures IsOverdue(t, now) ==> IsOverdue(t, later)
    ensures IsOverdue(t, now) ==> !IsOverdue(t.(status := NextStatus(t.status)), now)
  {
  }

  // ---------------------------------------------------------------------
  // Labels

  /** `s.replace("-", " ")`: only the first "-" is replaced. */
  function ReplaceFirstDash(s: string): (r: string)
    ensures |r| == |s|
    ensures '-' !in s ==> r == s
  {
    if s == [] then []
    else if s[0] == '-' then " " + s[1..]
    else [s[0]] + ReplaceFirstDash(s[1..])
  }

  /** The dash replaced is the first one: whatever follows it is kept as
      it is, other dashes included. */
  lemma {:induction false} ReplaceFirstDashAt(a: string, b: string)
    requires '-' !in a
    ensures ReplaceFirstDash(a + "-" + b) == a + " " + b
  {
    if a == [] {
      assert a + "-" + b == "-" + b;
    } else {
      assert (a + "-" + b)[0] == a[0];
      assert (a + "-" + b)[1..] == a[1..] + "-" + b;
      ReplaceFirstDashAt(a[1..], b);
      assert a + " " + b == [a[0]] + (a[1..] + " " + b);
    }
  }

  /** The status label: the first character upper-cased, then the rest
      with its first "-" turned into a space. */
  function StatusLabel(status: string): (r: string)
    ensures |r| == |status|
  {
    if status == [] then [] else [Upper(status[0])] + ReplaceFirstDash(status[1..])
  }

  /** The priority label: the first character upper-cased. */
  function PriorityLabel(priority: string): (r: string)
    ensures |r| == |priority|
  {
    Capitalize(priority)
  }

  /** The labels of the three statuses. */
  lemma PendingLabel()
    ensures StatusLabel("pending") == "Pending"
  {
    StatusLabelWithoutDash('p', "ending");
  }

  lemma CompletedLabel()
    ensures StatusLabel("completed") == "Completed"
  {
    StatusLabelWithoutDash('c', "ompleted");
  }

  /** The labels of the three priorities. */
  lemma PriorityLabels()
    ensures PriorityLabel("low") == "Low" && PriorityLabel("medium") == "Medium" && PriorityLabel("high") == "High"
  {
  }

  /** Without a dash the label only upper-cases the first character. */
  lemma StatusLabelWithoutDash(c: char, a: string)
    requires '-' !in a
    ensures StatusLabel([c] + a) == [Upper(c)] + a
  {
    assert ([c] + a)[1..] == a;
  }

  /** A status label keeps the status's first character up to case and
      every later character but the first dash, which becomes a space:
      "in-progress" is shown as "In progress", and "a-b-c" as "A b-c". */
  lemma {:induction false} StatusLabelOfDashed(s: string, c: char, a: string, b: string)
    requires s == [c] + a + "-" + b && '-' !in a
    ensures StatusLabel(s) == [Upper(c)] + a + " " + b
  {
    assert s[1..] == a + "-" + b;
    ReplaceFirstDashAt(a, b);
  }
}
