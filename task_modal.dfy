/** The task form of client/src/components/TaskModal.jsx: the field rules
    the form library checks before submitting, the submit handler's title
    checks, the payload it builds from the form values, and the save
    request it makes (update when editing, create otherwise). The handler
    awaits the save; what the save settled to is the parameter of the part
    after the await. */
module TaskModal {
  import opened Js
  import opened TaskSchema
  import opened TaskContext

  /** The form values; `None` is an `undefined` or `null` value. */
  datatype FormData = FormData(
    title: Option<string>,
    description: Option<string>,
    priority: Option<string>,
    status: Option<string>,
    category: Option<string>,
    dueDate: Option<string>)

  /** The request body sent to create or update a task; `None` is a key
      whose value is `undefined`, which JSON drops. */
  datatype Payload = Payload(
    title: string,
    description: Option<string>,
    priority: string,
    status: string,
    category: Option<string>,
    dueDate: Option<string>)

  /** The save the handler awaits. */
  datatype SaveRequest = CreateRequest(payload: Payload) | UpdateRequest(id: TaskId, payload: Payload)

  /** How the awaited save ended: it returned the action's result, or it threw. */
  datatype SaveOutcome = Returned(result: ActionResult) | Threw

  /** The errors the form library shows per field; `None` is no error. */
  datatype FormErrors = FormErrors(title: Option<string>, description: Option<string>, category: Option<string>)

  const TitleRequired: string := "Title is required"
  const TitleBetween: string := "Title must be between 1 and 100 characters"
  const TitleTooLong: string := "Title cannot exceed 100 characters"
  const DescriptionTooLong: string := "Description cannot exceed 500 characters"
  const CategoryTooLong: string := "Category cannot exceed 50 characters"
  const SaveFallback: string := "Failed to save task"
  const Unexpected: string := "An unexpected error occurred"

  // ---------------------------------------------------------------------
  // Field rules checked before the handler runs

  /** `maxLength` on an optional value. */
  function TooLong(v: Option<string>, max: nat): bool {
    v.Some? && |v.value| > max
  }

  /** The registered rules: the title is required (an empty string fails,
      white space does not) and at most 100 characters as typed; the
      description at most 500 and the category at most 50. */
  function FormErrorsOf(data: FormData): (e: FormErrors)
    ensures e.title.None? <==> data.title.Some? && data.title.value != "" && |data.title.value| <= 100
    ensures e.description.None? <==> !TooLong(data.description, 500)
    ensures e.category.None? <==> !TooLong(data.category, 50)
  {
    FormErrors(
      if data.title.None? || data.title.value == "" then Some(TitleRequired)
      else if |data.title.value| > 100 then Some(TitleTooLong)
      else None,
      if TooLong(data.description, 500) then Some(DescriptionTooLong) else None,
      if TooLong(data.category, 50) then Some(CategoryTooLong) else None)
  }

  /** The form library calls the submit handler only without field errors. */
  predicate Submittable(data: FormData) {
    FormErrorsOf(data) == FormErrors(None, None, None)
  }

  // ---------------------------------------------------------------------
  // The payload

  /** `v?.trim() || undefined`. */
  function TrimmedOrAbsent(v: Option<string>): (r: Option<string>)
    ensures r.Some? ==> r.value != "" && Trimmed(r.value)
    ensures r.Some? ==> v.Some? && r.value == Trim(v.value) && |r.value| <= |v.value|
    ensures r.None? ==> v.None? || Trim(v.value) == ""
  {
    if v.Some? && Trim(v.value) != "" then Some(Trim(v.value)) else None
  }

  /** `taskData` for the trimmed title. */
  function PayloadOf(data: FormData, title: string): Payload {
    Payload(
      title,
      TrimmedOrAbsent(data.description),
      data.priority.GetOr(DefaultPriority),
      data.status.GetOr(DefaultStatus),
      TrimmedOrAbsent(data.category),
      if data.dueDate.Some? && data.dueDate.value != "" then data.dueDate else None)
  }

  // ---------------------------------------------------------------------
  // The modal

  class TaskModal {
    /** The task being edited, if any. */
    const editing: Option<Task>
    var loading: bool
    var titleError: Option<string>
    /** Whether `onClose` was called. */
    var closed: bool

    constructor (task: Option<Task>)
      ensures editing == task && !loading && titleError.None? && !closed
    {
      editing := task;
      loading := false;
      titleError := None;
      closed := false;
    }

    /** `onSubmit` up to its await. The form library calls it only once
        the title passed its registered rules, and it clears a title error
        whose rules pass, so the handler starts with no title error. A blank
        title or a trimmed title outside 1 to 100 characters sets the title
        error, ends loading and sends nothing; otherwise the payload is sent
        as an update of the edited task, or as a new task. */
    method SubmitBegin(data: FormData) returns (request: Option<SaveRequest>)
      modifies this`loading, this`titleError
      ensures var title := Trim(data.title.GetOr(""));
              && (title == "" ==> request.None? && titleError == Some(TitleRequired) && !loading)
              && (title != "" && |title| > 100 ==> request.None? && titleError == Some(TitleBetween) && !loading)
              && (title != "" && |title| <= 100 ==>
                    && loading && titleError.None?
                    && request == Some(if editing.Some? then UpdateRequest(editing.value.id, PayloadOf(data, title))
                                       else CreateRequest(PayloadOf(data, title))))
    {
      titleError := None;
      loading := true;
      var rawTitle := data.title.GetOr("");
      var title := Trim(rawTitle);
      if title == "" {
        titleError := Some(TitleRequired);
        loading := false;
        return None;
      }
      if |title| < 1 || |title| > 100 {
        titleError := Some(TitleBetween);
        loading := false;
        return None;
      }
      var taskData := PayloadOf(data, title);
      if editing.Some? {
        request := Some(UpdateRequest(editing.value.id, taskData));
      } else {
        request := Some(CreateRequest(taskData));
      }
    }

    /** `onSubmit` after its await: a success closes the modal and resets
        the form, which clears its errors; a failure
        shows its message, or "Failed to save task" without one, on the
        title; a throw shows "An unexpected error occurred"; loading ends
        on every path. */
    method SubmitSettle(outcome: SaveOutcome)
      modifies this`loading, this`titleError, this`closed
      ensures !loading
      ensures outcome.Returned? && outcome.result.Succeeded? ==> closed && titleError.None?
      ensures outcome.Returned? && outcome.result.Failed? ==>
                closed == old(closed) && titleError == Some(MessageOr(Some(outcome.result.message), SaveFallback))
      ensures outcome.Threw? ==> closed == old(closed) && titleError == Some(Unexpected)
    {
      match outcome {
        case Returned(result) =>
          if result.Succeeded? {
            closed := true;
            titleError := None;
          } else {
            var msg := MessageOr(Some(result.message), SaveFallback);
            titleError := Some(msg);
          }
        case Threw =>
          titleError := Some(Unexpected);
      }
      loading := false;
    }
  }

  // ---------------------------------------------------------------------
  // Properties

  /** A title of white space only passes the form library's `required`
      rule and is refused by the handler as missing. */
  lemma BlankTitleReachesHandler(n: nat)
    requires 1 <= n <= 100
    ensures var data := FormData(Some(seq(n, _ => ' ')), None, None, None, None, None);
            Submittable(data) && Trim(data.title.value) == ""
  {
    var s := seq(n, _ => ' ');
    TrimEmptyIffBlank(s);
  }

  /** The handler's length check never fires on a submitted form: the
      form library already bounds the untrimmed title by 100, and trimming
      only shortens it. */
  lemma LengthCheckUnreachable(data: FormData)
    requires Submittable(data)
    ensures |Trim(data.title.GetOr(""))| <= 100
  {
  }

  /** A payload built from a submitted form fits the stored schema: its
      title is trimmed, non-empty and at most 100 characters; description
      and category, when present, are trimmed, non-empty and within 500 and
      50; an empty due date is left out; priority and status default to
      "medium" and "pending". */
  lemma PayloadFitsSchema(data: FormData)
    requires Submittable(data)
    requires Trim(data.title.GetOr("")) != ""
    ensures var p := PayloadOf(data, Trim(data.title.GetOr("")));
            && p.title != "" && |p.title| <= TitleMax && Trim(p.title) == p.title
            && (p.description.Some? ==> Trim(p.description.value) == p.description.value && |p.description.value| <= DescriptionMax)
            && (p.category.Some? ==> Trim(p.category.value) == p.category.value && |p.category.value| <= CategoryMax)
            && (p.dueDate.Some? ==> p.dueDate.value != "")
            && (data.priority.None? ==> p.priority == "medium")
            && (data.status.None? ==> p.status == "pending")
  {
    var p := PayloadOf(data, Trim(data.title.GetOr("")));
    TrimFixedPoint(p.title);
    if p.description.Some? {
      TrimFixedPoint(p.description.value);
    }
    if p.category.Some? {
      TrimFixedPoint(p.category.value);
    }
  }
}
