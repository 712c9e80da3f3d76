/**
  The task list of the to-do application (script.js): one ordered list of
  tasks, the storage slot it is saved to, and the confirmation dialog that
  guards the destructive operations.

  The dialog holds at most one pending action. Delete and delete-all only
  prompt; the list changes when the user confirms, and cancelling (or
  clicking the backdrop) drops the action. A successful add, edit, import or
  export shows a success dialog whose confirm does nothing, which replaces any
  pending action.

  The clock (Date.now, toISOString), the prompt() reply, whether the storage
  write succeeds, and what JSON.parse made of a stored or imported text are
  parameters of the operations.
 */
module TodoList {
  import opened Wrappers
  import opened Validation

  /** A task record { id, text, createdAt }. */
  datatype Task = Task(id: int, text: string, createdAt: string)

  /** What JSON.parse makes of a text: an array of records, another value, or an exception. */
  datatype Parsed = JsonArray(elems: seq<Task>) | JsonOther | Unparsable

  /**
    What localStorage.getItem('todoTasks') gives: nothing (null, or a read
    that threw), the empty string, or a non-empty text with its parse.
   */
  datatype StoredItem = Missing | EmptyText | Text(parsed: Parsed)

  /** The callback the confirm button runs. */
  datatype Action =
    | DeleteAt(index: nat)   // tasks.splice(index, 1)
    | ClearAll               // tasks = []
    | Acknowledge            // () => {} of a success dialog

  const NoTasksToDelete: string := "No tasks to delete."
  const NoTasksToExport: string := "No tasks to export."
  const SaveFailed: string := "Failed to save tasks. Please try again."
  const InvalidFormat: string := "Invalid file format. Please select a valid JSON file."
  const ReadError: string := "Error reading file. Please select a valid JSON file."

  // ---------------------------------------------------------------------------
  // The list operations, as functions of the list

  /** Array.prototype.splice(i, 1) on the list: removes the element at i; an index past the end removes nothing. */
  function Splice(s: seq<Task>, i: nat): (r: seq<Task>)
    ensures i < |s| ==> |r| == |s| - 1
    ensures i < |s| ==> forall k :: 0 <= k < |r| ==> r[k] == s[if k < i then k else k + 1]
    ensures i < |s| ==> multiset(r) + multiset{s[i]} == multiset(s)
    ensures i >= |s| ==> r == s
  {
    if i < |s| then
      assert s == s[..i] + [s[i]] + s[i + 1..];
      s[..i] + s[i + 1..]
    else s
  }

  /** What the list becomes when the confirm button runs an action. */
  function Apply(a: Action, s: seq<Task>): (r: seq<Task>)
    ensures multiset(r) <= multiset(s)
    ensures a.DeleteAt? && a.index < |s| ==> |r| == |s| - 1
    ensures a.DeleteAt? && a.index < |s| ==> r == s[..a.index] + s[a.index + 1..]
    ensures a.ClearAll? ==> r == []
    ensures a.Acknowledge? ==> r == s
  {
    match a
    case DeleteAt(i) => Splice(s, i)
    case ClearAll => []
    case Acknowledge => s
  }

  /** The list loadTasksFromStorage leaves behind, starting from the empty list. */
  function LoadedTasks(item: StoredItem): (r: seq<Task>)
    ensures r != [] ==> item == Stored(r)
  {
    match item
    case Text(JsonArray(elems)) => elems
    case _ => []
  }

  /** What saveTasksToStorage writes: JSON.stringify of the list, which parses back to the list. */
  function Stored(s: seq<Task>): StoredItem {
    Text(JsonArray(s))
  }

  /** What the slot holds after an attempt to save s: the new text if the write succeeds, the old content if not. */
  function AfterSave(old_: StoredItem, s: seq<Task>, writable: bool): StoredItem {
    if writable then Stored(s) else old_
  }

  /** The error banner a save leaves: the warning when the write fails. */
  function SaveBanner(writable: bool): Option<string> {
    if writable then None else Some(SaveFailed)
  }

  /**
    A list saved successfully is the list the next start-up loads; after a
    failed write, start-up loads whatever the slot held before.
   */
  lemma LoadAfterSave(before: StoredItem, s: seq<Task>)
    ensures LoadedTasks(AfterSave(before, s, true)) == s
    ensures LoadedTasks(AfterSave(before, s, false)) == LoadedTasks(before)
  {
  }

  // ---------------------------------------------------------------------------
  // The confirm button as script.js wires it

  /**
    The action the confirm button is bound to after a showPopup call, as
    written: showPopup clones and replaces the button it found at start-up.
    The first call detaches that button, so every later call fails at
    confirmBtn.parentNode.replaceChild after the dialog is already shown, and
    the button in the page keeps the first callback it was given.
   */
  function BindAsWritten(bound: Option<Action>, a: Action): (r: Option<Action>)
    ensures r.Some?
    ensures r == Some(a) <==> bound.None? || bound == Some(a)
  {
    if bound.None? then Some(a) else bound
  }

  /** The binding after a series of showPopup calls, as written. */
  function BindAll(bound: Option<Action>, prompts: seq<Action>): Option<Action>
    decreases prompts
  {
    if prompts == [] then bound else BindAll(BindAsWritten(bound, prompts[0]), prompts[1..])
  }

  /** As written, once the button is bound, no number of later prompts rebinds it. */
  lemma {:induction false} BindingSticks(x: Action, later: seq<Action>)
    ensures BindAll(Some(x), later) == Some(x)
  {
    if later != [] {
      BindingSticks(x, later[1..]);
    }
  }

  /** As written, the first prompt of the session decides what every later confirm click runs. */
  lemma FirstBindingSticks(first: Action, later: seq<Action>)
    ensures BindAll(None, [first] + later) == Some(first)
  {
    assert ([first] + later)[1..] == later;
    BindingSticks(first, later);
  }

  /** The list after a click on the confirm button bound as written. */
  function ConfirmAsWritten(bound: Option<Action>, s: seq<Task>): (r: seq<Task>)
    ensures multiset(r) <= multiset(s)
    ensures bound.None? ==> r == s
  {
    if bound.Some? then Apply(bound.value, s) else s
  }

  /**
    As written, the second delete confirms the first prompt's action: after
    deleting the first of [a, b, c], a confirmed request to delete c (now at
    index 1) deletes b.
   */
  lemma AsWrittenDeletesWrongTask(a: Task, b: Task, c: Task)
    requires b != c
    ensures var first := BindAsWritten(None, DeleteAt(0));
            var afterFirst := ConfirmAsWritten(first, [a, b, c]);
            var second := BindAsWritten(first, DeleteAt(1));
            && afterFirst == [b, c]
            && ConfirmAsWritten(second, afterFirst) == [c]
            && Apply(DeleteAt(1), afterFirst) == [b]
            && ConfirmAsWritten(second, afterFirst) != Apply(DeleteAt(1), afterFirst)
  {
    assert Splice([a, b, c], 0) == [b, c];
    assert Splice([b, c], 1) == [b];
    assert [c] != [b] by { assert [c][0] != [b][0]; }
  }

  /**
    As written, once a success dialog was the first dialog of the session,
    confirming a later delete runs the success dialog's empty callback: the
    list stays as it was.
   */
  lemma AsWrittenSuccessDialogSwallowsDelete(s: seq<Task>, i: nat)
    requires i < |s|
    ensures var bound := BindAsWritten(BindAsWritten(None, Acknowledge), DeleteAt(i));
            && ConfirmAsWritten(bound, s) == s
            && |Apply(DeleteAt(i), s)| == |s| - 1
  {
  }

  /**
    The banner importTasks is meant to leave for a chosen file: the save
    outcome for an array, the format error for another value, the read error
    when the text does not parse.
   */
  function ImportBanner(p: Parsed, writable: bool): Option<string> {
    match p
    case JsonArray(_) => SaveBanner(writable)
    case JsonOther => Some(InvalidFormat)
    case Unparsable => Some(ReadError)
  }

  /**
    The banner importTasks leaves, as written: after any earlier dialog of the
    session, the success dialog of an import that was already appended and
    saved throws inside the try block, and the catch shows the read error.
   */
  function ImportBannerAsWritten(bound: Option<Action>, p: Parsed, writable: bool): (banner: Option<string>)
    ensures banner != ImportBanner(p, writable) <==> p.JsonArray? && bound.Some?
  {
    assert |ReadError| != |SaveFailed|;
    match p
    case JsonArray(_) => if bound.Some? then Some(ReadError) else SaveBanner(writable)
    case JsonOther => Some(InvalidFormat)
    case Unparsable => Some(ReadError)
  }

  /**
    As written, a successful import after an earlier dialog reports "Error
    reading file" although the tasks were appended, where the intended
    behaviour shows no error when the save succeeds.
   */
  lemma AsWrittenImportReportsReadError(bound: Option<Action>, elems: seq<Task>)
    requires bound.Some?
    ensures ImportBannerAsWritten(bound, JsonArray(elems), true) == Some(ReadError)
    ensures ImportBanner(JsonArray(elems), true) == None
  {
  }

  // ---------------------------------------------------------------------------
  // The store

  class TaskStore {
    /** The module-level list `tasks`. */
    var tasks: seq<Task>
    /** The action the confirm button of the dialog runs, if the dialog is open. */
    var pending: Option<Action>
    /** The localStorage slot 'todoTasks'. */
    var slot: StoredItem

    /** A pending delete always names a task that is still in the list. */
    ghost predicate Valid()
      reads this
    {
      pending.Some? && pending.value.DeleteAt? ==> pending.value.index < |tasks|
    }

    /** initializeApp: the list starts empty and is loaded from the slot; no dialog is open. */
    constructor (item: StoredItem)
      ensures Valid()
      ensures tasks == LoadedTasks(item) && pending == None && slot == item
    {
      tasks := [];
      pending := None;
      slot := item;
      new;
      LoadTasksFromStorage();
    }

    /** loadTasksFromStorage: an array replaces the list; any other value or a parse failure empties it; no text leaves it alone. */
    method LoadTasksFromStorage()
      requires tasks == []
      modifies this`tasks
      ensures tasks == LoadedTasks(slot)
    {
      match slot
      case Missing =>
      case EmptyText =>
      case Text(parsed) =>
        match parsed
        case JsonArray(elems) => tasks := elems;
        case JsonOther => tasks := [];
        case Unparsable => tasks := [];
    }

    /** saveTasksToStorage: writes the list; a failed write keeps the list and the old slot, and shows a warning. */
    method SaveTasksToStorage(writable: bool) returns (banner: Option<string>)
      modifies this`slot
      ensures slot == AfterSave(old(slot), tasks, writable)
      ensures banner == SaveBanner(writable)
    {
      if writable {
        slot := Stored(tasks);
        banner := None;
      } else {
        banner := Some(SaveFailed);
      }
    }

    /** showPopup: the dialog opens with a new action, which replaces any pending one. */
    method ShowPopup(a: Action)
      modifies this`pending
      ensures pending == Some(a)
    {
      pending := Some(a);
    }

    /** addTask: a valid input is trimmed and appended as a new task; an invalid one only shows its message. */
    method AddTask(input: string, now: int, isoNow: string, writable: bool) returns (banner: Option<string>)
      requires Valid()
      modifies this
      ensures Valid()
      ensures !ValidateTaskInput(input).isValid ==>
        tasks == old(tasks) && pending == old(pending) && slot == old(slot)
        && banner == Some(ValidateTaskInput(input).message)
      ensures ValidateTaskInput(input).isValid ==>
        && tasks == old(tasks) + [Task(now, Trim(input), isoNow)]
        && pending == Some(Acknowledge)
        && slot == AfterSave(old(slot), tasks, writable)
        && banner == SaveBanner(writable)
      ensures ValidateTaskInput(input).isValid ==>
        ValidateTaskInput(tasks[|tasks| - 1].text).isValid && IsTrimmed(tasks[|tasks| - 1].text)
    {
      var verdict := ValidateTaskInput(input);
      if !verdict.isValid {
        banner := Some(verdict.message);
        return;
      }
      var task := Task(now, Trim(input), isoNow);
      tasks := tasks + [task];
      banner := SaveTasksToStorage(writable);
      ShowPopup(Acknowledge);
      ValidateTrimmed(input);
    }

    /**
      editTask: `reply` is what prompt() returned (None when the user cancelled).
      A valid reply replaces only the text of the task at index, trimmed.
     */
    method EditTask(index: nat, reply: Option<string>, writable: bool) returns (banner: Option<string>)
      requires Valid()
      requires index < |tasks|
      modifies this
      ensures Valid()
      ensures reply.None? ==>
        tasks == old(tasks) && pending == old(pending) && slot == old(slot) && banner == None
      ensures reply.Some? && !ValidateTaskInput(reply.value).isValid ==>
        tasks == old(tasks) && pending == old(pending) && slot == old(slot)
        && banner == Some(ValidateTaskInput(reply.value).message)
      ensures reply.Some? && ValidateTaskInput(reply.value).isValid ==>
        && |tasks| == |old(tasks)|
        && tasks[index] == old(tasks)[index].(text := Trim(reply.value))
        && (forall j :: 0 <= j < |tasks| && j != index ==> tasks[j] == old(tasks)[j])
        && pending == Some(Acknowledge)
        && slot == AfterSave(old(slot), tasks, writable)
        && banner == SaveBanner(writable)
      ensures reply.Some? && ValidateTaskInput(reply.value).isValid ==>
        ValidateTaskInput(tasks[index].text).isValid && IsTrimmed(tasks[index].text)
    {
      banner := None;
      if reply.Some? {
        var verdict := ValidateTaskInput(reply.value);
        if !verdict.isValid {
          banner := Some(verdict.message);
          return;
        }
        tasks := tasks[index := tasks[index].(text := Trim(reply.value))];
        banner := SaveTasksToStorage(writable);
        ShowPopup(Acknowledge);
        ValidateTrimmed(reply.value);
      }
    }

    /** deleteTask: asks for confirmation; the list is not touched yet. */
    method DeleteTask(index: nat)
      requires Valid()
      requires index < |tasks|
      modifies this
      ensures Valid()
      ensures tasks == old(tasks) && slot == old(slot)
      ensures pending == Some(DeleteAt(index))
    {
      ShowPopup(DeleteAt(index));
    }

    /** deleteAllTasks: refuses on an empty list; otherwise asks for confirmation. */
    method DeleteAllTasks() returns (banner: Option<string>)
      requires Valid()
      modifies this
      ensures Valid()
      ensures tasks == old(tasks) && slot == old(slot)
      ensures old(tasks) == [] ==> pending == old(pending) && banner == Some(NoTasksToDelete)
      ensures old(tasks) != [] ==> pending == Some(ClearAll) && banner == None
    {
      if |tasks| == 0 {
        banner := Some(NoTasksToDelete);
        return;
      }
      banner := None;
      ShowPopup(ClearAll);
    }

    /** The confirm button: the dialog closes and its action runs; a delete or clear is saved. */
    method Confirm(writable: bool) returns (banner: Option<string>)
      requires Valid()
      modifies this
      ensures Valid()
      ensures pending == None
      ensures old(pending).None? ==> tasks == old(tasks) && slot == old(slot) && banner == None
      ensures old(pending).Some? ==> tasks == Apply(old(pending).value, old(tasks))
      ensures old(pending).Some? && old(pending).value.DeleteAt? ==>
        var i := old(pending).value.index;
        |tasks| == |old(tasks)| - 1 && tasks == old(tasks)[..i] + old(tasks)[i + 1..]
      ensures old(pending) == Some(Acknowledge) ==> slot == old(slot) && banner == None
      ensures old(pending).Some? && old(pending) != Some(Acknowledge) ==>
        slot == AfterSave(old(slot), tasks, writable) && banner == SaveBanner(writable)
    {
      banner := None;
      var action := pending;
      pending := None;
      match action
      case None =>
      case Some(a) =>
        match a
        case DeleteAt(i) =>
          tasks := Splice(tasks, i);
          banner := SaveTasksToStorage(writable);
        case ClearAll =>
          tasks := [];
          banner := SaveTasksToStorage(writable);
        case Acknowledge =>
    }

    /** The cancel button, or a click on the backdrop: the dialog closes and nothing runs. */
    method Cancel()
      modifies this`pending
      ensures Valid()
      ensures pending == None
    {
      pending := None;
    }

    /** exportTasks: refuses on an empty list; otherwise hands out the whole list, unchanged. */
    method ExportTasks() returns (banner: Option<string>, file: Option<seq<Task>>)
      requires Valid()
      modifies this`pending
      ensures Valid()
      ensures tasks == old(tasks)
      ensures tasks == [] ==> file == None && banner == Some(NoTasksToExport) && pending == old(pending)
      ensures tasks != [] ==> file == Some(tasks) && banner == None && pending == Some(Acknowledge)
    {
      if |tasks| == 0 {
        banner, file := Some(NoTasksToExport), None;
        return;
      }
      banner, file := None, Some(tasks);
      ShowPopup(Acknowledge);
    }

    /**
      importTasks: `file` is the parse of the chosen file (None when no file was
      chosen). An array is appended as it is, without validation.
     */
    method ImportTasks(file: Option<Parsed>, writable: bool) returns (banner: Option<string>)
      requires Valid()
      modifies this
      ensures Valid()
      ensures !(file.Some? && file.value.JsonArray?) ==> tasks == old(tasks) && slot == old(slot) && pending == old(pending)
      ensures file == None ==> banner == None
      ensures file.Some? ==> banner == ImportBanner(file.value, writable)
      ensures file.Some? && file.value.JsonArray? ==>
        && tasks == old(tasks) + file.value.elems
        && slot == AfterSave(old(slot), tasks, writable)
        && banner == SaveBanner(writable)
        && pending == Some(Acknowledge)
    {
      banner := None;
      match file
      case None =>
      case Some(parsed) =>
        match parsed
        case JsonArray(elems) =>
          tasks := tasks + elems;
          banner := SaveTasksToStorage(writable);
          ShowPopup(Acknowledge);
        case JsonOther =>
          banner := Some(InvalidFormat);
        case Unparsable =>
          banner := Some(ReadError);
    }
  }
}
