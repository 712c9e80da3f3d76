/**
  Sequences of user actions on a freshly started store, proved from the
  operations' contracts alone.
 */
module Scenarios {
  import opened Wrappers
  import opened Validation
  import opened TodoList

  /** A task added with a working store is there, last, after the next start-up. */
  method AddThenRestart(item: StoredItem, input: string, now: int, isoNow: string)
    returns (restarted: seq<Task>)
    requires ValidateTaskInput(input).isValid
    ensures restarted == LoadedTasks(item) + [Task(now, Trim(input), isoNow)]
  {
    var store := new TaskStore(item);
    var _ := store.AddTask(input, now, isoNow, true);
    var next := new TaskStore(store.slot);
    restarted := next.tasks;
  }

  /** An input the validator rejects changes neither the list nor what is stored. */
  method RejectedAddChangesNothing(item: StoredItem, input: string, now: int, isoNow: string)
    returns (after: seq<Task>, stored: StoredItem, banner: Option<string>)
    requires !ValidateTaskInput(input).isValid
    ensures after == LoadedTasks(item)
    ensures stored == item
    ensures banner.Some? && banner.value != ""
  {
    var store := new TaskStore(item);
    banner := store.AddTask(input, now, isoNow, true);
    after, stored := store.tasks, store.slot;
  }

  /** A delete changes the list only when confirmed, and then removes exactly that task. */
  method DeleteAnswered(item: StoredItem, index: nat, confirmed: bool) returns (after: seq<Task>)
    requires index < |LoadedTasks(item)|
    ensures var before := LoadedTasks(item);
            if confirmed then after == before[..index] + before[index + 1..]
            else after == before
  {
    var store := new TaskStore(item);
    store.DeleteTask(index);
    assert store.tasks == LoadedTasks(item);
    if confirmed {
      var _ := store.Confirm(true);
    } else {
      store.Cancel();
    }
    after := store.tasks;
  }

  /** Delete the task at i and confirm it, with a working store. */
  method ConfirmedDelete(store: TaskStore, i: nat)
    requires store.Valid() && i < |store.tasks|
    modifies store
    ensures store.Valid()
    ensures store.tasks == old(store.tasks)[..i] + old(store.tasks)[i + 1..]
  {
    store.DeleteTask(i);
    var _ := store.Confirm(true);
  }

  /**
    With the dialog's action replaced by each prompt, two confirmed deletes
    remove the two tasks the user picked: first a, then c.
   */
  method LatestPromptWins(a: Task, b: Task, c: Task) returns (after: seq<Task>)
    ensures after == [b]
  {
    var store := new TaskStore(Text(JsonArray([a, b, c])));
    ConfirmedDelete(store, 0);
    assert store.tasks == [b, c];
    ConfirmedDelete(store, 1);
    after := store.tasks;
  }

  /**
    A delete confirmed after a successful add, whose success dialog came
    first, removes exactly the chosen task.
   */
  method DeleteAfterAdd(item: StoredItem, input: string, now: int, isoNow: string, index: nat)
    returns (after: seq<Task>)
    requires ValidateTaskInput(input).isValid
    requires index <= |LoadedTasks(item)|
    ensures var before := LoadedTasks(item) + [Task(now, Trim(input), isoNow)];
            after == before[..index] + before[index + 1..]
  {
    var store := new TaskStore(item);
    var _ := store.AddTask(input, now, isoNow, true);
    var _ := store.Confirm(true);
    ConfirmedDelete(store, index);
    after := store.tasks;
  }

  /** Clearing asks first: cancelled, the list stays; confirmed, it is empty; on an empty list, only a notice. */
  method ClearAnswered(item: StoredItem, confirmed: bool) returns (after: seq<Task>, banner: Option<string>)
    ensures LoadedTasks(item) == [] ==> after == [] && banner == Some(NoTasksToDelete)
    ensures LoadedTasks(item) != [] && !confirmed ==> after == LoadedTasks(item) && banner == None
    ensures LoadedTasks(item) != [] && confirmed ==> after == [] && banner == None
  {
    var store := new TaskStore(item);
    banner := store.DeleteAllTasks();
    if confirmed && banner == None {
      banner := store.Confirm(true);
    } else {
      store.Cancel();
    }
    after := store.tasks;
  }

  /** Importing two tasks into a list of three gives five: the three first, then the two, in order. */
  method ImportTwoIntoThree(x: Task, y: Task, z: Task, u: Task, v: Task) returns (after: seq<Task>)
    ensures after == [x, y, z, u, v]
  {
    var store := new TaskStore(Text(JsonArray([x, y, z])));
    var _ := store.ImportTasks(Some(JsonArray([u, v])), true);
    after := store.tasks;
  }

  /** A file that is not an array changes nothing and reports the format error. */
  method ImportNonArray(item: StoredItem) returns (after: seq<Task>, banner: Option<string>)
    ensures after == LoadedTasks(item)
    ensures banner == Some(InvalidFormat)
  {
    var store := new TaskStore(item);
    banner := store.ImportTasks(Some(JsonOther), true);
    after := store.tasks;
  }
}
