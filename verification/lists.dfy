/**
 The assistant's three stored lists: to-dos, notes and reminders. Each is
 kept in the browser's storage as a JSON array; here it is the sequence of
 records itself. Every record is identified by the clock reading taken when
 it was created.
 */
module Lists {
  datatype Todo = Todo(text: string, done: bool, id: int)
  datatype Note = Note(text: string, time: int, id: int)
  datatype Reminder = Reminder(id: int, text: string, timestamp: int)

  function TodoId(t: Todo): int { t.id }
  function ReminderId(r: Reminder): int { r.id }

  /** All ids are below `now`: a record created now gets an id no other record has. */
  predicate IdsBelow<T>(xs: seq<T>, idOf: T -> int, now: int) {
    forall i :: 0 <= i < |xs| ==> idOf(xs[i]) < now
  }

  /** No two records share an id. */
  predicate UniqueIds<T>(xs: seq<T>, idOf: T -> int) {
    forall i, j :: 0 <= i < j < |xs| ==> idOf(xs[i]) != idOf(xs[j])
  }

  /** The records whose id differs from `id`, in their order. */
  function Without<T>(xs: seq<T>, idOf: T -> int, id: int): (r: seq<T>)
    ensures |r| <= |xs|
    ensures forall i :: 0 <= i < |r| ==> r[i] in xs && idOf(r[i]) != id
    ensures forall i :: 0 <= i < |xs| && idOf(xs[i]) != id ==> xs[i] in r
  {
    if xs == [] then []
    else if idOf(xs[0]) != id then [xs[0]] + Without(xs[1..], idOf, id)
    else Without(xs[1..], idOf, id)
  }

  /** Filtering keeps relative order: it works piece by piece. */
  lemma {:induction false} WithoutAppend<T>(a: seq<T>, b: seq<T>, idOf: T -> int, id: int)
    ensures Without(a + b, idOf, id) == Without(a, idOf, id) + Without(b, idOf, id)
  {
    if a == [] {
      assert a + b == b;
    } else {
      assert (a + b)[0] == a[0];
      assert (a + b)[1..] == a[1..] + b;
      WithoutAppend(a[1..], b, idOf, id);
    }
  }

  /** Removing an id nobody has changes nothing. */
  lemma {:induction false} WithoutAbsent<T>(xs: seq<T>, idOf: T -> int, id: int)
    requires forall i :: 0 <= i < |xs| ==> idOf(xs[i]) != id
    ensures Without(xs, idOf, id) == xs
  {
    if xs != [] {
      WithoutAbsent(xs[1..], idOf, id);
    }
  }

  /** Removing the same id twice is removing it once. */
  lemma WithoutIdempotent<T>(xs: seq<T>, idOf: T -> int, id: int)
    ensures Without(Without(xs, idOf, id), idOf, id) == Without(xs, idOf, id)
  {
    var r := Without(xs, idOf, id);
    WithoutAbsent(r, idOf, id);
  }

  /** `addTodo`: a new open to-do at the end, identified by the clock. */
  function AddTodo(todos: seq<Todo>, text: string, now: int): (r: seq<Todo>)
    ensures |r| == |todos| + 1 && r[..|todos|] == todos
    ensures r[|todos|].text == text && !r[|todos|].done && r[|todos|].id == now
  {
    todos + [Todo(text, false, now)]
  }

  /** Adding a to-do keeps ids unique when the clock has moved past every id. */
  lemma AddTodoKeepsIdsUnique(todos: seq<Todo>, text: string, now: int)
    requires UniqueIds(todos, TodoId) && IdsBelow(todos, TodoId, now)
    ensures UniqueIds(AddTodo(todos, text, now), TodoId)
  {
    var r := AddTodo(todos, text, now);
    forall i, j | 0 <= i < j < |r| ensures TodoId(r[i]) != TodoId(r[j]) {
      assert r[i] == todos[i];
      if j < |todos| { assert r[j] == todos[j]; }
    }
  }

  /** Removing the to-do just added, by its id, gives back the list. */
  lemma AddThenRemoveTodo(todos: seq<Todo>, text: string, now: int)
    requires IdsBelow(todos, TodoId, now)
    ensures Without(AddTodo(todos, text, now), TodoId, now) == todos
  {
    WithoutAppend(todos, [Todo(text, false, now)], TodoId, now);
    WithoutAbsent(todos, TodoId, now);
  }

  /** `toggleTodo`: flip `done` on every to-do with the id; nothing else changes. */
  function Toggle(todos: seq<Todo>, id: int): (r: seq<Todo>)
    ensures |r| == |todos|
    ensures forall i :: 0 <= i < |r| ==>
              && r[i].text == todos[i].text && r[i].id == todos[i].id
              && (r[i].done <==> (todos[i].done != (todos[i].id == id)))
  {
    seq(|todos|, i requires 0 <= i < |todos| =>
      if todos[i].id == id then todos[i].(done := !todos[i].done) else todos[i])
  }

  /** Toggling twice restores the list. */
  lemma ToggleInvolution(todos: seq<Todo>, id: int)
    ensures Toggle(Toggle(todos, id), id) == todos
  {
    var r := Toggle(Toggle(todos, id), id);
    assert forall i :: 0 <= i < |r| ==> r[i] == todos[i];
  }

  /** Toggling an id nobody has changes nothing. */
  lemma ToggleAbsent(todos: seq<Todo>, id: int)
    requires forall i :: 0 <= i < |todos| ==> todos[i].id != id
    ensures Toggle(todos, id) == todos
  {
    assert forall i :: 0 <= i < |todos| ==> Toggle(todos, id)[i] == todos[i];
  }

  /** Toggling and removal commute: toggling never affects which to-dos another id removes. */
  lemma {:induction false} RemoveAfterToggle(todos: seq<Todo>, id: int, other: int)
    ensures Without(Toggle(todos, id), TodoId, other) == Toggle(Without(todos, TodoId, other), id)
  {
    if todos != [] {
      var head, rest := [todos[0]], todos[1..];
      assert todos == head + rest;
      ToggleAppend(head, rest, id);
      WithoutAppend(Toggle(head, id), Toggle(rest, id), TodoId, other);
      WithoutAppend(head, rest, TodoId, other);
      ToggleAppend(Without(head, TodoId, other), Without(rest, TodoId, other), id);
      RemoveAfterToggle(rest, id, other);
      assert Without(Toggle(head, id), TodoId, other) == Toggle(Without(head, TodoId, other), id) by {
        assert Toggle(head, id)[1..] == [];
        assert head[1..] == [];
      }
    }
  }

  /** Toggling works piece by piece. */
  lemma ToggleAppend(a: seq<Todo>, b: seq<Todo>, id: int)
    ensures Toggle(a + b, id) == Toggle(a, id) + Toggle(b, id)
  {
    var l, r := Toggle(a + b, id), Toggle(a, id) + Toggle(b, id);
    forall i | 0 <= i < |l| ensures l[i] == r[i] {
      if i < |a| { assert (a + b)[i] == a[i]; } else { assert (a + b)[i] == b[i - |a|]; }
    }
  }

  /** `addNote`: the new note goes first, stamped and identified by the clock. */
  function AddNote(notes: seq<Note>, text: string, now: int): (r: seq<Note>)
    ensures |r| == |notes| + 1 && r[1..] == notes
    ensures r[0].text == text && r[0].time == now && r[0].id == now
  {
    [Note(text, now, now)] + notes
  }

  /** Notes stay newest first. */
  predicate NewestFirst(notes: seq<Note>) {
    forall i, j :: 0 <= i < j < |notes| ==> notes[i].time >= notes[j].time
  }

  /** Adding a note keeps the list newest first when the clock has not gone back. */
  lemma AddNoteKeepsNewestFirst(notes: seq<Note>, text: string, now: int)
    requires NewestFirst(notes)
    requires forall i :: 0 <= i < |notes| ==> notes[i].time <= now
    ensures NewestFirst(AddNote(notes, text, now))
  {
    var r := AddNote(notes, text, now);
    forall i, j | 0 <= i < j < |r| ensures r[i].time >= r[j].time {
      assert r[j] == notes[j - 1];
      if i > 0 { assert r[i] == notes[i - 1]; }
    }
  }

  /** The reminder list once `scheduleReminder` has stored a new one: appended, identified by the clock. */
  function AddReminder(reminders: seq<Reminder>, text: string, timestamp: int, now: int): (r: seq<Reminder>)
    ensures |r| == |reminders| + 1 && r[..|reminders|] == reminders
    ensures r[|reminders|] == Reminder(now, text, timestamp)
  {
    reminders + [Reminder(now, text, timestamp)]
  }

  /** Delivering (or removing in the list view) the reminder just stored gives back the list. */
  lemma AddThenRemoveReminder(reminders: seq<Reminder>, text: string, timestamp: int, now: int)
    requires IdsBelow(reminders, ReminderId, now)
    ensures Without(AddReminder(reminders, text, timestamp, now), ReminderId, now) == reminders
  {
    WithoutAppend(reminders, [Reminder(now, text, timestamp)], ReminderId, now);
    WithoutAbsent(reminders, ReminderId, now);
  }
}
