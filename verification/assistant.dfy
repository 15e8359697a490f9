/**
 The client-side assistant: what a chat message does to the stored lists and
 what the assistant replies, the reminder timers, and the listener that
 takes the signed-in account from the login popup.
 */
module Assistant {
  import opened Common
  import opened Text
  import opened Tokens
  import opened Kv
  import opened Http
  import opened OAuth
  import opened Commands
  import opened Lists
  import opened Timing

  const AddedPrefix: string := "Added to\U{2011}do: \""
  const NoTodos: string := "You have no to\U{2011}dos."
  const TodosTitle: string := "To\U{2011}dos:"
  const ReplyOpening: string := "Okay \U{2014} I'll remind you to \""
  const NotePrefix: string := "Saved a note: \""
  const HelpReply: string :=
    "I can manage simple to\U{2011}dos, notes, and reminders. Try: \"add todo buy milk\", \"remind me to stretch in 10 minutes\", \"save note: buy milk\"."
  const DefaultReply: string := "I can help with to\U{2011}dos, notes and reminders \U{2014} say 'help' for examples."
  /** The note reply quotes at most this many characters of the note. */
  const NoteQuote: nat := 60

  // ---------------------------------------------------------------- client state

  /** A timer armed by `setTimeout`: when it fires and the reminder it was armed for. */
  datatype Timer = Timer(due: int, reminder: Reminder)

  /**
   The browser side: the three stored lists, the assistant's chat messages
   (only those the model produces), and the armed timers.
   */
  datatype Client = Client(todos: seq<Todo>, notes: seq<Note>, reminders: seq<Reminder>,
                           log: seq<string>, timers: seq<Timer>)

  /** `deliverReminder`: say it in the chat and drop the reminder from the stored list. */
  function Deliver(c: Client, r: Reminder): (d: Client)
    ensures |d.log| == |c.log| + 1 && d.log[..|c.log|] == c.log && d.log[|c.log|] == "Reminder: " + r.text
    ensures forall i :: 0 <= i < |d.reminders| ==> d.reminders[i].id != r.id
    ensures forall i :: 0 <= i < |c.reminders| && c.reminders[i].id != r.id ==> c.reminders[i] in d.reminders
    ensures d.todos == c.todos && d.notes == c.notes && d.timers == c.timers
  {
    c.(log := c.log + ["Reminder: " + r.text], reminders := Without(c.reminders, ReminderId, r.id))
  }

  /** `scheduleTimeout` on the client: deliver a due reminder, otherwise arm a timer. */
  function ScheduleTimeout(c: Client, r: Reminder, now: int): (d: Client)
    ensures r.timestamp <= now ==> d == Deliver(c, r)
    ensures r.timestamp > now ==>
              && d.todos == c.todos && d.notes == c.notes && d.reminders == c.reminders && d.log == c.log
              && |d.timers| == |c.timers| + 1 && d.timers[..|c.timers|] == c.timers
              && d.timers[|c.timers|].reminder == r
              && now < d.timers[|c.timers|].due <= r.timestamp
  {
    match TimeoutFor(r, now)
    case DeliverNow => Deliver(c, r)
    case Arm(delay) => c.(timers := c.timers + [Timer(now + delay, r)])
  }

  /** `scheduleReminder`: store the reminder, identified by the clock, and schedule it. */
  function ScheduleReminder(c: Client, timestamp: int, text: string, now: int): (d: Client)
    ensures d.todos == c.todos && d.notes == c.notes
    ensures timestamp > now ==>
              && d.reminders == AddReminder(c.reminders, text, timestamp, now)
              && d.log == c.log && |d.timers| == |c.timers| + 1
              && d.timers[|c.timers|] .reminder == Reminder(now, text, timestamp)
    ensures timestamp <= now ==> d.log == c.log + ["Reminder: " + text]
  {
    var r := Reminder(now, text, timestamp);
    ScheduleTimeout(c.(reminders := AddReminder(c.reminders, text, timestamp, now)), r, now)
  }

  /** A reminder that is already due is delivered at once and leaves the stored list as it was. */
  lemma DueReminderLeavesNoTrace(c: Client, timestamp: int, text: string, now: int)
    requires timestamp <= now && IdsBelow(c.reminders, ReminderId, now)
    ensures ScheduleReminder(c, timestamp, text, now).reminders == c.reminders
  {
    AddThenRemoveReminder(c.reminders, text, timestamp, now);
  }

  function RemoveAt<T>(xs: seq<T>, k: nat): seq<T>
    requires k < |xs|
  {
    xs[..k] + xs[k + 1..]
  }

  /** The `k`-th timer fires and its callback delivers the reminder, due or not. */
  function FireAsWritten(c: Client, k: nat): (d: Client)
    requires k < |c.timers|
    ensures var r := c.timers[k].reminder;
            && d.log == c.log + ["Reminder: " + r.text]
            && |d.timers| == |c.timers| - 1
            && forall i :: 0 <= i < |d.reminders| ==> d.reminders[i].id != r.id
  {
    Deliver(c.(timers := RemoveAt(c.timers, k)), c.timers[k].reminder)
  }

  /** A timer armed for a reminder more than 2^31 - 1 ms away delivers it early. */
  lemma FiresEarlyAsWritten(c: Client, r: Reminder, now: int)
    requires r.timestamp - now > MaxDelay
    ensures var armed := ScheduleTimeout(c, r, now);
            var k := |c.timers|;
            && armed.timers[k].due < r.timestamp
            && |FireAsWritten(armed, k).log| == |c.log| + 1
  {
  }

  /**
   The `k`-th timer fires at its due time; its callback delivers the reminder
   when it is due and arms a new timer otherwise.
   */
  function Fire(c: Client, k: nat): (d: Client)
    requires k < |c.timers|
    ensures var t := c.timers[k];
            && (d.log != c.log <==> t.due >= t.reminder.timestamp)
            && (t.due < t.reminder.timestamp ==> d.reminders == c.reminders && |d.timers| == |c.timers|)
  {
    var t := c.timers[k];
    ScheduleTimeout(c.(timers := RemoveAt(c.timers, k)), t.reminder, t.due)
  }

  // ---------------------------------------------------------------- replies

  /** The command a (trimmed) chat message is, in the order the patterns are tried. */
  datatype Command =
    | AddTodoCmd(text: string)
    | ReminderCmd(m: ReminderMatch)
    | ListCmd
    | NoteCmd(body: string)
    | HelpCmd
    | DefaultCmd

  /** The note text: everything after the first colon, the pieces split at colons joined back, trimmed. */
  function NoteBody(s: string): (body: string)
    requires ':' in s
    ensures body == Trim(s[IndexOf(s, ':') + 1..])
  {
    JoinTailOfSplit(s, ':');
    Trim(Join(Split(s, ':')[1..], [':']))
  }

  /** Which command a message is: the first pattern that matches wins. */
  function CommandOf(s: string): (cmd: Command)
    ensures cmd.AddTodoCmd? <==> AddTodoCommand(s).Some?
    ensures cmd.ReminderCmd? <==> AddTodoCommand(s).None? && ReminderCommand(s).Some?
    ensures cmd.ListCmd? <==> AddTodoCommand(s).None? && ReminderCommand(s).None? && ListWords(s)
    ensures cmd.NoteCmd? <==> AddTodoCommand(s).None? && ReminderCommand(s).None? && !ListWords(s) && NoteWords(s)
    ensures cmd.HelpCmd? <==>
              AddTodoCommand(s).None? && ReminderCommand(s).None? && !ListWords(s) && !NoteWords(s) && HelpWords(s)
    ensures cmd.AddTodoCmd? ==> AddTodoCommand(s) == Some(cmd.text)
    ensures cmd.ReminderCmd? ==> ReminderCommand(s) == Some(cmd.m)
    ensures cmd.NoteCmd? ==> ':' in s && cmd.body == Trim(s[IndexOf(s, ':') + 1..])
  {
    match AddTodoCommand(s)
    case Some(text) => AddTodoCmd(text)
    case None =>
      match ReminderCommand(s)
      case Some(m) => ReminderCmd(m)
      case None =>
        if ListWords(s) then ListCmd
        else if NoteWords(s) then NoteCmd(NoteBody(s))
        else if HelpWords(s) then HelpCmd
        else DefaultCmd
  }

  /** One line of the to-do listing: `{i+1}. {text}`, and ` (done)` for a finished one. */
  function TodoLine(i: nat, t: Todo): (line: string)
    ensures var n := NatToString(i + 1);
            && |n| + 2 + |t.text| <= |line|
            && line[..|n|] == n && ParseDigits(n) == i + 1
            && line[|n|..|n| + 2] == ". " && line[|n| + 2..|n| + 2 + |t.text|] == t.text
            && line[|n| + 2 + |t.text|..] == (if t.done then " (done)" else "")
  {
    ParseNatToString(i + 1);
    var n := NatToString(i + 1);
    var line := n + ". " + t.text + (if t.done then " (done)" else "");
    assert line[..|n|] == n;
    assert line[|n|..|n| + 2] == ". ";
    assert line[|n| + 2..|n| + 2 + |t.text|] == t.text;
    line
  }

  function TodoLines(todos: seq<Todo>): (lines: seq<string>)
    ensures |lines| == |todos|
    ensures forall i :: 0 <= i < |todos| ==> lines[i] == TodoLine(i, todos[i])
  {
    seq(|todos|, i requires 0 <= i < |todos| => TodoLine(i, todos[i]))
  }

  /** The reply to "list todos". */
  function TodoListing(todos: seq<Todo>): (r: string)
    ensures todos == [] <==> r == NoTodos
  {
    if todos == [] then NoTodos
    else
      var r := TodosTitle + "\n" + Join(TodoLines(todos), "\n");
      assert r[4] != NoTodos[4];
      r
  }

  /** No to-do text holds a line break. */
  predicate SingleLineTodos(todos: seq<Todo>) {
    forall i :: 0 <= i < |todos| ==> '\n' !in todos[i].text
  }

  /** A to-do line holds a line break only when the to-do's text does. */
  lemma TodoLineSingle(i: nat, t: Todo)
    requires '\n' !in t.text
    ensures '\n' !in TodoLine(i, t)
  {
    var digits := NatToString(i + 1);
    assert forall k :: 0 <= k < |digits| ==> digits[k] != '\n';
  }

  /** Splitting the listing at line breaks gives the title, then one numbered line per to-do in order. */
  lemma TodoListingLines(todos: seq<Todo>)
    requires todos != [] && SingleLineTodos(todos)
    ensures Split(TodoListing(todos), '\n') == [TodosTitle] + TodoLines(todos)
  {
    var lines := [TodosTitle] + TodoLines(todos);
    forall i | 0 <= i < |lines| ensures '\n' !in lines[i] {
      if i > 0 {
        TodoLineSingle(i - 1, todos[i - 1]);
      }
    }
    assert lines[1..] == TodoLines(todos);
    SplitJoin(lines, '\n');
  }

  /** The reply to a reminder command: the text, the number as read, and the unit as captured. */
  function ReminderReply(m: ReminderMatch): (reply: string)
    requires Digits(m.digits)
    ensures var n := NatToString(ParseDigits(m.digits));
            && reply == ReplyOpening + m.text + "\" in " + n + " " + m.unit + "."
            && ParseDigits(n) == ParseDigits(m.digits) && (|n| > 1 ==> n[0] != '0')
  {
    ParseNatToString(ParseDigits(m.digits));
    ReplyOpening + m.text + "\" in " + NatToString(ParseDigits(m.digits)) + " " + m.unit + "."
  }

  /**
   What a command does: the reply and the client state after it. Only the
   list the command is about changes; the list, help and default replies
   change nothing.
   */
  function Respond(cmd: Command, c: Client, now: int): (r: (string, Client))
    requires cmd.ReminderCmd? ==> Digits(cmd.m.digits)
    ensures r.1.todos != c.todos ==> cmd.AddTodoCmd?
    ensures r.1.notes != c.notes ==> cmd.NoteCmd?
    ensures r.1.reminders != c.reminders || r.1.log != c.log || r.1.timers != c.timers ==> cmd.ReminderCmd?
    ensures cmd.ListCmd? ==> r == (TodoListing(c.todos), c)
    ensures cmd.HelpCmd? ==> r == (HelpReply, c)
    ensures cmd.DefaultCmd? ==> r == (DefaultReply, c)
    ensures cmd.AddTodoCmd? ==> r == (AddedPrefix + cmd.text + "\"", c.(todos := AddTodo(c.todos, cmd.text, now)))
    ensures cmd.NoteCmd? ==>
              && r.0 == NotePrefix + Take(cmd.body, NoteQuote) + "\""
              && |r.0| <= |NotePrefix| + NoteQuote + 1
              && r.1 == c.(notes := AddNote(c.notes, cmd.body, now))
    ensures cmd.ReminderCmd? ==>
              && r.0 == ReminderReply(cmd.m)
              && r.1 == ScheduleReminder(c, now + DurationAsWritten(cmd.m.unit, ParseDigits(cmd.m.digits)), cmd.m.text, now)
  {
    match cmd
    case AddTodoCmd(text) => (AddedPrefix + text + "\"", c.(todos := AddTodo(c.todos, text, now)))
    case ReminderCmd(m) =>
      var num := ParseDigits(m.digits);
      var ms := DurationAsWritten(m.unit, num);
      (ReminderReply(m), ScheduleReminder(c, now + ms, m.text, now))
    case ListCmd => (TodoListing(c.todos), c)
    case NoteCmd(body) => (NotePrefix + Take(body, NoteQuote) + "\"", c.(notes := AddNote(c.notes, body, now)))
    case HelpCmd => (HelpReply, c)
    case DefaultCmd => (DefaultReply, c)
  }

  /**
   `assistantReply`: the trimmed message's command, carried out. An add-todo
   message adds its capture; only a reminder message touches the reminders,
   the chat log or the timers, and only a note message the notes; a message
   no pattern or word test recognises gets the default reply and changes
   nothing.
   */
  function AssistantReply(message: string, c: Client, now: int): (r: (string, Client))
    ensures var s := Trim(message);
            AddTodoCommand(s).Some? ==>
              r == (AddedPrefix + AddTodoCommand(s).value + "\"", c.(todos := AddTodo(c.todos, AddTodoCommand(s).value, now)))
    ensures r.1.todos != c.todos ==> AddTodoCommand(Trim(message)).Some?
    ensures r.1.notes != c.notes ==>
              && AddTodoCommand(Trim(message)).None? && ReminderCommand(Trim(message)).None?
              && NoteWords(Trim(message)) && ':' in Trim(message)
    ensures r.1.reminders != c.reminders || r.1.log != c.log || r.1.timers != c.timers ==>
              AddTodoCommand(Trim(message)).None? && ReminderCommand(Trim(message)).Some?
    ensures var s := Trim(message);
            AddTodoCommand(s).None? && ReminderCommand(s).None? && !ListWords(s) && !NoteWords(s) && !HelpWords(s) ==>
              r == (DefaultReply, c)
  {
    var cmd := CommandOf(Trim(message));
    assert cmd.ReminderCmd? ==> Digits(cmd.m.digits);
    Respond(cmd, c, now)
  }

  /** Typing `add todo {text}` adds exactly that to-do and confirms it. */
  lemma AddTodoViaChat(verb: string, text: string, c: Client, now: int)
    requires |verb| == 9 && CiAt(verb, 0, "add todo ")
    requires text != [] && !IsSpace(text[0]) && !IsSpace(text[|text| - 1]) && NoLineTerminator(text, 0, |text|)
    ensures AssistantReply(verb + text, c, now) == (AddedPrefix + text + "\"", c.(todos := AddTodo(c.todos, text, now)))
  {
    CiAtChar(verb, "add todo ", 0);
    var s := verb + text;
    assert s[0] == verb[0] && s[|s| - 1] == text[|text| - 1];
    TrimUnchanged(s);
    AddTodoRoundTrip(verb, text);
  }

  /**
   `d` is `c` with a reminder for `text`, due at `due` (later than `now`),
   added at the end of the list and a timer armed for it; nothing else changed.
   */
  predicate Scheduled(c: Client, d: Client, text: string, due: int, now: int) {
    && due > now
    && d.reminders == c.reminders + [Reminder(now, text, due)]
    && |d.timers| == |c.timers| + 1 && d.timers[|c.timers|].reminder == Reminder(now, text, due)
    && d.log == c.log && d.todos == c.todos && d.notes == c.notes
  }

  /**
   A reminder command with a positive number and a unit typed in lower case
   stores the reminder for the time asked and arms a timer for it.
   */
  lemma ReminderCommandSchedules(m: ReminderMatch, c: Client, now: int)
    requires Digits(m.digits) && LowerCaseUnit(m.unit) && ParseDigits(m.digits) > 0
    ensures Scheduled(c, Respond(ReminderCmd(m), c, now).1, m.text, now + Duration(m.unit, ParseDigits(m.digits)), now)
  {
    DurationAsWrittenLowerCase(m.unit, ParseDigits(m.digits));
    DurationPositive(m.unit, ParseDigits(m.digits));
    ScheduleReminderArms(c, now + Duration(m.unit, ParseDigits(m.digits)), m.text, now);
  }

  /**
   A reminder command whose delay as written is 0 (the number is 0, or the
   unit has a capital letter) delivers the reminder at once: the chat shows
   it, and the lists and timers are as they were.
   */
  lemma ReminderDeliveredAtOnce(m: ReminderMatch, c: Client, now: int)
    requires Digits(m.digits) && DurationAsWritten(m.unit, ParseDigits(m.digits)) == 0
    requires IdsBelow(c.reminders, ReminderId, now)
    ensures Respond(ReminderCmd(m), c, now) == (ReminderReply(m), c.(log := c.log + ["Reminder: " + m.text]))
  {
    DueReminderLeavesNoTrace(c, now, m.text, now);
  }

  /**
   For a positive number the delay as written is positive exactly when the
   unit starts with one of the lower-case words; the intended delay of a
   unit word always is.
   */
  lemma DurationPositive(unit: string, num: nat)
    requires num > 0
    ensures DurationAsWritten(unit, num) > 0 <==>
              StartsWith(unit, "second") || StartsWith(unit, "minute") || StartsWith(unit, "hour")
    ensures UnitWord(unit) ==> Duration(unit, num) > 0
  {
  }

  /** Scheduling a reminder for later stores it at the end of the list and arms a timer for it. */
  lemma ScheduleReminderArms(c: Client, timestamp: int, text: string, now: int)
    requires timestamp > now
    ensures var d := ScheduleReminder(c, timestamp, text, now);
            && d.reminders == c.reminders + [Reminder(now, text, timestamp)]
            && |d.timers| == |c.timers| + 1 && d.timers[|c.timers|].reminder == Reminder(now, text, timestamp)
            && d.log == c.log && d.todos == c.todos && d.notes == c.notes
  {
  }

  /** A typed reminder command is its own trim. */
  lemma ReminderMessageTrimmed(verb: string, text: string, digits: string, unit: string)
    requires |verb| == 13 && CiAt(verb, 0, "remind me to ") && UnitSpelling(unit)
    ensures var s := verb + text + ReminderTail(digits, unit); Trim(s) == s
  {
    var s := verb + text + ReminderTail(digits, unit);
    CiAtChar(verb, "remind me to ", 0);
    UnitLetters(unit);
    LetterIsNoSpace(unit[|unit| - 1]);
    assert s[0] == verb[0] && s[|s| - 1] == unit[|unit| - 1];
    TrimUnchanged(s);
  }

  /**
   `remind me to ` in any letter case, a one-line text that starts with a
   non-space, a number and a unit spelling: the pieces of a typed reminder.
   */
  predicate TypedReminder(verb: string, text: string, digits: string, unit: string) {
    && |verb| == 13 && CiAt(verb, 0, "remind me to ")
    && text != [] && !IsSpace(text[0]) && NoLineTerminator(text, 0, |text|)
    && Digits(digits) && UnitSpelling(unit)
  }

  /** The command a typed reminder message is. */
  lemma ReminderMessageCommand(verb: string, text: string, digits: string, unit: string)
    requires TypedReminder(verb, text, digits, unit)
    requires AddTodoCommand(verb + text + ReminderTail(digits, unit)).None?
    ensures CommandOf(Trim(verb + text + ReminderTail(digits, unit)))
            == ReminderCmd(ReminderMatch(text, digits, Singular(unit)))
  {
    ReminderMessageTrimmed(verb, text, digits, unit);
    ReminderRoundTrip(verb, text, digits, unit);
  }

  /**
   A message that reads as a reminder command with a positive number stores
   the reminder for the time asked and arms a timer for it. Together with
   `ReminderMessageCommand`: typing `remind me to {text} in {digits} {unit}`
   schedules `text` for `digits` units from now.
   */
  lemma ReminderViaChat(message: string, m: ReminderMatch, c: Client, now: int)
    requires CommandOf(Trim(message)) == ReminderCmd(m) && ParseDigits(m.digits) > 0 && LowerCaseUnit(m.unit)
    ensures Scheduled(c, AssistantReply(message, c, now).1, m.text, now + Duration(m.unit, ParseDigits(m.digits)), now)
  {
    ReminderCommandSchedules(m, c, now);
  }

  /**
   A message that reads as a reminder command whose unit has a capital letter
   is delivered at once, whatever the number: typing
   `remind me to {text} in {digits} Minutes` says the reminder right away and
   stores nothing.
   */
  lemma CapitalReminderViaChat(message: string, m: ReminderMatch, c: Client, now: int)
    requires CommandOf(Trim(message)) == ReminderCmd(m) && !LowerCaseUnit(m.unit)
    requires IdsBelow(c.reminders, ReminderId, now)
    ensures AssistantReply(message, c, now).1 == c.(log := c.log + ["Reminder: " + m.text])
  {
    assert WellFormedMatch(m);
    DurationAsWrittenOfCapture(m.unit, ParseDigits(m.digits));
    ReminderDeliveredAtOnce(m, c, now);
  }

  // ---------------------------------------------------------------- login popup

  const GauthType: string := "cloudassistant:gauth"

  /** The `type` and `email` of a posted message; absent when the data is not an object that has them. */
  datatype MessageData = MessageData(kind: Option<string>, email: Option<string>)

  /** What the callback page posts to the window that opened it. */
  function PostedMessage(body: Body): Option<MessageData> {
    if body.AuthPage? then Some(MessageData(Some(GauthType), Some(body.email))) else None
  }

  /**
   The page's `message` listener: the email it stores as the signed-in
   account, or `None` when it ignores the message.
   */
  function Listen(data: Option<MessageData>): (stored: Option<string>)
    ensures stored.Some? ==> data.Some? && data.value.kind == Some(GauthType) && stored == data.value.email
    ensures stored.Some? ==> stored.value != ""
  {
    if data.Some? && data.value.kind == Some(GauthType) && Truthy(data.value.email) then data.value.email else None
  }

  /** The listener accepts exactly messages of the login type that carry a non-empty email. */
  lemma ListenAccepts(data: Option<MessageData>)
    ensures Listen(data).Some? <==> data.Some? && data.value.kind == Some(GauthType) && Truthy(data.value.email)
  {
  }

  /** After a successful login, the opener stores the account the worker filed the tokens under. */
  lemma LoginReachesOpener(env: Env, req: Request, store: Store, now: int, sessionId: string,
                           exchange: Net<TokenReply>, user: Net<UserInfo>)
    requires LoginSucceeds(req, exchange, user)
    ensures Listen(PostedMessage(Callback(env, req, store, now, sessionId, exchange, user).response.body))
            == Some(Identity(user.answer))
  {
  }
}
