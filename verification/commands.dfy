/**
 The chat commands the client-side assistant recognises, each a JavaScript
 regular expression restated as a search over the message:

 - add-todo: `/(?:add|create) (?:a )?todo[: ]?\s*(.+)/i`
 - reminder: `/(?:remind me to)\s+(.+)\s+in\s+(\d+)\s*(second|seconds|minute|minutes|hour|hours)/i`
 - list, note and help: case-insensitive "contains one of these words" tests.

 A regular expression finds its leftmost match, and at each position tries
 its alternatives in order, longest run first for greedy quantifiers,
 giving characters back one at a time. The functions below make the same
 choices in the same order, so the captures are the ones the browser
 produces.
 */
module Commands {
  import opened Common
  import opened Text

  // ---------------------------------------------------------------- add-todo

  /** `.+` can start at `q`: there is a character there and it is not a line terminator. */
  predicate RestAt(s: string, q: nat) {
    q < |s| && !IsLineTerminator(s[q])
  }

  /**
   `\s*(.+)` where `\s*` has first taken the `k` white-space characters
   after `r`: the position where the capture starts, giving back one white
   space character at a time until `.+` can begin.
   */
  function GiveBackSpaces(s: string, r: nat, k: nat): (q: Option<nat>)
    requires r + k <= |s|
    ensures q.Some? ==> r <= q.value <= r + k && RestAt(s, q.value)
    ensures q.Some? ==> forall j :: q.value < j <= r + k ==> !RestAt(s, j)
    ensures q.None? ==> forall j :: r <= j <= r + k ==> !RestAt(s, j)
  {
    if RestAt(s, r + k) then Some(r + k)
    else if k == 0 then None
    else GiveBackSpaces(s, r, k - 1)
  }

  /** `\s*(.+)` from `r`, the white-space run taken whole first. */
  function SpacesThenRest(s: string, r: nat): Option<nat>
    requires r <= |s|
  {
    GiveBackSpaces(s, r, SpaceRun(s, r))
  }

  /** After `todo`: `[: ]?` takes a colon or a space when there is one, and does without it if that fails. */
  function AfterTodo(s: string, t: nat): Option<nat>
    requires t <= |s|
  {
    if t < |s| && (s[t] == ':' || s[t] == ' ') then
      match SpacesThenRest(s, t + 1)
      case Some(q) => Some(q)
      case None => SpacesThenRest(s, t)
    else
      SpacesThenRest(s, t)
  }

  /** After the verb and its space: `(?:a )?todo`, with the article tried first. */
  function AfterVerb(s: string, v: nat): Option<nat>
    requires v <= |s|
  {
    var withArticle := if CiAt(s, v, "a todo") then AfterTodo(s, v + 6) else None;
    if withArticle.Some? then withArticle
    else if CiAt(s, v, "todo") then AfterTodo(s, v + 4)
    else None
  }

  /** Where the capture of the add-todo pattern starts when the pattern matches at `p`. */
  function AddTodoAt(s: string, p: nat): (q: Option<nat>)
    requires p <= |s|
    ensures q.Some? ==> (CiAt(s, p, "add ") || CiAt(s, p, "create ")) && p + 8 <= q.value && RestAt(s, q.value)
  {
    if CiAt(s, p, "add ") then AfterVerb(s, p + 4)
    else if CiAt(s, p, "create ") then AfterVerb(s, p + 7)
    else None
  }

  /**
   The leftmost position in `p..last` where a pattern matches, given what
   the pattern yields at each position, with what it yields there.
   */
  function Leftmost<T>(at: nat -> Option<T>, p: nat, last: nat): (r: Option<(nat, T)>)
    ensures r.Some? ==> p <= r.value.0 <= last && at(r.value.0) == Some(r.value.1)
    ensures r.Some? ==> forall j :: p <= j < r.value.0 ==> at(j).None?
    ensures r.None? ==> forall j :: p <= j <= last ==> at(j).None?
    decreases last + 1 - p
  {
    if p > last then None
    else
      match at(p)
      case Some(x) => Some((p, x))
      case None => Leftmost(at, p + 1, last)
  }

  /** When the search finds nothing, the pattern yields nothing at any position searched. */
  lemma NoneBefore<T>(at: nat -> Option<T>, p: nat, last: nat, j: nat)
    requires Leftmost(at, p, last).None? && p <= j <= last
    ensures at(j).None?
  {
  }

  /** What the add-todo pattern yields at each position: the start of its capture. */
  function AddTodoAtAny(s: string): nat -> Option<nat> {
    (p: nat) => if p <= |s| then AddTodoAt(s, p) else None
  }

  /** `.+` from `q`: everything up to the end of the line. */
  function RestOfLine(s: string, q: nat): (r: string)
    requires RestAt(s, q)
    ensures |r| >= 1 && q + |r| <= |s| && r == s[q..q + |r|]
    ensures NoLineTerminator(s, q, q + |r|)
    ensures q + |r| == |s| || IsLineTerminator(s[q + |r|])
  {
    s[q..LineEnd(s, q)]
  }

  /**
   `m[1]` of the add-todo pattern: the text of the to-do, or `None` when the
   message is not an add-todo command.
   */
  function AddTodoCommand(s: string): (r: Option<string>)
    ensures r.None? <==> forall p :: 0 <= p <= |s| ==> AddTodoAt(s, p).None?
    ensures r.Some? ==> r.value != "" && NoLineTerminator(r.value, 0, |r.value|)
    ensures r.Some? ==> exists p, q :: && 0 <= p <= |s| && AddTodoAt(s, p) == Some(q) && RestAt(s, q)
                                       && r.value == RestOfLine(s, q)
                                       && forall j :: 0 <= j < p ==> AddTodoAt(s, j).None?
  {
    var at := AddTodoAtAny(s);
    var found := Leftmost<nat>(at, 0, |s|);
    match found
    case None =>
      forall p | 0 <= p <= |s| ensures AddTodoAt(s, p).None? {
        NoneBefore<nat>(at, 0, |s|, p);
        assert at(p) == AddTodoAt(s, p);
      }
      None
    case Some((p, q)) =>
      assert AddTodoAt(s, p) == Some(q) by {
        assert at(p) == AddTodoAt(s, p);
      }
      forall j | 0 <= j < p ensures AddTodoAt(s, j).None? {
        assert at(j) == AddTodoAt(s, j);
      }
      var text := RestOfLine(s, q);
      NoLineTerminatorSlice(s, q, q + |text|);
      Some(text)
  }


  /** A literal matched case-insensitively at the start of `w` is matched at the start of `w + t`, and so is each of its prefixes. */
  lemma CiAtPrefix(w: string, t: string, lit: string, n: nat)
    requires CiAt(w, 0, lit) && n <= |lit|
    ensures CiAt(w + t, 0, lit[..n])
  {
    assert forall i :: 0 <= i < n ==> (w + t)[i] == w[i];
  }

  /** One character of a case-insensitive match. */
  lemma CiAtChar(w: string, lit: string, i: nat)
    requires CiAt(w, 0, lit) && i < |lit|
    ensures Lower(w[i]) == lit[i]
  {
  }

  /** After the verb and `todo`, a text that begins with a non-space is captured from its first character. */
  lemma CaptureAfterTodo(s: string, t: nat)
    requires t < |s| && !IsSpace(s[t]) && !IsLineTerminator(s[t])
    ensures SpacesThenRest(s, t) == Some(t)
  {
  }

  /**
   Round trip: `add todo ` written in any letter case, followed by a text
   that starts with a non-space and stays on one line, yields that text.
   */
  lemma AddTodoRoundTrip(verb: string, text: string)
    requires |verb| == 9 && CiAt(verb, 0, "add todo ")
    requires text != [] && !IsSpace(text[0]) && NoLineTerminator(text, 0, |text|)
    ensures AddTodoCommand(verb + text) == Some(text)
  {
    var s := verb + text;
    CiAtPrefix(verb, text, "add todo ", 4);
    assert "add todo "[..4] == "add ";
    assert CiAt(s, 0, "add ");
    CiAtChar(verb, "add todo ", 4);
    assert Lower(s[4]) == 't';
    assert Lower(s[4 + 0]) != "a todo"[0];
    assert CiAt(s, 4, "todo") by {
      forall i | 0 <= i < 4 ensures Lower(s[4 + i]) == "todo"[i] {
        assert Lower(verb[4 + i]) == "add todo "[4 + i];
      }
    }
    CiAtChar(verb, "add todo ", 8);
    assert Lower(s[8]) == ' ';
    assert s[8] == ' ';
    assert s[9] == text[0];
    CaptureAfterTodo(s, 9);
    assert AddTodoAt(s, 0) == Some(9);
    assert AddTodoAtAny(s)(0) == Some(9);
    assert Leftmost<nat>(AddTodoAtAny(s), 0, |s|) == Some((0, 9));
    assert s[9..] == text;
    LineEndBound(s, 9, |s|);
    assert RestOfLine(s, 9) == text;
  }

  /** The same for `add a todo: ` in any letter case, the form with the article and a colon. */
  lemma AddArticleTodoRoundTrip(verb: string, text: string)
    requires |verb| == 12 && CiAt(verb, 0, "add a todo: ")
    requires text != [] && !IsSpace(text[0]) && NoLineTerminator(text, 0, |text|)
    ensures AddTodoCommand(verb + text) == Some(text)
  {
    var s := verb + text;
    CiAtPrefix(verb, text, "add a todo: ", 4);
    assert "add a todo: "[..4] == "add ";
    assert CiAt(s, 4, "a todo") by {
      forall i | 0 <= i < 6 ensures Lower(s[4 + i]) == "a todo"[i] {
        assert Lower(verb[4 + i]) == "add a todo: "[4 + i];
      }
    }
    CiAtChar(verb, "add a todo: ", 10);
    CiAtChar(verb, "add a todo: ", 11);
    assert Lower(s[10]) == ':' && s[10] == ':';
    assert Lower(s[11]) == ' ' && s[11] == ' ';
    assert s[12] == text[0];
    assert SpaceRun(s, 11) == 1;
    assert SpacesThenRest(s, 11) == Some(12);
    assert AddTodoAt(s, 0) == Some(12);
    assert AddTodoAtAny(s)(0) == Some(12);
    assert Leftmost<nat>(AddTodoAtAny(s), 0, |s|) == Some((0, 12));
    assert s[12..] == text;
    LineEndBound(s, 12, |s|);
    assert RestOfLine(s, 12) == text;
  }

  // ---------------------------------------------------------------- reminder

  /** The three captures of the reminder pattern: what to do, the number as written, and the unit. */
  datatype ReminderMatch = ReminderMatch(text: string, digits: string, unit: string)

  /** The alternatives of the unit group, in the order the pattern lists them. */
  function UnitAlternative(k: nat): string
    requires k < 6
  {
    if k == 0 then "second"
    else if k == 1 then "seconds"
    else if k == 2 then "minute"
    else if k == 3 then "minutes"
    else if k == 4 then "hour"
    else "hours"
  }

  /** Length of the first alternative from the `k`-th on that matches at `u`, or 0. */
  function UnitFrom(s: string, u: nat, k: nat): (n: nat)
    ensures n > 0 ==> u + n <= |s|
    decreases 6 - k
  {
    if k >= 6 then 0
    else if CiAt(s, u, UnitAlternative(k)) then |UnitAlternative(k)|
    else UnitFrom(s, u, k + 1)
  }

  /**
   Length of the unit at `u`: the alternation
   `second|seconds|minute|minutes|hour|hours`, tried in this order. Nothing
   follows it in the pattern, so the first alternative that matches is kept.
   */
  function UnitAt(s: string, u: nat): (n: nat)
    ensures n > 0 ==> u + n <= |s|
  {
    UnitFrom(s, u, 0)
  }

  /**
   The plural alternatives never win: `seconds` begins with `second`, which
   is tried first, and so on. The captured unit is always singular.
   */
  lemma PluralNeverCaptured(s: string, u: nat)
    ensures UnitAt(s, u) == 0 || UnitAt(s, u) == 4 || UnitAt(s, u) == 6
  {
    assert UnitFrom(s, u, 2) == if CiAt(s, u, "minute") then 6 else UnitFrom(s, u, 3);
    assert UnitFrom(s, u, 4) == if CiAt(s, u, "hour") then 4 else UnitFrom(s, u, 5);
    if CiAt(s, u, "seconds") {
      assert CiAt(s, u, "second") by {
        forall i | 0 <= i < 6 ensures Lower(s[u + i]) == "second"[i] {
          assert "seconds"[i] == "second"[i];
        }
      }
    }
    if CiAt(s, u, "minutes") {
      assert CiAt(s, u, "minute") by {
        forall i | 0 <= i < 6 ensures Lower(s[u + i]) == "minute"[i] {
          assert "minutes"[i] == "minute"[i];
        }
      }
    }
    if CiAt(s, u, "hours") {
      assert CiAt(s, u, "hour") by {
        forall i | 0 <= i < 4 ensures Lower(s[u + i]) == "hour"[i] {
          assert "hours"[i] == "hour"[i];
        }
      }
    }
  }

  /**
   `\s+in\s+(\d+)\s*(unit)` where `(.+)` ended at `e`: the digits and the unit.
   Each quantifier here takes its whole run and never gives any of it back:
   the token after it cannot begin with a character it would give back
   (`i` is not white space, a digit run is followed by white space or a unit
   letter, and no unit begins with a digit or white space).
   */
  function TailAt(s: string, e: nat): (r: Option<(string, string)>)
    requires e <= |s|
    ensures r.Some? ==> Digits(r.value.0) && UnitWord(r.value.1)
  {
    var i := e + SpaceRun(s, e);
    if i == e || !CiAt(s, i, "in") then None
    else
      NumberCaptured(s, i + 2);
      NumberAt(s, i + 2)
  }

  /** `\s+(\d+)\s*(unit)` after `in`. */
  function NumberAt(s: string, a: nat): Option<(string, string)>
    requires a <= |s|
  {
    if a < |s| && IsSpace(s[a]) then DigitsAfter(s, a + 1) else None
  }

  /** The rest of `\s+` and then `(\d+)\s*(unit)`. */
  function DigitsAfter(s: string, d: nat): Option<(string, string)>
    requires d <= |s|
    decreases |s| - d
  {
    if d < |s| && IsSpace(s[d]) then DigitsAfter(s, d + 1)
    else if DigitRun(s, d) == 0 then None
    else
      match UnitAfter(s, d + DigitRun(s, d))
      case None => None
      case Some(unit) => Some((s[d..d + DigitRun(s, d)], unit))
  }

  /** `\s*(unit)` after the digits. */
  function UnitAfter(s: string, b: nat): Option<string>
    requires b <= |s|
    decreases |s| - b
  {
    if b < |s| && IsSpace(s[b]) then UnitAfter(s, b + 1)
    else if UnitAt(s, b) == 0 then None
    else Some(s[b..b + UnitAt(s, b)])
  }

  /** What the number and unit capture: a digit run and a unit word. */
  lemma NumberCaptured(s: string, a: nat)
    requires a <= |s|
    ensures NumberAt(s, a).Some? ==> Digits(NumberAt(s, a).value.0) && UnitWord(NumberAt(s, a).value.1)
  {
    if a < |s| && IsSpace(s[a]) {
      DigitsAfterCaptured(s, a + 1);
    }
  }

  /** The same, once the first white space character is behind. */
  lemma {:induction false} DigitsAfterCaptured(s: string, d: nat)
    requires d <= |s|
    ensures DigitsAfter(s, d).Some? ==> Digits(DigitsAfter(s, d).value.0) && UnitWord(DigitsAfter(s, d).value.1)
    decreases |s| - d
  {
    if d < |s| && IsSpace(s[d]) {
      DigitsAfterCaptured(s, d + 1);
    } else if DigitRun(s, d) > 0 {
      DigitsCaptured(s, d);
      UnitAfterWord(s, d + DigitRun(s, d));
    }
  }

  /** What the unit captures is a unit word. */
  lemma {:induction false} UnitAfterWord(s: string, b: nat)
    requires b <= |s|
    ensures UnitAfter(s, b).Some? ==> UnitWord(UnitAfter(s, b).value)
    decreases |s| - b
  {
    if b < |s| && IsSpace(s[b]) {
      UnitAfterWord(s, b + 1);
    } else if UnitAt(s, b) > 0 {
      UnitCaptured(s, b);
    }
  }

  /** A non-empty digit run starting at `d`, taken out of the message, is a number. */
  lemma DigitsCaptured(s: string, d: nat)
    requires d <= |s| && DigitRun(s, d) > 0
    ensures Digits(s[d..d + DigitRun(s, d)])
  {
    var run := s[d..d + DigitRun(s, d)];
    forall k | 0 <= k < |run| ensures IsDigit(run[k]) {
      assert run[k] == s[d + k];
    }
  }

  /** What the unit alternation captures is one of the singular unit words. */
  lemma UnitCaptured(s: string, u: nat)
    requires UnitAt(s, u) > 0
    ensures UnitWord(s[u..u + UnitAt(s, u)])
  {
    PluralNeverCaptured(s, u);
    var n := UnitAt(s, u);
    var w := s[u..u + n];
    assert forall i :: 0 <= i < n ==> w[i] == s[u + i];
  }

  /**
   The largest position in `lo+1..e` at which `ok` holds: the end a greedy
   `.+` settles on, having given characters back one at a time.
   */
  function Rightmost(ok: nat -> bool, lo: nat, e: nat): (r: Option<nat>)
    ensures r.Some? ==> lo < r.value <= e && ok(r.value)
    ensures r.Some? ==> forall j :: r.value < j <= e ==> !ok(j)
    ensures r.None? ==> forall j :: lo < j <= e ==> !ok(j)
    decreases e
  {
    if e <= lo then None
    else if ok(e) then Some(e)
    else Rightmost(ok, lo, e - 1)
  }

  /** The search settles on the only candidate with nothing acceptable after it. */
  lemma RightmostIs(ok: nat -> bool, lo: nat, e: nat, x: nat)
    requires lo < x <= e && ok(x)
    requires forall j :: x < j <= e ==> !ok(j)
    ensures Rightmost(ok, lo, e) == Some(x)
  {
  }

  /** Ends of `(.+)` after which the rest of the reminder pattern matches. */
  function TailOk(s: string): nat -> bool {
    (j: nat) => j <= |s| && TailAt(s, j).Some?
  }

  /** `(.+)` from `b` followed by the tail: where the text ends. */
  function TextFrom(s: string, b: nat): (r: Option<nat>)
    requires b <= |s|
    ensures r.Some? ==> b < r.value <= |s| && TailAt(s, r.value).Some? && NoLineTerminator(s, b, r.value)
  {
    if RestAt(s, b) then
      var r := Rightmost(TailOk(s), b, LineEnd(s, b));
      if r.Some? then
        assert TailOk(s)(r.value);
        LineEndBound(s, b, r.value);
        r
      else r
    else None
  }

  /**
   A greedy run that has first taken `k` characters after `a` and gives them
   back one at a time: the first length, longest first, at whose end the rest
   of the pattern matches, with what the rest yields there.
   */
  function GiveBack<T>(at: nat -> Option<T>, a: nat, k: nat): (r: Option<(nat, T)>)
    ensures r.Some? ==> a < r.value.0 <= a + k && at(r.value.0) == Some(r.value.1)
    ensures r.Some? ==> forall j :: r.value.0 < j <= a + k ==> at(j).None?
    ensures r.None? ==> forall j :: a < j <= a + k ==> at(j).None?
    decreases k
  {
    if k == 0 then None
    else
      match at(a + k)
      case Some(x) => Some((a + k, x))
      case None => GiveBack(at, a, k - 1)
  }

  /** What `(.+)` followed by the tail yields at each start: where the text ends. */
  function TextFromAny(s: string): nat -> Option<nat> {
    (b: nat) => if b <= |s| then TextFrom(s, b) else None
  }

  /**
   `\s+(.+)` after `remind me to`, where `\s+` has first taken `k` white-space
   characters: where the text starts and ends.
   */
  function SpacesThenText(s: string, a: nat, k: nat): Option<(nat, nat)> {
    GiveBack<nat>(TextFromAny(s), a, k)
  }

  /** The captures of the reminder pattern when it matches at `p`. */
  function ReminderAt(s: string, p: nat): (r: Option<ReminderMatch>)
    requires p <= |s|
    ensures r.Some? ==> WellFormedMatch(r.value)
  {
    if !CiAt(s, p, "remind me to") then None
    else
      match SpacesThenText(s, p + 12, SpaceRun(s, p + 12))
      case None => None
      case Some((b, e)) =>
        assert TextFrom(s, b) == Some(e) by {
          assert TextFromAny(s)(b) == Some(e);
        }
        var tail := TailAt(s, e).value;
        NoLineTerminatorSlice(s, b, e);
        Some(ReminderMatch(s[b..e], tail.0, tail.1))
  }

  function ReminderAtAny(s: string): nat -> Option<ReminderMatch> {
    (p: nat) => if p <= |s| then ReminderAt(s, p) else None
  }

  /** The unit as captured: one of the singular words, in whatever letter case the message used. */
  predicate UnitWord(u: string) {
    (|u| == 6 && (CiAt(u, 0, "second") || CiAt(u, 0, "minute"))) || (|u| == 4 && CiAt(u, 0, "hour"))
  }

  /** What any match of the reminder pattern captures: a one-line text, a digit run and a unit word. */
  predicate WellFormedMatch(m: ReminderMatch) {
    && m.text != [] && NoLineTerminator(m.text, 0, |m.text|)
    && Digits(m.digits)
    && UnitWord(m.unit)
  }

  /** The leftmost match of the reminder pattern, or `None` when the message is not a reminder. */
  function ReminderCommand(s: string): (r: Option<ReminderMatch>)
    ensures r.None? <==> forall p :: 0 <= p <= |s| ==> ReminderAt(s, p).None?
    ensures r.Some? ==> exists p :: && 0 <= p <= |s| && ReminderAt(s, p) == r
                                    && forall q :: 0 <= q < p ==> ReminderAt(s, q).None?
    ensures r.Some? ==> WellFormedMatch(r.value)
  {
    var at := ReminderAtAny(s);
    var found := Leftmost<ReminderMatch>(at, 0, |s|);
    match found
    case None =>
      forall p | 0 <= p <= |s| ensures ReminderAt(s, p).None? {
        NoneBefore<ReminderMatch>(at, 0, |s|, p);
        assert at(p) == ReminderAt(s, p);
      }
      None
    case Some((p, m)) =>
      assert at(p) == ReminderAt(s, p);
      forall q | 0 <= q < p ensures ReminderAt(s, q).None? {
        assert at(q) == ReminderAt(s, q);
      }
      Some(m)
  }

  /** A non-empty run of decimal digits. */
  predicate Digits(d: string) {
    d != [] && forall i :: 0 <= i < |d| ==> IsDigit(d[i])
  }

  /** `u` is the word `w` (written in lower case) in any letter case. */
  predicate CiWord(u: string, w: string) {
    |u| == |w| && CiAt(u, 0, w)
  }

  /** One of the unit words the pattern lists, in any letter case. */
  predicate UnitSpelling(unit: string) {
    || CiWord(unit, "second") || CiWord(unit, "seconds")
    || CiWord(unit, "minute") || CiWord(unit, "minutes")
    || CiWord(unit, "hour") || CiWord(unit, "hours")
  }

  /** The lower-case unit word that `unit` spells. */
  function Spelled(unit: string): (w: string)
    requires UnitSpelling(unit)
    ensures CiWord(unit, w)
    ensures w in ["second", "seconds", "minute", "minutes", "hour", "hours"]
  {
    if CiWord(unit, "second") then "second"
    else if CiWord(unit, "seconds") then "seconds"
    else if CiWord(unit, "minute") then "minute"
    else if CiWord(unit, "minutes") then "minutes"
    else if CiWord(unit, "hour") then "hour"
    else "hours"
  }

  /** A prefix of a word typed in any letter case spells the same prefix of the word. */
  lemma CiWordPrefix(u: string, w: string, k: nat)
    requires CiWord(u, w) && k <= |w|
    ensures CiWord(u[..k], w[..k])
  {
    forall i | 0 <= i < k ensures Lower(u[..k][0 + i]) == w[..k][i] {
      assert Lower(u[0 + i]) == w[i];
    }
  }

  /** What the pattern captures of a unit spelling: its singular part, in the letter case typed. */
  function Singular(unit: string): (w: string)
    requires UnitSpelling(unit)
    ensures UnitWord(w) && w <= unit
  {
    var spelled := Spelled(unit);
    CiAtIndex(unit, 0, spelled, 0);
    var n := if Lower(unit[0]) == 'h' then 4 else 6;
    CiWordPrefix(unit, spelled, n);
    assert spelled[..n] == "second" || spelled[..n] == "minute" || spelled[..n] == "hour" by {
      if spelled == "seconds" { assert spelled[..6] == "second"; }
      else if spelled == "minutes" { assert spelled[..6] == "minute"; }
      else if spelled == "hours" { assert spelled[..4] == "hour"; }
      else { assert spelled[..|spelled|] == spelled; }
    }
    unit[..n]
  }

  /** An ASCII letter in either case. */
  predicate IsLetter(c: char) {
    'a' <= Lower(c) <= 'z'
  }

  /** A letter is neither white space, a line terminator nor a digit. */
  lemma LetterIsNoSpace(c: char)
    requires IsLetter(c)
    ensures !IsSpace(c) && !IsLineTerminator(c) && !IsDigit(c)
  {
  }

  /** A word spelled in lower-case letters is made of letters in any letter case. */
  lemma WordLetters(u: string, w: string)
    requires CiWord(u, w) && forall k :: 0 <= k < |w| ==> 'a' <= w[k] <= 'z'
    ensures forall k :: 0 <= k < |u| ==> IsLetter(u[k])
  {
    forall k | 0 <= k < |u| ensures IsLetter(u[k]) {
      assert Lower(u[0 + k]) == w[k];
    }
  }

  /** Every unit spelling consists of letters. */
  lemma UnitLetters(unit: string)
    requires UnitSpelling(unit)
    ensures forall k :: 0 <= k < |unit| ==> IsLetter(unit[k])
  {
    if CiWord(unit, "second") { WordLetters(unit, "second"); }
    else if CiWord(unit, "seconds") { WordLetters(unit, "seconds"); }
    else if CiWord(unit, "minute") { WordLetters(unit, "minute"); }
    else if CiWord(unit, "minutes") { WordLetters(unit, "minutes"); }
    else if CiWord(unit, "hour") { WordLetters(unit, "hour"); }
    else { WordLetters(unit, "hours"); }
  }

  /** The end of a reminder command as people type it: ` in {digits} {unit}`. */
  function ReminderTail(digits: string, unit: string): string {
    " in " + digits + " " + unit
  }

  /** `s` continues at `e` with ` in {digits} {unit}` and ends there. */
  predicate TailLayout(s: string, e: nat, digits: string, unit: string) {
    var n := |digits|;
    && |s| == e + 5 + n + |unit|
    && s[e] == ' ' && s[e + 1] == 'i' && s[e + 2] == 'n' && s[e + 3] == ' '
    && (forall k :: 0 <= k < n ==> s[e + 4 + k] == digits[k])
    && s[e + 4 + n] == ' '
    && (forall k :: 0 <= k < |unit| ==> s[e + 5 + n + k] == unit[k])
  }

  lemma TailLaidOut(head: string, digits: string, unit: string)
    ensures TailLayout(head + ReminderTail(digits, unit), |head|, digits, unit)
  {
    var s := head + ReminderTail(digits, unit);
    assert s == head + " in " + digits + " " + unit;
  }

  /** A white-space run of exactly one character. */
  lemma OneSpace(s: string, i: nat)
    requires i < |s| && IsSpace(s[i]) && (i + 1 == |s| || !IsSpace(s[i + 1]))
    ensures SpaceRun(s, i) == 1
  {
    assert SpaceRun(s, i + 1) == 0;
  }

  /** A digit run of exactly `n` characters. */
  lemma {:induction false} DigitRunIs(s: string, d: nat, n: nat)
    requires d + n <= |s|
    requires forall j :: d <= j < d + n ==> IsDigit(s[j])
    requires d + n == |s| || !IsDigit(s[d + n])
    ensures DigitRun(s, d) == n
    decreases n
  {
    if n > 0 {
      assert IsDigit(s[d]);
      DigitRunIs(s, d + 1, n - 1);
    }
  }

  /** What the tail captures, given the runs its quantifiers take. */
  predicate TailParts(s: string, e: nat, n: nat, w: string) {
    && e + 5 + n <= |s| && SpaceRun(s, e) == 1 && CiAt(s, e + 1, "in")
    && NumberParts(s, e, n, w)
  }

  /** ` {digits} {unit}` from `e + 3` on, piece by piece. */
  predicate NumberParts(s: string, e: nat, n: nat, w: string) {
    && e + 5 + n <= |s| && n > 0
    && SpaceRun(s, e + 3) == 1 && DigitRun(s, e + 4) == n && SpaceRun(s, e + 4 + n) == 1
    && UnitAt(s, e + 5 + n) == |w| > 0 && s[e + 5 + n..e + 5 + n + |w|] == w
  }

  lemma TailAtIs(s: string, e: nat, n: nat, w: string)
    requires TailParts(s, e, n, w)
    ensures TailAt(s, e) == Some((s[e + 4..e + 4 + n], w))
  {
    NumberTail(s, e, n, w);
    TailAtAfterIn(s, e);
  }

  /** The number and unit after `in`. */
  lemma NumberTail(s: string, e: nat, n: nat, w: string)
    requires NumberParts(s, e, n, w)
    ensures NumberAt(s, e + 3) == Some((s[e + 4..e + 4 + n], w))
  {
    UnitAfterIs(s, e + 4 + n, w);
    NumberAtIs(s, e, n, w);
  }

  /** One white space character and `in`: the tail is the number after them. */
  lemma TailAtAfterIn(s: string, e: nat)
    requires e + 3 <= |s| && SpaceRun(s, e) == 1 && CiAt(s, e + 1, "in")
    ensures TailAt(s, e) == NumberAt(s, e + 3)
  {
  }

  /** One white space character and the digits: the number, with the unit after it. */
  lemma NumberAtIs(s: string, e: nat, n: nat, w: string)
    requires e + 4 + n <= |s| && n > 0
    requires SpaceRun(s, e + 3) == 1 && DigitRun(s, e + 4) == n && UnitAfter(s, e + 4 + n) == Some(w)
    ensures NumberAt(s, e + 3) == Some((s[e + 4..e + 4 + n], w))
  {
    assert IsSpace(s[e + 3]) && !IsSpace(s[e + 4]);
    DigitsAfterIs(s, e + 4, n, w);
  }

  /** The digits start at once, and the unit follows them. */
  lemma DigitsAfterIs(s: string, d: nat, n: nat, w: string)
    requires d + n <= |s| && n > 0 && !IsSpace(s[d])
    requires DigitRun(s, d) == n && UnitAfter(s, d + n) == Some(w)
    ensures DigitsAfter(s, d) == Some((s[d..d + n], w))
  {
  }

  /** One white space character and the unit. */
  lemma UnitAfterIs(s: string, b: nat, w: string)
    requires b < |s| && SpaceRun(s, b) == 1
    requires UnitAt(s, b + 1) == |w| > 0 && s[b + 1..b + 1 + |w|] == w
    ensures UnitAfter(s, b) == Some(w)
  {
    assert IsSpace(s[b]) && !IsSpace(s[b + 1]);
    UnitAfterNoSpace(s, b + 1);
  }

  /** Where no white space comes first, the unit is the one that starts there. */
  lemma UnitAfterNoSpace(s: string, u: nat)
    requires u < |s| && !IsSpace(s[u])
    ensures UnitAfter(s, u) == if UnitAt(s, u) == 0 then None else Some(s[u..u + UnitAt(s, u)])
  {
  }

  /** Every character of the typed unit is a letter, and the first is none of `i`, a digit or white space. */
  lemma TailUnitChar(s: string, e: nat, digits: string, unit: string, j: nat)
    requires UnitSpelling(unit) && TailLayout(s, e, digits, unit)
    requires e + 5 + |digits| <= j < |s|
    ensures !IsSpace(s[j]) && !IsLineTerminator(s[j]) && !IsDigit(s[j])
    ensures j == e + 5 + |digits| ==> Lower(s[j]) != 'i'
  {
    var k := j - (e + 5 + |digits|);
    assert s[e + 5 + |digits| + k] == unit[k];
    UnitLetters(unit);
    LetterIsNoSpace(unit[k]);
    UnitInitial(unit);
  }

  /** A unit spelling begins with `s`, `m` or `h` in either case. */
  lemma UnitInitial(unit: string)
    requires UnitSpelling(unit)
    ensures var c := Lower(unit[0]); c == 's' || c == 'm' || c == 'h'
  {
    var w := Spelled(unit);
    CiAtIndex(unit, 0, w, 0);
  }

  /** The white-space runs and the `in` of ` in {digits} {unit}`. */
  lemma TailSpaces(s: string, e: nat, digits: string, unit: string)
    requires Digits(digits) && UnitSpelling(unit) && TailLayout(s, e, digits, unit)
    ensures SpaceRun(s, e) == 1 && CiAt(s, e + 1, "in") && SpaceRun(s, e + 3) == 1
    ensures SpaceRun(s, e + 4 + |digits|) == 1
  {
    var n := |digits|;
    assert s[e + 4 + 0] == digits[0];
    TailUnitChar(s, e, digits, unit, e + 5 + n);
    OneSpace(s, e);
    OneSpace(s, e + 3);
    OneSpace(s, e + 4 + n);
  }

  /** The digit run of ` in {digits} {unit}`. */
  lemma TailDigits(s: string, e: nat, digits: string, unit: string)
    requires Digits(digits) && UnitSpelling(unit) && TailLayout(s, e, digits, unit)
    ensures DigitRun(s, e + 4) == |digits| && s[e + 4..e + 4 + |digits|] == digits
  {
    var n := |digits|;
    forall j | e + 4 <= j < e + 4 + n ensures IsDigit(s[j]) {
      assert s[e + 4 + (j - e - 4)] == digits[j - e - 4];
    }
    DigitRunIs(s, e + 4, n);
  }

  /** The unit the tail captures on ` in {digits} {unit}`. */
  lemma TailUnit(s: string, e: nat, digits: string, unit: string)
    requires Digits(digits) && UnitSpelling(unit) && TailLayout(s, e, digits, unit)
    ensures var u := e + 5 + |digits|;
            UnitAt(s, u) == |Singular(unit)| && s[u..u + |Singular(unit)|] == Singular(unit)
  {
    UnitAtSpelling(s, e + 5 + |digits|, unit);
  }

  /** The tail as people type it matches where it begins, capturing the digits and the singular unit. */
  lemma TailMatches(s: string, e: nat, digits: string, unit: string)
    requires Digits(digits) && UnitSpelling(unit) && TailLayout(s, e, digits, unit)
    ensures TailAt(s, e) == Some((digits, Singular(unit)))
  {
    TailPartsOfLayout(s, e, digits, unit);
    TailAtIs(s, e, |digits|, Singular(unit));
  }

  /** ` in {digits} {unit}` has, piece by piece, the shape the tail looks for. */
  lemma TailPartsOfLayout(s: string, e: nat, digits: string, unit: string)
    requires Digits(digits) && UnitSpelling(unit) && TailLayout(s, e, digits, unit)
    ensures TailParts(s, e, |digits|, Singular(unit)) && s[e + 4..e + 4 + |digits|] == digits
  {
    TailSpaces(s, e, digits, unit);
    TailDigits(s, e, digits, unit);
    TailUnit(s, e, digits, unit);
  }

  /** The unit alternation at a typed unit word. */
  lemma UnitAtSpelling(s: string, u: nat, unit: string)
    requires UnitSpelling(unit) && u + |unit| == |s|
    requires forall k :: 0 <= k < |unit| ==> s[u + k] == unit[k]
    ensures UnitAt(s, u) == |Singular(unit)| && s[u..u + |Singular(unit)|] == Singular(unit)
  {
    assert s[u..] == unit;
    var w := Spelled(unit);
    CiAtIndex(unit, 0, w, 0);
    assert s[u + 0] == unit[0];
    var n := if w[0] == 'h' then 4 else 6;
    WordAt(s, u, unit, w, n);
    assert w[..n] == "second" || w[..n] == "minute" || w[..n] == "hour";
    UnitAtWord(s, u, w[..n]);
  }

  /** Where one of the singular words stands, the alternation takes it. */
  lemma UnitAtWord(s: string, u: nat, lit: string)
    requires lit == "second" || lit == "minute" || lit == "hour"
    requires CiAt(s, u, lit)
    ensures UnitAt(s, u) == |lit|
  {
    CiAtIndex(s, u, lit, 0);
    if lit != "second" {
      assert !CiAt(s, u, "second") && !CiAt(s, u, "seconds") by {
        assert "second"[0] == "seconds"[0] == 's' != lit[0];
      }
      assert UnitAt(s, u) == UnitFrom(s, u, 2);
      if lit != "minute" {
        assert !CiAt(s, u, "minute") && !CiAt(s, u, "minutes") by {
          assert "minute"[0] == "minutes"[0] == 'm' != lit[0];
        }
        assert UnitFrom(s, u, 2) == UnitFrom(s, u, 4);
      }
    }
  }

  /** One character of a case-insensitive match at `p`. */
  lemma CiAtIndex(s: string, p: nat, lit: string, i: nat)
    requires CiAt(s, p, lit) && i < |lit|
    ensures Lower(s[p + i]) == lit[i]
  {
  }

  /** A prefix of the word `w`, typed as `unit` at `u`, matches there ignoring case. */
  lemma WordAt(s: string, u: nat, unit: string, w: string, k: nat)
    requires CiWord(unit, w) && u + |unit| <= |s| && k <= |w|
    requires forall j :: 0 <= j < |unit| ==> s[u + j] == unit[j]
    ensures CiAt(s, u, w[..k])
  {
    forall i | 0 <= i < k ensures Lower(s[u + i]) == w[..k][i] {
      assert Lower(unit[0 + i]) == w[i];
    }
  }

  /** The tail needs white space where the text ends. */
  lemma NoTailWithoutSpace(s: string, j: nat)
    requires j <= |s| && (j == |s| || !IsSpace(s[j]))
    ensures TailAt(s, j).None?
  {
    assert SpaceRun(s, j) == 0;
  }

  /** The tail needs `in` after that white space. */
  lemma NoTailWithoutIn(s: string, j: nat)
    requires j + 1 < |s| && IsSpace(s[j]) && !IsSpace(s[j + 1]) && Lower(s[j + 1]) != 'i'
    ensures TailAt(s, j).None?
  {
    OneSpace(s, j);
    assert Lower(s[j + 1 + 0]) != "in"[0];
  }

  /** One later end of the text at which the tail does not match. */
  lemma NoTailAt(s: string, e: nat, digits: string, unit: string, j: nat)
    requires Digits(digits) && UnitSpelling(unit) && TailLayout(s, e, digits, unit)
    requires e < j <= |s|
    ensures TailAt(s, j).None?
  {
    var n := |digits|;
    if j == e + 3 {
      assert s[e + 4 + 0] == digits[0];
      NoTailWithoutIn(s, j);
    } else if j == e + 4 + n {
      TailUnitChar(s, e, digits, unit, j + 1);
      NoTailWithoutIn(s, j);
    } else if j == |s| {
      NoTailWithoutSpace(s, j);
    } else {
      if e + 4 <= j < e + 4 + n {
        assert s[e + 4 + (j - e - 4)] == digits[j - e - 4];
      } else if e + 4 + n < j {
        TailUnitChar(s, e, digits, unit, j);
      }
      NoTailWithoutSpace(s, j);
    }
  }

  /** No later end of the text lets the tail match: greedy `(.+)` stops right before ` in`. */
  lemma NoLaterTail(s: string, e: nat, digits: string, unit: string)
    requires Digits(digits) && UnitSpelling(unit) && TailLayout(s, e, digits, unit)
    ensures forall j :: e < j <= |s| ==> TailAt(s, j).None?
  {
    forall j | e < j <= |s| ensures TailAt(s, j).None? {
      NoTailAt(s, e, digits, unit, j);
    }
  }

  /** The tail stays on one line. */
  lemma TailOneLine(s: string, e: nat, digits: string, unit: string)
    requires Digits(digits) && UnitSpelling(unit) && TailLayout(s, e, digits, unit)
    ensures NoLineTerminator(s, e, |s|)
  {
    var n := |digits|;
    forall j | e <= j < |s| ensures !IsLineTerminator(s[j]) {
      if e + 4 <= j < e + 4 + n {
        assert s[e + 4 + (j - e - 4)] == digits[j - e - 4];
      } else if e + 4 + n < j {
        TailUnitChar(s, e, digits, unit, j);
      }
    }
  }

  /** `(.+)` started at `b` ends where the typed tail begins. */
  lemma TextEndsAtTail(s: string, b: nat, e: nat, digits: string, unit: string)
    requires Digits(digits) && UnitSpelling(unit) && TailLayout(s, e, digits, unit)
    requires b < e && NoLineTerminator(s, b, e)
    ensures TextFrom(s, b) == Some(e)
  {
    TailOneLine(s, e, digits, unit);
    assert NoLineTerminator(s, b, |s|);
    LineEndBound(s, b, |s|);
    TailMatches(s, e, digits, unit);
    NoLaterTail(s, e, digits, unit);
    assert TailOk(s)(e);
    forall j | e < j <= |s| ensures !TailOk(s)(j) {
      assert TailAt(s, j).None?;
    }
    RightmostIs(TailOk(s), b, |s|, e);
  }

  /** The pattern matches at the start of a message laid out as `remind me to {text} in {digits} {unit}`. */
  lemma ReminderAtStart(s: string, e: nat, digits: string, unit: string)
    requires Digits(digits) && UnitSpelling(unit) && TailLayout(s, e, digits, unit)
    requires 13 < e && CiAt(s, 0, "remind me to") && s[12] == ' ' && !IsSpace(s[13])
    requires NoLineTerminator(s, 13, e)
    ensures ReminderAt(s, 0) == Some(ReminderMatch(s[13..e], digits, Singular(unit)))
  {
    OneSpace(s, 12);
    TextEndsAtTail(s, 13, e, digits, unit);
    assert TextFromAny(s)(13) == Some(e);
    assert SpacesThenText(s, 12, 1) == Some((13, e));
    TailMatches(s, e, digits, unit);
  }

  /** A message that matches at its start yields that match. */
  lemma ReminderFirst(s: string, m: ReminderMatch)
    requires ReminderAt(s, 0) == Some(m)
    ensures ReminderCommand(s) == Some(m)
  {
    assert ReminderAtAny(s)(0) == Some(m);
    assert Leftmost<ReminderMatch>(ReminderAtAny(s), 0, |s|) == Some((0, m));
  }

  /**
   Round trip: `remind me to ` written in any letter case, a one-line text
   that starts with a non-space, and ` in {digits} {unit}` yield that text,
   those digits, and the unit in the singular.
   */
  lemma ReminderRoundTrip(verb: string, text: string, digits: string, unit: string)
    requires |verb| == 13 && CiAt(verb, 0, "remind me to ")
    requires text != [] && !IsSpace(text[0]) && NoLineTerminator(text, 0, |text|)
    requires Digits(digits) && UnitSpelling(unit)
    ensures ReminderCommand(verb + text + ReminderTail(digits, unit))
            == Some(ReminderMatch(text, digits, Singular(unit)))
  {
    var s := verb + text + ReminderTail(digits, unit);
    ReminderLaidOut(verb, text, digits, unit);
    ReminderAtStart(s, |verb + text|, digits, unit);
    ReminderFirst(s, ReminderMatch(text, digits, Singular(unit)));
  }

  /** `remind me to {text} in {digits} {unit}` has the layout the pattern's pieces look for. */
  lemma ReminderLaidOut(verb: string, text: string, digits: string, unit: string)
    requires |verb| == 13 && CiAt(verb, 0, "remind me to ")
    requires text != [] && !IsSpace(text[0]) && NoLineTerminator(text, 0, |text|)
    ensures var s := verb + text + ReminderTail(digits, unit);
            var e := |verb + text|;
            && TailLayout(s, e, digits, unit)
            && 13 < e && CiAt(s, 0, "remind me to") && s[12] == ' ' && !IsSpace(s[13])
            && NoLineTerminator(s, 13, e) && s[13..e] == text
  {
    var head := verb + text;
    var s := head + ReminderTail(digits, unit);
    TailLaidOut(head, digits, unit);
    assert forall j :: 0 <= j < 13 ==> s[j] == verb[j];
    assert forall j :: 13 <= j < 13 + |text| ==> s[j] == text[j - 13];
    HeadLaidOut(s, verb, text);
  }

  /** The verb and the text at the front of a message, character by character, as the pattern's head sees them. */
  lemma HeadLaidOut(s: string, verb: string, text: string)
    requires |verb| == 13 && CiAt(verb, 0, "remind me to ")
    requires text != [] && !IsSpace(text[0]) && NoLineTerminator(text, 0, |text|)
    requires 13 + |text| <= |s|
    requires forall j :: 0 <= j < 13 ==> s[j] == verb[j]
    requires forall j :: 13 <= j < 13 + |text| ==> s[j] == text[j - 13]
    ensures CiAt(s, 0, "remind me to") && s[12] == ' ' && !IsSpace(s[13])
    ensures NoLineTerminator(s, 13, 13 + |text|) && s[13..13 + |text|] == text
  {
    forall i | 0 <= i < 12 ensures Lower(s[0 + i]) == "remind me to"[i] {
      CiAtIndex(verb, 0, "remind me to ", i);
    }
    CiAtIndex(verb, 0, "remind me to ", 12);
    assert s[13] == text[0];
    forall j | 13 <= j < 13 + |text| ensures !IsLineTerminator(s[j]) {
      assert s[j] == text[j - 13];
    }
  }

  // ---------------------------------------------------------------- keywords

  /** `/list todos|show todos|what are my todos/i` */
  predicate ListWords(s: string) {
    ContainsCi(s, "list todos") || ContainsCi(s, "show todos") || ContainsCi(s, "what are my todos")
  }

  /** `/note|remember/i` together with a colon somewhere in the message. */
  predicate NoteWords(s: string) {
    (ContainsCi(s, "note") || ContainsCi(s, "remember")) && ':' in s
  }

  /** `/help|commands|what can you do/i` */
  predicate HelpWords(s: string) {
    ContainsCi(s, "help") || ContainsCi(s, "commands") || ContainsCi(s, "what can you do")
  }
}
