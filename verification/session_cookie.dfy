/**
 The `ca_session` cookie: how the worker reads the session id out of a
 request's `Cookie` header with `/(?:^|; )ca_session=([^;]+)/`, and the
 `Set-Cookie` value the OAuth callback issues.
 */
module SessionCookie {
  import opened Common
  import opened Text

  const CookieName: string := "ca_session="
  /** The second alternative of the pattern: the name right after a `"; "` separator. */
  const SeparatedName: string := "; ca_session="
  /** Thirty days, written `60*60*24*30` in the worker. */
  const MaxAgeSeconds: nat := 60 * 60 * 24 * 30

  /**
   Where the captured value begins when the pattern matches starting at `p`:
   `^ca_session=` at the very start, or `; ca_session=` anywhere, in each case
   followed by at least one character other than `;`.
   */
  function ValueStart(c: string, p: nat): Option<nat>
  {
    if p == 0 && |CookieName| < |c| && c[..|CookieName|] == CookieName && c[|CookieName|] != ';' then
      Some(|CookieName|)
    else if p + |SeparatedName| < |c| && c[p..p + |SeparatedName|] == SeparatedName
            && c[p + |SeparatedName|] != ';' then
      Some(p + |SeparatedName|)
    else
      None
  }

  /** The end of the run of non-`;` characters that starts at `i`. */
  function ValueEnd(c: string, i: nat): (e: nat)
    requires i <= |c|
    ensures i <= e <= |c|
    ensures forall k :: i <= k < e ==> c[k] != ';'
    ensures e == |c| || c[e] == ';'
    decreases |c| - i
  {
    if i < |c| && c[i] != ';' then ValueEnd(c, i + 1) else i
  }

  /** No match of the pattern starts before `p`. */
  ghost predicate Leftmost(c: string, p: nat) {
    forall q :: 0 <= q < p ==> ValueStart(c, q).None?
  }

  /** A match starting at `p` captures `id`: a maximal, non-empty run of non-`;` characters. */
  ghost predicate Captures(c: string, p: nat, id: string) {
    && ValueStart(c, p).Some?
    && var s := ValueStart(c, p).value;
    && s + |id| <= |c| && c[s..s + |id|] == id
    && |id| > 0 && ';' !in id
    && (s + |id| == |c| || c[s + |id|] == ';')
  }

  /** The leftmost position at or after `p` where the pattern matches. */
  function FirstMatch(c: string, p: nat): (r: Option<nat>)
    requires p <= |c|
    ensures r.Some? ==> p <= r.value <= |c| && ValueStart(c, r.value).Some?
    ensures r.Some? ==> forall q :: p <= q < r.value ==> ValueStart(c, q).None?
    ensures r.None? ==> forall q :: p <= q <= |c| ==> ValueStart(c, q).None?
    decreases |c| - p
  {
    if ValueStart(c, p).Some? then Some(p)
    else if p == |c| then None
    else FirstMatch(c, p + 1)
  }

  /**
   `cookie.match(/(?:^|; )ca_session=([^;]+)/)?.[1]`: the session id carried by
   a `Cookie` header, taken from the leftmost match.
   */
  function SessionId(c: string): (r: Option<string>)
    ensures r.None? <==> forall p :: 0 <= p <= |c| ==> ValueStart(c, p).None?
    ensures r.Some? ==> exists p :: 0 <= p <= |c| && Leftmost(c, p) && Captures(c, p, r.value)
  {
    match FirstMatch(c, 0)
    case None => None
    case Some(p) =>
      var s := ValueStart(c, p).value;
      var e := ValueEnd(c, s);
      var id := c[s..e];
      assert ';' !in id by {
        forall k | 0 <= k < |id| ensures id[k] != ';' {
          assert id[k] == c[s + k];
        }
      }
      assert Leftmost(c, p) && Captures(c, p, id);
      Some(id)
  }

  /** What a session id must look like to survive the trip through the cookie (a UUID does). */
  predicate ValidSessionId(id: string) {
    |id| > 0 && ';' !in id
  }

  /** The cookie attributes that follow the `;` after the value. */
  const Attributes: string := " Path=/; Secure; HttpOnly; SameSite=Lax; Max-Age="

  /** The `Set-Cookie` header value the OAuth callback sends. */
  function SetCookieHeader(id: string): string
  {
    CookieWithMaxAge(id, MaxAgeSeconds)
  }

  function CookieWithMaxAge(id: string, maxAge: nat): string
  {
    CookieName + id + (";" + (Attributes + NatToString(maxAge)))
  }

  /** The cookie lives for thirty days: `Max-Age=2592000`. */
  lemma SetCookieMaxAge(id: string)
    ensures SetCookieHeader(id) == CookieName + id + (";" + (Attributes + "2592000"))
  {
    assert MaxAgeSeconds == 2592000;
    assert NatToString(2) == "2";
    assert NatToString(25) == "25";
    assert NatToString(259) == "259";
    assert NatToString(2592) == "2592";
    assert NatToString(25920) == "25920";
    assert NatToString(259200) == "259200";
    assert NatToString(2592000) == "2592000";
  }

  /** `ValueEnd` stops at the first `;`. */
  lemma ValueEndAt(c: string, i: nat, e: nat)
    requires i <= e <= |c|
    requires forall k :: i <= k < e ==> c[k] != ';'
    requires e == |c| || c[e] == ';'
    ensures ValueEnd(c, i) == e
  {
  }

  /**
   A header that starts with `ca_session=<id>` and then ends or continues with
   `;` yields exactly `<id>`: what the callback issues comes back unchanged.
   */
  lemma {:induction false} SessionIdOfIssuedCookie(id: string, tail: string)
    requires ValidSessionId(id)
    requires tail == [] || tail[0] == ';'
    ensures SessionId(CookieName + id + tail) == Some(id)
  {
    var c := CookieName + id + tail;
    var n := |CookieName|;
    assert c[..n] == CookieName;
    assert c[n] == id[0];
    assert ValueStart(c, 0) == Some(n);
    assert FirstMatch(c, 0) == Some(0);
    forall k | n <= k < n + |id| ensures c[k] != ';' {
      assert c[k] == id[k - n];
    }
    if tail != [] {
      assert c[n + |id|] == tail[0];
    }
    ValueEndAt(c, n, n + |id|);
    assert c[n..n + |id|] == id;
  }

  /** The browser sends back `ca_session=<id>` alone; the worker reads `<id>`. */
  lemma SessionIdAlone(id: string)
    requires ValidSessionId(id)
    ensures SessionId(CookieName + id) == Some(id)
  {
    SessionIdOfIssuedCookie(id, []);
    assert CookieName + id + [] == CookieName + id;
  }

  /** The browser sends back `ca_session=<id>` before other cookies; the worker reads `<id>`. */
  lemma SessionIdBeforeOthers(id: string, others: string)
    requires ValidSessionId(id)
    ensures SessionId(CookieName + id + "; " + others) == Some(id)
  {
    var tail := "; " + others;
    SessionIdOfIssuedCookie(id, tail);
    assert CookieName + id + "; " + others == CookieName + id + tail;
  }

  /** The cookie name occurs at position `j` of `s`. */
  predicate NameAt(s: string, j: nat) {
    j + |CookieName| <= |s| && s[j..j + |CookieName|] == CookieName
  }

  /**
   The cookies a browser sends before `ca_session`: some text ending in the
   `"; "` separator, in which the cookie name does not occur.
   */
  predicate OthersBefore(pre: string) {
    && |pre| >= 2 && pre[|pre| - 2..] == "; "
    && forall j :: 0 <= j <= |pre| ==> !NameAt(pre, j)
  }

  /** Inside cookies that come first, the pattern finds no match. */
  lemma NoMatchInOthers(pre: string, rest: string, q: nat)
    requires OthersBefore(pre) && q < |pre| - 2
    ensures ValueStart(pre + rest, q).None?
  {
    var c := pre + rest;
    var m := |pre| - 2;
    assert c[m] == ';' && c[m + 1] == ' ';
    assert forall k :: 0 <= k < |CookieName| ==> CookieName[k] != ';';
    if q == 0 && |CookieName| < |c| {
      if |CookieName| <= |pre| {
        assert !NameAt(pre, 0);
        assert c[..|CookieName|] == pre[0..|CookieName|];
      } else {
        assert c[..|CookieName|][m] == ';';
      }
    }
    if q + |SeparatedName| < |c| {
      var w := c[q..q + |SeparatedName|];
      if q + |SeparatedName| <= |pre| {
        assert !NameAt(pre, q + 2);
        assert w[2..] == pre[q + 2..q + |SeparatedName|];
        assert SeparatedName[2..] == CookieName;
      } else if q + 2 <= m {
        assert w[m - q] == ';';
        assert SeparatedName[m - q] == CookieName[m - q - 2];
      } else {
        assert w[2] == ' ';
      }
    }
  }

  /** After other cookies, the leftmost match is the `; ca_session=` that ends them. */
  lemma FirstMatchAfterOthers(pre: string, rest: string)
    requires OthersBefore(pre)
    requires |CookieName| < |rest| && rest[..|CookieName|] == CookieName && rest[|CookieName|] != ';'
    ensures FirstMatch(pre + rest, 0) == Some(|pre| - 2)
    ensures ValueStart(pre + rest, |pre| - 2) == Some(|pre| + |CookieName|)
  {
    var c := pre + rest;
    var p := |pre| - 2;
    forall q | 0 <= q < p ensures ValueStart(c, q).None? {
      NoMatchInOthers(pre, rest, q);
    }
    assert c[p..p + |SeparatedName|] == pre[p..] + rest[..|CookieName|];
    assert c[|pre| + |CookieName|] == rest[|CookieName|];
    assert c[p] == ';';
    assert ValueStart(c, p) == Some(|pre| + |CookieName|);
    FirstMatchFrom(c, 0, p);
  }

  /** With no match in `[i, p)` and one at `p`, the search from `i` stops at `p`. */
  lemma {:induction false} FirstMatchFrom(c: string, i: nat, p: nat)
    requires i <= p <= |c| && ValueStart(c, p).Some?
    requires forall q :: i <= q < p ==> ValueStart(c, q).None?
    ensures FirstMatch(c, i) == Some(p)
    decreases p - i
  {
    if i < p {
      FirstMatchFrom(c, i + 1, p);
    }
  }

  /**
   A header in which other cookies come before `ca_session=<id>` (as a
   browser sends it when an earlier cookie has the same path) still yields
   exactly `<id>`, through the `; ca_session=` alternative.
   */
  lemma {:induction false} SessionIdAfterOthers(pre: string, id: string, tail: string)
    requires ValidSessionId(id)
    requires tail == [] || tail[0] == ';'
    requires OthersBefore(pre)
    ensures SessionId(pre + CookieName + id + tail) == Some(id)
  {
    var rest := CookieName + id + tail;
    var s := |pre| + |CookieName|;
    IssuedCookieParts(id, tail);
    FirstMatchAfterOthers(pre, rest);
    SuffixOfJoin(pre, rest, |CookieName|);
    CapturedValue(pre + rest, s, id, tail);
    SessionIdIs(pre + rest, |pre| - 2, s, id);
    JoinAssociates(pre, CookieName, id, tail);
  }

  /** `ca_session=<id><tail>` begins with the name, then the id. */
  lemma IssuedCookieParts(id: string, tail: string)
    requires ValidSessionId(id)
    ensures var rest := CookieName + id + tail;
            && |CookieName| < |rest| && rest[..|CookieName|] == CookieName && rest[|CookieName|] == id[0]
            && rest[|CookieName|..] == id + tail
  {
    var rest := CookieName + id + tail;
    assert rest[|CookieName|..] == id + tail;
  }

  lemma SuffixOfJoin(a: string, b: string, k: nat)
    requires k <= |b|
    ensures (a + b)[|a| + k..] == b[k..]
  {
  }

  lemma JoinAssociates(a: string, b: string, c: string, d: string)
    ensures a + (b + c + d) == a + b + c + d
  {
  }

  /** The leftmost match and the end of its value fix the session id. */
  lemma SessionIdIs(c: string, p: nat, s: nat, id: string)
    requires FirstMatch(c, 0) == Some(p) && ValueStart(c, p) == Some(s)
    requires s + |id| <= |c| && ValueEnd(c, s) == s + |id| && c[s..s + |id|] == id
    ensures SessionId(c) == Some(id)
  {
  }

  /** The value that starts at `s` runs up to the `;` (or the end) that follows `id`. */
  lemma CapturedValue(c: string, s: nat, id: string, tail: string)
    requires s <= |c| && c[s..] == id + tail
    requires ValidSessionId(id) && (tail == [] || tail[0] == ';')
    ensures s + |id| <= |c| && ValueEnd(c, s) == s + |id| && c[s..s + |id|] == id
  {
    forall k | s <= k < s + |id| ensures c[k] != ';' {
      assert c[k] == c[s..][k - s] == id[k - s];
    }
    if tail != [] {
      assert c[s + |id|] == c[s..][|id|] == tail[0];
    }
    ValueEndAt(c, s, s + |id|);
    assert c[s..s + |id|] == c[s..][..|id|];
  }

  /**
   Whatever the browser puts before it, nothing or other cookies, the
   issued cookie read back from a `Cookie` header yields its id.
   */
  lemma SessionIdOfSentCookie(pre: string, id: string, tail: string)
    requires ValidSessionId(id)
    requires tail == [] || tail[0] == ';'
    requires pre == [] || OthersBefore(pre)
    ensures SessionId(pre + CookieName + id + tail) == Some(id)
  {
    if pre == [] {
      assert pre + CookieName + id + tail == CookieName + id + tail;
      SessionIdOfIssuedCookie(id, tail);
    } else {
      SessionIdAfterOthers(pre, id, tail);
    }
  }

  /** Even the full `Set-Cookie` value, attributes and all, reads back as `<id>`. */
  lemma SessionIdOfSetCookie(id: string)
    requires ValidSessionId(id)
    ensures SessionId(SetCookieHeader(id)) == Some(id)
  {
    AttributesDoNotMatter(id, MaxAgeSeconds);
  }

  lemma AttributesDoNotMatter(id: string, maxAge: nat)
    requires ValidSessionId(id)
    ensures SessionId(CookieWithMaxAge(id, maxAge)) == Some(id)
  {
    var rest := Attributes + NatToString(maxAge);
    var tail := ";" + rest;
    assert tail[0] == ';';
    SessionIdOfIssuedCookie(id, tail);
  }
}
