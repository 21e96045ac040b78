/** The bottom navigation bar (client/components/layout/BottomNav.tsx): four tabs, the
    active-tab test, and the unread badge on the Chat tab. */
module BottomNav {
  import opened Seqs
  import opened Text
  import opened Records

  /** A tab: its path and its label. */
  datatype Tab = Tab(path: string, name: string)

  const Items: seq<Tab> := [
    Tab("/dashboard", "Home"),
    Tab("/chat", "Chat"),
    Tab("/profile", "Profile"),
    Tab("/settings", "Settings")
  ]

  const ChatPath: string := "/chat"

  /** The number of messages addressed to `self` that are not read; a missing `read`
      field counts as unread. */
  function UnreadCount(messages: seq<Message>, self: UserId): (n: nat)
    ensures n <= |messages|
  {
    |Unread(messages, self)|
  }

  /** The positions of `messages` holding an unread message addressed to `self`. */
  function UnreadPositions(messages: seq<Message>, self: UserId): set<int> {
    set i | 0 <= i < |messages| && messages[i].toUserId == self && !messages[i].read
  }

  /** The count is the number of positions holding an unread message addressed to `self`. */
  lemma UnreadCountByPosition(messages: seq<Message>, self: UserId)
    ensures UnreadCount(messages, self) == |UnreadPositions(messages, self)|
  {
    var p := (m: Message) => m.toUserId == self && !m.read;
    FilterCount(p, messages);
    assert Unread(messages, self) == Filter(p, messages);
    assert Positions(p, messages) == UnreadPositions(messages, self);
  }

  /** The unread messages addressed to `self`, in snapshot order. */
  function Unread(messages: seq<Message>, self: UserId): (r: seq<Message>)
    ensures forall m :: m in r <==> m in messages && m.toUserId == self && !m.read
  {
    Filter((m: Message) => m.toUserId == self && !m.read, messages)
  }

  /** The count is zero exactly when every message addressed to `self` is read. */
  lemma NoUnreadIffAllRead(messages: seq<Message>, self: UserId)
    ensures UnreadCount(messages, self) == 0 <==>
            forall m :: m in messages && m.toUserId == self ==> m.read
  {
    var r := Unread(messages, self);
    if r != [] {
      assert r[0] in r;
    }
  }

  /** The messages listener: the snapshot is copied, then counted. */
  method OnMessages(snapshot: seq<Message>, self: UserId) returns (unread: nat)
    ensures unread == UnreadCount(snapshot, self)
  {
    var messages := CopyAll(snapshot);
    unread := |Unread(messages, self)|;
  }

  /** A tab is active on its own path and on every path below it. */
  predicate IsActive(pathname: string, path: string) {
    pathname == path || StartsWith(pathname, path + "/")
  }

  /** Only the Chat tab carries the badge, and only with unread messages. */
  predicate ShowsBadge(tab: Tab, unread: nat) {
    tab.path == ChatPath && unread > 0
  }

  /** The decimal notation of `n`, as JavaScript prints a non-negative integer. */
  function Decimal(n: nat): (s: string)
    ensures s != [] && forall i :: 0 <= i < |s| ==> '0' <= s[i] <= '9'
    ensures |s| == 1 <==> n < 10
  {
    if n < 10 then [(n + '0' as int) as char]
    else Decimal(n / 10) + [(n % 10 + '0' as int) as char]
  }

  /** The number a string of decimal digits denotes. */
  function DigitsValue(s: string): nat
    requires forall i :: 0 <= i < |s| ==> '0' <= s[i] <= '9'
  {
    if s == [] then 0
    else DigitsValue(s[..|s| - 1]) * 10 + (s[|s| - 1] as int - '0' as int)
  }

  lemma {:induction false} DecimalRoundTrip(n: nat)
    ensures DigitsValue(Decimal(n)) == n
  {
    if n >= 10 {
      DecimalRoundTrip(n / 10);
      var s := Decimal(n);
      assert s[..|s| - 1] == Decimal(n / 10);
    }
  }

  /** The badge text: `9+` above nine, otherwise the count itself. */
  function BadgeLabel(unread: nat): (s: string)
    ensures unread > 9 ==> s == "9+"
    ensures unread <= 9 ==> |s| == 1 && '0' <= s[0] <= '9' && DigitsValue(s) == unread
  {
    if unread > 9 then "9+"
    else
      DecimalRoundTrip(unread);
      Decimal(unread)
  }

  /** There are four tabs, in the order dashboard, chat, profile, settings. */
  lemma TabOrder()
    ensures |Items| == 4
    ensures Items[0].path == "/dashboard" && Items[1].path == "/chat"
    ensures Items[2].path == "/profile" && Items[3].path == "/settings"
  {
  }

  /** The active test is a segment test, not a plain prefix test. */
  lemma ActiveExamples()
    ensures IsActive("/chat/42", ChatPath)
    ensures !IsActive("/chatroom", ChatPath)
    ensures IsActive("/chat", ChatPath)
  {
    assert StartsWith("/chat/42", ChatPath + "/");
    assert "/chatroom"[5] != '/';
  }

  /** At most one tab is active on any path. */
  lemma AtMostOneActive(pathname: string, i: nat, j: nat)
    requires i < j < |Items|
    ensures !(IsActive(pathname, Items[i].path) && IsActive(pathname, Items[j].path))
  {
    var pi, pj := Items[i].path, Items[j].path;
    ActiveStartsWith(pathname, pi);
    ActiveStartsWith(pathname, pj);
    assert Items[0].path[1] == 'd' && Items[1].path[1] == 'c';
    assert Items[2].path[1] == 'p' && Items[3].path[1] == 's';
    assert pi[1] != pj[1];
    if StartsWith(pathname, pi) {
      assert pathname[1] == pi[1] by {
        assert pathname[..|pi|][1] == pathname[1];
      }
      assert |pathname| >= |pj| ==> pathname[..|pj|][1] != pj[1];
      assert !StartsWith(pathname, pj);
    }
  }

  /** A tab is active only on paths that start with its own. */
  lemma ActiveStartsWith(pathname: string, path: string)
    ensures IsActive(pathname, path) ==> StartsWith(pathname, path)
  {
    if IsActive(pathname, path) && pathname != path {
      assert pathname[..|path| + 1] == path + "/";
      assert pathname[..|path|] == (pathname[..|path| + 1])[..|path|];
    }
  }

  /** The badge appears on no tab but Chat. */
  lemma BadgeOnlyOnChat(i: nat, unread: nat)
    requires i < |Items| && ShowsBadge(Items[i], unread)
    ensures i == 1 && unread > 0
  {
  }
}
