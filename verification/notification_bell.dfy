/** The bell button and its dropdown panel: the badge on the button, the
    date grouping of the feed, what clicking an entry does, the open/close
    toggle, the click-outside rule and the buttons inside the panel. */
module NotificationBell {
  import opened Wrappers
  import opened Seqs
  import opened NotificationContext

  // ---------------------------------------------------------------------
  // Date grouping

  datatype Bucket = Today | Yesterday | Earlier

  datatype Groups = Groups(
    today: seq<Notification>,
    yesterday: seq<Notification>,
    earlier: seq<Notification>)

  /** The bucket of timestamp `t`. `dayOf` is the calendar date in local
      time (`toDateString`); "yesterday" is the date of `now` minus 24 hours,
      which need not be the date before `now`'s across a daylight-saving
      change. Everything else, future dates included, is "earlier". */
  function BucketOf(t: int, now: int, dayOf: int -> string): Bucket {
    if dayOf(t) == dayOf(now) then Today
    else if dayOf(t) == dayOf(now - DayMs) then Yesterday
    else Earlier
  }

  /** The entries whose date selects bucket `b`. */
  function InBucket(b: Bucket, now: int, dayOf: int -> string): Notification -> bool {
    (n: Notification) => BucketOf(n.timestamp, now, dayOf) == b
  }

  /** `groupNotificationsByDate`: one pass over the newest-first list,
      appending each entry to its bucket. The buckets partition the list,
      each keeps the list's order, and each holds exactly its dates. */
  method GroupByDate(xs: seq<Notification>, now: int, dayOf: int -> string) returns (g: Groups)
    ensures forall k :: 0 <= k < |g.today| ==> dayOf(g.today[k].timestamp) == dayOf(now)
    ensures forall k :: 0 <= k < |g.yesterday| ==>
              dayOf(g.yesterday[k].timestamp) != dayOf(now)
              && dayOf(g.yesterday[k].timestamp) == dayOf(now - DayMs)
    ensures forall k :: 0 <= k < |g.earlier| ==>
              dayOf(g.earlier[k].timestamp) != dayOf(now)
              && dayOf(g.earlier[k].timestamp) != dayOf(now - DayMs)
    ensures multiset(g.today) + multiset(g.yesterday) + multiset(g.earlier) == multiset(xs)
    ensures |g.today| + |g.yesterday| + |g.earlier| == |xs|
    ensures IsSubsequence(g.today, xs) && IsSubsequence(g.yesterday, xs) && IsSubsequence(g.earlier, xs)
    ensures forall k :: 0 <= k < |xs| ==>
              (xs[k] in g.today <==> BucketOf(xs[k].timestamp, now, dayOf) == Today)
              && (xs[k] in g.yesterday <==> BucketOf(xs[k].timestamp, now, dayOf) == Yesterday)
              && (xs[k] in g.earlier <==> BucketOf(xs[k].timestamp, now, dayOf) == Earlier)
    ensures dayOf(now - DayMs) == dayOf(now) ==> g.yesterday == []
  {
    var pt, py, pe := InBucket(Today, now, dayOf), InBucket(Yesterday, now, dayOf), InBucket(Earlier, now, dayOf);
    g := Groups([], [], []);
    var i := 0;
    while i < |xs|
      invariant 0 <= i <= |xs|
      invariant g == Groups(Filter(xs[..i], pt), Filter(xs[..i], py), Filter(xs[..i], pe))
    {
      var n := xs[i];
      assert xs[..i + 1] == xs[..i] + [n];
      BucketStep(xs[..i], n, now, dayOf);
      match BucketOf(n.timestamp, now, dayOf) {
        case Today => g := g.(today := g.today + [n]);
        case Yesterday => g := g.(yesterday := g.yesterday + [n]);
        case Earlier => g := g.(earlier := g.earlier + [n]);
      }
      i := i + 1;
    }
    assert xs[..i] == xs;
    BucketsPartition(xs, now, dayOf);
    BucketDates(xs, now, dayOf);
  }

  /** Appending one entry to the scanned prefix appends it to its own
      bucket's filter and leaves the other two as they were. */
  lemma BucketStep(prefix: seq<Notification>, n: Notification, now: int, dayOf: int -> string)
    ensures var b := BucketOf(n.timestamp, now, dayOf);
            && Filter(prefix + [n], InBucket(Today, now, dayOf))
               == Filter(prefix, InBucket(Today, now, dayOf)) + (if b == Today then [n] else [])
            && Filter(prefix + [n], InBucket(Yesterday, now, dayOf))
               == Filter(prefix, InBucket(Yesterday, now, dayOf)) + (if b == Yesterday then [n] else [])
            && Filter(prefix + [n], InBucket(Earlier, now, dayOf))
               == Filter(prefix, InBucket(Earlier, now, dayOf)) + (if b == Earlier then [n] else [])
  {
    FilterAppend(prefix, [n], InBucket(Today, now, dayOf));
    FilterAppend(prefix, [n], InBucket(Yesterday, now, dayOf));
    FilterAppend(prefix, [n], InBucket(Earlier, now, dayOf));
  }

  /** Every entry of a bucket carries that bucket's date, and "yesterday"
      is empty when the date 24 hours ago is today's. */
  lemma BucketDates(xs: seq<Notification>, now: int, dayOf: int -> string)
    ensures var t, y, e := Filter(xs, InBucket(Today, now, dayOf)),
                           Filter(xs, InBucket(Yesterday, now, dayOf)),
                           Filter(xs, InBucket(Earlier, now, dayOf));
            && (forall k :: 0 <= k < |t| ==> dayOf(t[k].timestamp) == dayOf(now))
            && (forall k :: 0 <= k < |y| ==>
                  dayOf(y[k].timestamp) != dayOf(now) && dayOf(y[k].timestamp) == dayOf(now - DayMs))
            && (forall k :: 0 <= k < |e| ==>
                  dayOf(e[k].timestamp) != dayOf(now) && dayOf(e[k].timestamp) != dayOf(now - DayMs))
            && (dayOf(now - DayMs) == dayOf(now) ==> y == [])
  {
    FilterExtremes(xs, InBucket(Yesterday, now, dayOf));
  }

  /** The three bucket filters partition the list: together they hold every
      entry exactly as often as the list does, each in the list's order, and
      an entry is in a bucket exactly when its date selects it. */
  lemma BucketsPartition(xs: seq<Notification>, now: int, dayOf: int -> string)
    ensures var t, y, e := Filter(xs, InBucket(Today, now, dayOf)),
                           Filter(xs, InBucket(Yesterday, now, dayOf)),
                           Filter(xs, InBucket(Earlier, now, dayOf));
            && multiset(t) + multiset(y) + multiset(e) == multiset(xs)
            && |t| + |y| + |e| == |xs|
            && IsSubsequence(t, xs) && IsSubsequence(y, xs) && IsSubsequence(e, xs)
            && (forall k :: 0 <= k < |xs| ==>
                  (xs[k] in t <==> BucketOf(xs[k].timestamp, now, dayOf) == Today)
                  && (xs[k] in y <==> BucketOf(xs[k].timestamp, now, dayOf) == Yesterday)
                  && (xs[k] in e <==> BucketOf(xs[k].timestamp, now, dayOf) == Earlier))
  {
    var pt, py, pe := InBucket(Today, now, dayOf), InBucket(Yesterday, now, dayOf), InBucket(Earlier, now, dayOf);
    var t, y, e := Filter(xs, pt), Filter(xs, py), Filter(xs, pe);
    FilterMultiset(xs, pt);
    FilterMultiset(xs, py);
    FilterMultiset(xs, pe);
    assert multiset(t) + multiset(y) + multiset(e) == multiset(xs) by {
      forall x ensures (multiset(t) + multiset(y) + multiset(e))[x] == multiset(xs)[x] {
        match BucketOf(x.timestamp, now, dayOf)
        case Today =>
        case Yesterday =>
        case Earlier =>
      }
    }
    assert |multiset(xs)| == |multiset(t)| + |multiset(y)| + |multiset(e)|;
    FilterIsSubsequence(xs, pt);
    FilterIsSubsequence(xs, py);
    FilterIsSubsequence(xs, pe);
    forall k | 0 <= k < |xs|
      ensures (xs[k] in t <==> BucketOf(xs[k].timestamp, now, dayOf) == Today)
              && (xs[k] in y <==> BucketOf(xs[k].timestamp, now, dayOf) == Yesterday)
              && (xs[k] in e <==> BucketOf(xs[k].timestamp, now, dayOf) == Earlier)
    {
      assert xs[k] in multiset(xs);
    }
  }

  // ---------------------------------------------------------------------
  // Clicking an entry

  /** Whether the entry navigates when clicked: `if (notification.actionUrl)`
      is false for an absent and for an empty URL. */
  predicate HasAction(n: Notification) {
    n.actionUrl.Some? && n.actionUrl.value != ""
  }

  /** `handleNotificationClick(n)` for the entry `n` as rendered: if it was
      shown unread, every entry with its id becomes read; then, if it has an
      action URL, navigation to exactly that URL is requested and the panel
      closes. Without one, the panel stays as it was and nothing navigates. */
  function Click(s: State, n: Notification): (r: Step)
    ensures |r.state.notifications| == |s.notifications|
    ensures forall k :: 0 <= k < |s.notifications| ==>
              SameExceptRead(r.state.notifications[k], s.notifications[k])
    ensures !n.read ==> forall k :: 0 <= k < |s.notifications| ==>
              r.state.notifications[k].read == (s.notifications[k].read || s.notifications[k].id == n.id)
    ensures n.read ==> r.state.notifications == s.notifications
    ensures UnreadCount(r.state.notifications) <= UnreadCount(s.notifications)
    ensures n in s.notifications && !n.read ==>
              UnreadCount(r.state.notifications) < UnreadCount(s.notifications)
    ensures HasAction(n) ==> r.effects == [Navigate(n.actionUrl.value)] && !r.state.dropdownOpen
    ensures !HasAction(n) ==> r.effects == [] && r.state.dropdownOpen == s.dropdownOpen
    ensures r.state.preferences == s.preferences
  {
    var xs := if !n.read then MarkAsRead(s.notifications, n.id) else s.notifications;
    MarkAsReadUnread(s.notifications, n.id);
    if HasAction(n) then
      Step(State(xs, s.preferences, false), [Navigate(n.actionUrl.value)])
    else
      Step(s.(notifications := xs), [])
  }

  // ---------------------------------------------------------------------
  // Opening and closing the panel

  /** `handleToggleDropdown`: the button flips the panel. */
  function Toggle(s: State): (r: State)
    ensures r.dropdownOpen == !s.dropdownOpen
    ensures r.notifications == s.notifications && r.preferences == s.preferences
  {
    s.(dropdownOpen := !s.dropdownOpen)
  }

  /** Where a mousedown landed, relative to the panel and the button. */
  datatype Target = Target(inPanel: bool, inButton: bool)

  /** The document mousedown listener: it closes the panel only when both
      the panel and the button are mounted and the target lies in neither;
      otherwise the flag is left alone. It never opens the panel. */
  function ClickOutside(open: bool, panelMounted: bool, buttonMounted: bool, t: Target): (r: bool)
    ensures r ==> open
    ensures r != open <==> open && panelMounted && buttonMounted && !t.inPanel && !t.inButton
  {
    if panelMounted && !t.inPanel && buttonMounted && !t.inButton then false else open
  }

  /** As rendered, the button is always mounted and the panel exactly while
      open, so a mousedown keeps the panel open exactly when it was open and
      landed on the panel or the button. */
  lemma ClickOutsideRendered(open: bool, t: Target)
    ensures ClickOutside(open, open, true, t) == (open && (t.inPanel || t.inButton))
  {
  }

  /** Pressing the button (mousedown on it, then its click) always flips the
      panel: the click-outside rule does not interfere with the toggle. */
  lemma PressButtonFlips(s: State)
    ensures Toggle(s.(dropdownOpen := ClickOutside(s.dropdownOpen, s.dropdownOpen, true, Target(false, true)))).dropdownOpen
            == !s.dropdownOpen
  {
  }

  /** Toggling twice restores the panel. */
  lemma ToggleTwice(s: State)
    ensures Toggle(Toggle(s)) == s
  {
  }

  // ---------------------------------------------------------------------
  // Badge

  function Digit(d: nat): (c: char)
    requires d < 10
    ensures '0' <= c <= '9' && c as int - '0' as int == d
  {
    "0123456789"[d]
  }

  /** The decimal rendering of a count below 100. */
  function DecimalText(n: nat): (s: string)
    requires n < 100
    ensures 1 <= |s| <= 2
    ensures forall i :: 0 <= i < |s| ==> '0' <= s[i] <= '9'
    ensures n > 0 ==> s[0] != '0'
  {
    if n < 10 then [Digit(n)] else [Digit(n / 10), Digit(n % 10)]
  }

  /** Reads a string of decimal digits back as a number. */
  function ParseDecimal(s: string): nat {
    if s == [] then 0
    else
      var c := s[|s| - 1];
      var d := if '0' <= c <= '9' then c as int - '0' as int else 0;
      ParseDecimal(s[..|s| - 1]) * 10 + d
  }

  /** Reading a rendered count gives the count back. */
  lemma DecimalRoundTrip(n: nat)
    requires n < 100
    ensures ParseDecimal(DecimalText(n)) == n
  {
    var s := DecimalText(n);
    if n < 10 {
      assert s[..0] == [];
    } else {
      assert s[..1] == [Digit(n / 10)];
      assert s[..1][..0] == [];
      assert ParseDecimal(s[..1]) == n / 10;
    }
  }

  /** Decimal text is canonical: a string of one or two digits without a
      leading zero that reads back as `n` is the decimal text of `n`. */
  lemma DecimalCanonical(s: string, n: nat)
    requires 0 < n < 100
    requires 1 <= |s| <= 2 && s[0] != '0'
    requires forall i :: 0 <= i < |s| ==> '0' <= s[i] <= '9'
    requires ParseDecimal(s) == n
    ensures s == DecimalText(n)
  {
    var d0 := s[0] as int - '0' as int;
    assert s[..|s| - 1][..0] == [];
    if |s| == 1 {
      assert s[..0] == [];
      assert n == d0;
    } else {
      var d1 := s[1] as int - '0' as int;
      assert s[..1] == [s[0]];
      assert ParseDecimal(s[..1]) == d0;
      assert n == d0 * 10 + d1;
      assert n / 10 == d0 && n % 10 == d1;
    }
  }

  const Capped: string := "99+"

  /** The badge on the button: none when nothing is unread, "99+" beyond 99,
      otherwise the count itself in decimal. */
  function BadgeLabel(unread: nat): (r: Option<string>)
    ensures r.None? <==> unread == 0
    ensures unread > 99 ==> r == Some(Capped)
    ensures 0 < unread <= 99 ==>
              && r.Some? && |r.value| <= 2 && ParseDecimal(r.value) == unread
              && (forall i :: 0 <= i < |r.value| ==> '0' <= r.value[i] <= '9')
              && r.value[0] != '0'
  {
    if unread == 0 then None
    else if unread > 99 then Some(Capped)
    else
      DecimalRoundTrip(unread);
      Some(DecimalText(unread))
  }

  /** Counts up to 99 get distinct labels, none of them the capped one. */
  lemma BadgeDistinguishesSmallCounts(a: nat, b: nat)
    requires 0 < a <= 99 && 0 < b <= 99
    ensures BadgeLabel(a) == BadgeLabel(b) <==> a == b
    ensures BadgeLabel(a) != Some(Capped)
  {
  }

  // ---------------------------------------------------------------------
  // The panel as a whole

  const SettingsPath: string := "/settings"

  /** How many days the panel's purge button keeps. */
  const PanelPurgeDays: int := 7

  /** The user inputs the bell handles. */
  datatype PanelAction =
    | ClickItem(item: Notification)
    | Trash(item: Notification)
    | MarkAllRead
    | ClearWeekOld
    | OpenSettings
    | ToggleButton
    | MouseDown(target: Target)

  /** Whether the rendered bell offers the input: the panel's controls exist
      only while it is open, "mark all read" only while something is unread,
      the purge button only while the list is non-empty, and the trash button
      only on entries in the "today" bucket. */
  predicate Available(s: State, a: PanelAction, now: int, dayOf: int -> string) {
    match a
    case ClickItem(n) => s.dropdownOpen && n in s.notifications
    case Trash(n) =>
      s.dropdownOpen && n in s.notifications && BucketOf(n.timestamp, now, dayOf) == Today
    case MarkAllRead => s.dropdownOpen && UnreadCount(s.notifications) > 0
    case ClearWeekOld => s.dropdownOpen && |s.notifications| > 0
    case OpenSettings => s.dropdownOpen
    case ToggleButton => true
    case MouseDown(_) => true
  }

  /** One input to the bell. No input adds notifications, raises the unread
      count or touches the preferences, and the only requests it emits are
      navigations. The trash button stops propagation, so it never counts as
      a click on its entry; the settings button navigates without closing. */
  function Dispatch(s: State, a: PanelAction, now: int): (r: Step)
    ensures |r.state.notifications| <= |s.notifications|
    ensures UnreadCount(r.state.notifications) <= UnreadCount(s.notifications)
    ensures r.state.preferences == s.preferences
    ensures forall e :: e in r.effects ==> e.Navigate?
  {
    var xs := s.notifications;
    match a
    case ClickItem(n) => Click(s, n)
    case Trash(n) =>
      RemoveProperties(xs, n.id);
      Step(s.(notifications := RemoveNotification(xs, n.id)), [])
    case MarkAllRead => Step(s.(notifications := MarkAllAsRead(xs)), [])
    case ClearWeekOld =>
      ClearOldCompose(xs, PanelPurgeDays, PanelPurgeDays, now);
      assert |ClearOldNotifications(xs, PanelPurgeDays, now)| <= |xs| by {
        FilterMultiset(xs, NewerThan(Cutoff(PanelPurgeDays, now)));
      }
      Step(s.(notifications := ClearOldNotifications(xs, PanelPurgeDays, now)), [])
    case OpenSettings => Step(s, [Navigate(SettingsPath)])
    case ToggleButton => Step(Toggle(s), [])
    case MouseDown(t) => Step(s.(dropdownOpen := ClickOutside(s.dropdownOpen, s.dropdownOpen, true, t)), [])
  }

  /** While the panel is closed, nothing the user can do changes the list:
      only the button and mousedowns are available, and they move the flag. */
  lemma ClosedPanelKeepsList(s: State, a: PanelAction, now: int, dayOf: int -> string)
    requires Available(s, a, now, dayOf) && !s.dropdownOpen
    ensures Dispatch(s, a, now).state.notifications == s.notifications
    ensures Dispatch(s, a, now).effects == []
  {
  }
}
