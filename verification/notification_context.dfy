/** The notification centre's state and the operations its provider exposes:
    a newest-first list of notification records with a derived unread count,
    a preference record updated by shallow merge, and the dropdown flag.
    Every operation is a pure transformation; the browser's clock, id source,
    audio and notification APIs become parameters or emitted effects. */
module NotificationContext {
  import opened Wrappers
  import opened Seqs

  /** Milliseconds in a day, `24 * 60 * 60 * 1000`. */
  const DayMs: int := 86400000

  datatype Kind = Lesson | Streak | Subscription | System | Achievement

  datatype Priority = Low | Medium | High

  /** One entry of the feed. `timestamp` is milliseconds since the epoch. */
  datatype Notification = Notification(
    id: string,
    title: string,
    message: string,
    kind: Kind,
    read: bool,
    timestamp: int,
    actionUrl: Option<string>,
    icon: Option<string>,
    priority: Option<Priority>)

  /** The argument of `addNotification`: a notification without its id,
      timestamp and read flag, which the store assigns. */
  datatype Draft = Draft(
    title: string,
    message: string,
    kind: Kind,
    actionUrl: Option<string>,
    icon: Option<string>,
    priority: Option<Priority>)

  /** The caller-supplied part of a notification. */
  function DraftOf(n: Notification): Draft {
    Draft(n.title, n.message, n.kind, n.actionUrl, n.icon, n.priority)
  }

  /** `a` and `b` agree on every field except possibly `read`. */
  predicate SameExceptRead(a: Notification, b: Notification) {
    a.(read := b.read) == b
  }

  datatype Frequency = Daily | Weekdays | Weekly

  datatype Preferences = Preferences(
    whatsappNotifications: bool,
    pushNotifications: bool,
    emailNotifications: bool,
    deliveryTime: string,
    frequency: Frequency,
    soundEnabled: bool,
    vibrationEnabled: bool)

  /** A `Partial<NotificationPreferences>`: every field may be absent. */
  datatype PreferencesPatch = PreferencesPatch(
    whatsappNotifications: Option<bool>,
    pushNotifications: Option<bool>,
    emailNotifications: Option<bool>,
    deliveryTime: Option<string>,
    frequency: Option<Frequency>,
    soundEnabled: Option<bool>,
    vibrationEnabled: Option<bool>)

  /** The empty partial `{}`. */
  const NoChanges: PreferencesPatch :=
    PreferencesPatch(None, None, None, None, None, None, None)

  /** Names of the preference fields, so that contracts can speak of
      "every other field". */
  datatype Field =
    | WhatsappField | PushField | EmailField | DeliveryTimeField
    | FrequencyField | SoundField | VibrationField

  datatype FieldValue = Flag(flag: bool) | Text(text: string) | Cadence(cadence: Frequency)

  function Get(p: Preferences, f: Field): FieldValue {
    match f
    case WhatsappField => Flag(p.whatsappNotifications)
    case PushField => Flag(p.pushNotifications)
    case EmailField => Flag(p.emailNotifications)
    case DeliveryTimeField => Text(p.deliveryTime)
    case FrequencyField => Cadence(p.frequency)
    case SoundField => Flag(p.soundEnabled)
    case VibrationField => Flag(p.vibrationEnabled)
  }

  /** The value a partial supplies for `f`, if any. */
  function PatchGet(d: PreferencesPatch, f: Field): Option<FieldValue> {
    match f
    case WhatsappField => if d.whatsappNotifications.Some? then Some(Flag(d.whatsappNotifications.value)) else None
    case PushField => if d.pushNotifications.Some? then Some(Flag(d.pushNotifications.value)) else None
    case EmailField => if d.emailNotifications.Some? then Some(Flag(d.emailNotifications.value)) else None
    case DeliveryTimeField => if d.deliveryTime.Some? then Some(Text(d.deliveryTime.value)) else None
    case FrequencyField => if d.frequency.Some? then Some(Cadence(d.frequency.value)) else None
    case SoundField => if d.soundEnabled.Some? then Some(Flag(d.soundEnabled.value)) else None
    case VibrationField => if d.vibrationEnabled.Some? then Some(Flag(d.vibrationEnabled.value)) else None
  }

  /** Two preference records with the same value in every field are equal. */
  lemma PreferencesExtensional(a: Preferences, b: Preferences)
    requires forall f :: Get(a, f) == Get(b, f)
    ensures a == b
  {
    assert Get(a, WhatsappField) == Get(b, WhatsappField);
    assert Get(a, PushField) == Get(b, PushField);
    assert Get(a, EmailField) == Get(b, EmailField);
    assert Get(a, DeliveryTimeField) == Get(b, DeliveryTimeField);
    assert Get(a, FrequencyField) == Get(b, FrequencyField);
    assert Get(a, SoundField) == Get(b, SoundField);
    assert Get(a, VibrationField) == Get(b, VibrationField);
  }

  /** Whether the browser offers `Notification`, and the user's answer. */
  datatype Permission = Default | Granted | Denied

  datatype Platform = Unsupported | Supported(permission: Permission)

  /** Requests the notification centre makes of its collaborators. None of
      them can fail in a way the store observes. */
  datatype Effect =
    | PlaySound(asset: string, volumeTenths: nat)
    | ShowPlatformNotification(title: string, body: string, icon: string)
    | RequestPermission
    | Navigate(url: string)

  const SoundAsset: string := "/notification-sound.mp3"
  /** The audio element's volume, 0.3, in tenths. */
  const SoundVolumeTenths: nat := 3
  const PlatformIcon: string := "/favicon.ico"

  /** Everything the provider holds. */
  datatype State = State(
    notifications: seq<Notification>,
    preferences: Preferences,
    dropdownOpen: bool)

  /** A state transition together with the requests it emits, in order. */
  datatype Step = Step(state: State, effects: seq<Effect>)

  const DefaultPreferences: Preferences :=
    Preferences(true, true, false, "08:00", Daily, true, true)

  /** The provider's initial state at time `now`: three seeded entries
      (30 minutes, 2 hours and 1 day old), default preferences, panel closed. */
  function Initial(now: int): State {
    State(
      [ Notification("1", "\U{1F389} New lesson sent!",
                     "Lesson 'Present Simple' has been sent to 247 students at 8:00 AM",
                     Lesson, false, now - 30 * 60 * 1000,
                     Some("/lessons/present-simple"), None, Some(Medium)),
        Notification("2", "\U{1F31F} Streak milestone reached!",
                     "You've maintained a 5-day teaching streak! Keep it up!",
                     Streak, false, now - 2 * 60 * 60 * 1000,
                     None, None, Some(High)),
        Notification("3", "\U{1F4B3} Subscription reminder",
                     "Your subscription renews in 3 days",
                     Subscription, true, now - 24 * 60 * 60 * 1000,
                     Some("/settings/billing"), None, Some(Medium)) ],
      DefaultPreferences,
      false)
  }

  // ---------------------------------------------------------------------
  // Unread count

  predicate IsUnread(n: Notification) {
    !n.read
  }

  /** `unreadCount`: how many entries are not yet read. It is zero exactly
      when everything is read and equals the length exactly when nothing is. */
  function UnreadCount(xs: seq<Notification>): (r: nat)
    ensures r <= |xs|
    ensures r == 0 <==> (forall k :: 0 <= k < |xs| ==> xs[k].read)
    ensures r == |xs| <==> (forall k :: 0 <= k < |xs| ==> !xs[k].read)
  {
    FilterExtremes(xs, IsUnread);
    |Filter(xs, IsUnread)|
  }

  // ---------------------------------------------------------------------
  // addNotification

  /** The list update of `addNotification`: a fresh unread entry with the
      caller's id and the current time goes in front of the old list. */
  function AddNotification(xs: seq<Notification>, d: Draft, id: string, now: int): (r: seq<Notification>)
    ensures |r| == |xs| + 1
    ensures r[1..] == xs
    ensures r[0].id == id && r[0].timestamp == now && !r[0].read
    ensures DraftOf(r[0]) == d
  {
    [Notification(id, d.title, d.message, d.kind, false, now, d.actionUrl, d.icon, d.priority)] + xs
  }

  /** The best-effort requests of `addNotification`: a sound when sound is
      enabled, then a platform notification when push is enabled and the
      browser supports notifications with permission granted. */
  function AddEffects(p: Preferences, platform: Platform, d: Draft): (r: seq<Effect>)
    ensures PlaySound(SoundAsset, SoundVolumeTenths) in r <==> p.soundEnabled
    ensures ShowPlatformNotification(d.title, d.message, PlatformIcon) in r
            <==> p.pushNotifications && platform == Supported(Granted)
    ensures forall e :: e in r ==>
              (e == PlaySound(SoundAsset, SoundVolumeTenths)
               || e == ShowPlatformNotification(d.title, d.message, PlatformIcon))
    ensures |r| == (if p.soundEnabled then 1 else 0)
                   + (if p.pushNotifications && platform == Supported(Granted) then 1 else 0)
    ensures p.soundEnabled ==> r[0] == PlaySound(SoundAsset, SoundVolumeTenths)
  {
    (if p.soundEnabled then [PlaySound(SoundAsset, SoundVolumeTenths)] else [])
    + (if p.pushNotifications && platform == Supported(Granted)
       then [ShowPlatformNotification(d.title, d.message, PlatformIcon)] else [])
  }

  /** `addNotification` as a transition of the whole provider. The list
      update depends only on the old list, the draft, the id and the time,
      never on the preferences or the platform; the sound comes first. */
  function Add(s: State, d: Draft, id: string, now: int, platform: Platform): (r: Step)
    ensures |r.state.notifications| == |s.notifications| + 1
    ensures r.state.notifications[1..] == s.notifications
    ensures r.state.notifications[0].id == id && r.state.notifications[0].timestamp == now
    ensures !r.state.notifications[0].read && DraftOf(r.state.notifications[0]) == d
    ensures r.state.preferences == s.preferences && r.state.dropdownOpen == s.dropdownOpen
    ensures PlaySound(SoundAsset, SoundVolumeTenths) in r.effects <==> s.preferences.soundEnabled
    ensures ShowPlatformNotification(d.title, d.message, PlatformIcon) in r.effects
            <==> s.preferences.pushNotifications && platform == Supported(Granted)
    ensures forall e :: e in r.effects ==>
              (e == PlaySound(SoundAsset, SoundVolumeTenths)
               || e == ShowPlatformNotification(d.title, d.message, PlatformIcon))
    ensures |r.effects| == (if s.preferences.soundEnabled then 1 else 0)
                           + (if s.preferences.pushNotifications && platform == Supported(Granted) then 1 else 0)
    ensures s.preferences.soundEnabled ==> r.effects[0] == PlaySound(SoundAsset, SoundVolumeTenths)
  {
    Step(s.(notifications := AddNotification(s.notifications, d, id, now)),
         AddEffects(s.preferences, platform, d))
  }

  /** The permission request made at most once when the provider mounts: only while
      the browser supports notifications and the user has not answered. */
  function MountEffects(platform: Platform): (r: seq<Effect>)
    ensures RequestPermission in r <==> platform == Supported(Default)
    ensures forall e :: e in r ==> e == RequestPermission
    ensures |r| <= 1
  {
    if platform == Supported(Default) then [RequestPermission] else []
  }

  // ---------------------------------------------------------------------
  // markAsRead / markAllAsRead

  /** `markAsRead(id)`: every entry with that id (ids need not be unique)
      becomes read; nothing else changes, and an absent id is a no-op. */
  function MarkAsRead(xs: seq<Notification>, id: string): (r: seq<Notification>)
    ensures |r| == |xs|
    ensures forall k :: 0 <= k < |xs| ==>
              r[k].read == (xs[k].read || xs[k].id == id) && SameExceptRead(r[k], xs[k])
    ensures (forall k :: 0 <= k < |xs| ==> xs[k].id != id) ==> r == xs
  {
    seq(|xs|, k requires 0 <= k < |xs| => if xs[k].id == id then xs[k].(read := true) else xs[k])
  }

  /** `markAllAsRead`: every entry becomes read, with order, length and all
      other fields kept, so nothing is left unread. */
  function MarkAllAsRead(xs: seq<Notification>): (r: seq<Notification>)
    ensures |r| == |xs|
    ensures forall k :: 0 <= k < |xs| ==> r[k].read && SameExceptRead(r[k], xs[k])
    ensures UnreadCount(r) == 0
  {
    seq(|xs|, k requires 0 <= k < |xs| => xs[k].(read := true))
  }

  // ---------------------------------------------------------------------
  // removeNotification / clearOldNotifications

  function IdIsNot(id: string): Notification -> bool {
    (n: Notification) => n.id != id
  }

  /** `removeNotification(id)`: exactly the entries whose id differs, in
      their original order; an absent id leaves the list identical. */
  function RemoveNotification(xs: seq<Notification>, id: string): (r: seq<Notification>)
    ensures forall k :: 0 <= k < |r| ==> r[k].id != id
    ensures forall n :: multiset(r)[n] == if n.id != id then multiset(xs)[n] else 0
    ensures IsSubsequence(r, xs)
    ensures (forall k :: 0 <= k < |xs| ==> xs[k].id != id) ==> r == xs
  {
    FilterMultiset(xs, IdIsNot(id));
    FilterIsSubsequence(xs, IdIsNot(id));
    FilterKeepsAll(xs, IdIsNot(id));
    Filter(xs, IdIsNot(id))
  }

  /** The instant before which `clearOldNotifications(days)` purges. */
  function Cutoff(days: int, now: int): int {
    now - days * DayMs
  }

  function NewerThan(cutoff: int): Notification -> bool {
    (n: Notification) => n.timestamp > cutoff
  }

  /** `clearOldNotifications(days)`: exactly the entries strictly newer than
      `now - days` days survive, in order; one exactly at the cutoff is
      dropped. */
  function ClearOldNotifications(xs: seq<Notification>, days: int, now: int): (r: seq<Notification>)
    ensures forall k :: 0 <= k < |r| ==> r[k].timestamp > now - days * DayMs
    ensures forall n :: multiset(r)[n] ==
              if n.timestamp > now - days * DayMs then multiset(xs)[n] else 0
    ensures IsSubsequence(r, xs)
    ensures (forall k :: 0 <= k < |xs| ==> xs[k].timestamp > now - days * DayMs) ==> r == xs
  {
    var p := NewerThan(Cutoff(days, now));
    FilterMultiset(xs, p);
    FilterIsSubsequence(xs, p);
    FilterKeepsAll(xs, p);
    Filter(xs, p)
  }

  // ---------------------------------------------------------------------
  // updatePreferences

  /** `updatePreferences(partial)`: `{ ...prev, ...partial }`. Each field
      takes the partial's value when supplied and keeps its own otherwise. */
  function UpdatePreferences(p: Preferences, d: PreferencesPatch): (r: Preferences)
    ensures forall f :: Get(r, f) == PatchGet(d, f).GetOr(Get(p, f))
  {
    var merged := Preferences(
      d.whatsappNotifications.GetOr(p.whatsappNotifications),
      d.pushNotifications.GetOr(p.pushNotifications),
      d.emailNotifications.GetOr(p.emailNotifications),
      d.deliveryTime.GetOr(p.deliveryTime),
      d.frequency.GetOr(p.frequency),
      d.soundEnabled.GetOr(p.soundEnabled),
      d.vibrationEnabled.GetOr(p.vibrationEnabled));
    assert forall f :: Get(merged, f) == PatchGet(d, f).GetOr(Get(p, f)) by {
      forall f ensures Get(merged, f) == PatchGet(d, f).GetOr(Get(p, f)) {
        MergedField(p, d, merged, f);
      }
    }
    merged
  }

  /** A record built field by field from the partial over `p` holds, in
      field `f`, the partial's value when supplied and `p`'s otherwise. */
  lemma MergedField(p: Preferences, d: PreferencesPatch, merged: Preferences, f: Field)
    requires merged.whatsappNotifications == d.whatsappNotifications.GetOr(p.whatsappNotifications)
    requires merged.pushNotifications == d.pushNotifications.GetOr(p.pushNotifications)
    requires merged.emailNotifications == d.emailNotifications.GetOr(p.emailNotifications)
    requires merged.deliveryTime == d.deliveryTime.GetOr(p.deliveryTime)
    requires merged.frequency == d.frequency.GetOr(p.frequency)
    requires merged.soundEnabled == d.soundEnabled.GetOr(p.soundEnabled)
    requires merged.vibrationEnabled == d.vibrationEnabled.GetOr(p.vibrationEnabled)
    ensures Get(merged, f) == PatchGet(d, f).GetOr(Get(p, f))
  {
    match f
    case WhatsappField =>
    case PushField =>
    case EmailField =>
    case DeliveryTimeField =>
    case FrequencyField =>
    case SoundField =>
    case VibrationField =>
  }

  /** The partial with `b`'s fields where present and `a`'s elsewhere. */
  function Overlay(a: PreferencesPatch, b: PreferencesPatch): PreferencesPatch {
    PreferencesPatch(
      if b.whatsappNotifications.Some? then b.whatsappNotifications else a.whatsappNotifications,
      if b.pushNotifications.Some? then b.pushNotifications else a.pushNotifications,
      if b.emailNotifications.Some? then b.emailNotifications else a.emailNotifications,
      if b.deliveryTime.Some? then b.deliveryTime else a.deliveryTime,
      if b.frequency.Some? then b.frequency else a.frequency,
      if b.soundEnabled.Some? then b.soundEnabled else a.soundEnabled,
      if b.vibrationEnabled.Some? then b.vibrationEnabled else a.vibrationEnabled)
  }

  /** The empty partial is the identity. */
  lemma UpdateWithNothing(p: Preferences)
    ensures UpdatePreferences(p, NoChanges) == p
  {
    PreferencesExtensional(UpdatePreferences(p, NoChanges), p);
  }

  /** Applying the same partial twice is applying it once. */
  lemma UpdateIdempotent(p: Preferences, d: PreferencesPatch)
    ensures UpdatePreferences(UpdatePreferences(p, d), d) == UpdatePreferences(p, d)
  {
    var once := UpdatePreferences(p, d);
    PreferencesExtensional(UpdatePreferences(once, d), once);
  }

  /** Two successive merges are one merge of the overlaid partials, the
      later partial winning on the fields both supply. */
  lemma UpdateCompose(p: Preferences, a: PreferencesPatch, b: PreferencesPatch)
    ensures UpdatePreferences(UpdatePreferences(p, a), b) == UpdatePreferences(p, Overlay(a, b))
  {
    var lhs := UpdatePreferences(UpdatePreferences(p, a), b);
    var rhs := UpdatePreferences(p, Overlay(a, b));
    forall f ensures Get(lhs, f) == Get(rhs, f) {
      match f
      case WhatsappField =>
      case PushField =>
      case EmailField =>
      case DeliveryTimeField =>
      case FrequencyField =>
      case SoundField =>
      case VibrationField =>
    }
    PreferencesExtensional(lhs, rhs);
  }

  // ---------------------------------------------------------------------
  // Properties relating several operations

  /** Adding raises the unread count by exactly one. */
  lemma AddIncrementsUnread(xs: seq<Notification>, d: Draft, id: string, now: int)
    ensures UnreadCount(AddNotification(xs, d, id, now)) == UnreadCount(xs) + 1
  {
    var r := AddNotification(xs, d, id, now);
    assert r[1..] == xs;
  }

  /** Adding N and then M yields M, then N, then the previous entries. */
  lemma AddTwiceOrder(xs: seq<Notification>, n: Draft, idN: string, tN: int,
                      m: Draft, idM: string, tM: int)
    ensures var r := AddNotification(AddNotification(xs, n, idN, tN), m, idM, tM);
            |r| == |xs| + 2 && DraftOf(r[0]) == m && DraftOf(r[1]) == n && r[2..] == xs
  {
    var once := AddNotification(xs, n, idN, tN);
    var r := AddNotification(once, m, idM, tM);
    assert r[1..] == once;
    assert r[2..] == once[1..];
  }

  /** After marking everything read, one addition leaves exactly one unread
      entry: the new one. */
  lemma MarkAllThenAddOneUnread(xs: seq<Notification>, d: Draft, id: string, now: int)
    ensures UnreadCount(AddNotification(MarkAllAsRead(xs), d, id, now)) == 1
  {
    AddIncrementsUnread(MarkAllAsRead(xs), d, id, now);
  }

  /** The list update of `addNotification` is the same whatever the
      preferences and the platform permission are. */
  lemma AddListIndependent(s1: State, s2: State, d: Draft, id: string, now: int,
                           platform1: Platform, platform2: Platform)
    requires s1.notifications == s2.notifications
    ensures Add(s1, d, id, now, platform1).state.notifications
         == Add(s2, d, id, now, platform2).state.notifications
  {
  }

  /** Marking the same id twice is marking it once. */
  lemma MarkAsReadIdempotent(xs: seq<Notification>, id: string)
    ensures MarkAsRead(MarkAsRead(xs, id), id) == MarkAsRead(xs, id)
  {
  }

  function UnreadOtherId(id: string): Notification -> bool {
    (n: Notification) => !n.read && n.id != id
  }

  /** `markAsRead` never raises the unread count, lowers it when some entry
      with that id was unread, and the entries still unread afterwards are
      exactly those that were unread under another id. */
  lemma MarkAsReadUnread(xs: seq<Notification>, id: string)
    ensures UnreadCount(MarkAsRead(xs, id)) == |Filter(xs, UnreadOtherId(id))|
    ensures UnreadCount(MarkAsRead(xs, id)) <= UnreadCount(xs)
    ensures (exists k :: 0 <= k < |xs| && xs[k].id == id && !xs[k].read)
            ==> UnreadCount(MarkAsRead(xs, id)) < UnreadCount(xs)
  {
    var r := MarkAsRead(xs, id);
    FilterCountPointwise(xs, r, UnreadOtherId(id), IsUnread);
    FilterCountPointwise(r, xs, IsUnread, UnreadOtherId(id));
    FilterCountSubsumed(xs, UnreadOtherId(id), IsUnread);
  }

  /** Marking all twice is marking all once. */
  lemma MarkAllIdempotent(xs: seq<Notification>)
    ensures MarkAllAsRead(MarkAllAsRead(xs)) == MarkAllAsRead(xs)
  {
  }

  /** Once everything is read, marking any id changes nothing. */
  lemma MarkAsReadAfterMarkAll(xs: seq<Notification>, id: string)
    ensures MarkAsRead(MarkAllAsRead(xs), id) == MarkAllAsRead(xs)
  {
  }

  /** Removing shortens the list exactly when the id is present, removing
      twice is removing once, and the unread count never rises. */
  lemma RemoveProperties(xs: seq<Notification>, id: string)
    ensures |RemoveNotification(xs, id)| == |xs| <==> (forall k :: 0 <= k < |xs| ==> xs[k].id != id)
    ensures RemoveNotification(RemoveNotification(xs, id), id) == RemoveNotification(xs, id)
    ensures UnreadCount(RemoveNotification(xs, id)) <= UnreadCount(xs)
  {
    FilterExtremes(xs, IdIsNot(id));
    FilterIdempotent(xs, IdIsNot(id));
    FilterCountShrinks(xs, IdIsNot(id), IsUnread);
  }

  /** For a fixed `now`, purging with `d1` then `d2` days is purging once
      with the smaller window; in particular purging twice with the same
      window is purging once. The unread count never rises. */
  lemma ClearOldCompose(xs: seq<Notification>, d1: int, d2: int, now: int)
    ensures ClearOldNotifications(ClearOldNotifications(xs, d1, now), d2, now)
         == ClearOldNotifications(xs, if d1 <= d2 then d1 else d2, now)
    ensures ClearOldNotifications(ClearOldNotifications(xs, d1, now), d1, now)
         == ClearOldNotifications(xs, d1, now)
    ensures UnreadCount(ClearOldNotifications(xs, d1, now)) <= UnreadCount(xs)
  {
    var dmin := if d1 <= d2 then d1 else d2;
    FilterFilter(xs, NewerThan(Cutoff(d1, now)), NewerThan(Cutoff(d2, now)), NewerThan(Cutoff(dmin, now)));
    FilterIdempotent(xs, NewerThan(Cutoff(d1, now)));
    FilterCountShrinks(xs, NewerThan(Cutoff(d1, now)), IsUnread);
  }

  /** The seeded state: three entries, two of them unread. */
  lemma InitialUnread(now: int)
    ensures |Initial(now).notifications| == 3
    ensures UnreadCount(Initial(now).notifications) == 2
    ensures !Initial(now).dropdownOpen
  {
    var xs := Initial(now).notifications;
    assert Filter(xs[2..], IsUnread) == [] by {
      assert xs[2..][1..] == [];
    }
    assert Filter(xs[1..], IsUnread) == [xs[1]] by {
      assert xs[1..][1..] == xs[2..];
    }
  }

  /** Purging a week from entries made now, three days ago and eight days
      ago keeps the first two. */
  lemma ClearWeekExample(a: Notification, b: Notification, c: Notification, now: int)
    requires a.timestamp == now && b.timestamp == now - 3 * DayMs && c.timestamp == now - 8 * DayMs
    ensures ClearOldNotifications([a, b, c], 7, now) == [a, b]
  {
    var xs := [a, b, c];
    var p := NewerThan(Cutoff(7, now));
    assert !p(c) && p(b) && p(a);
    assert Filter([c], p) == [] by {
      assert [c][1..] == [];
    }
    assert Filter([b, c], p) == [b] by {
      assert [b, c][1..] == [c];
    }
    assert xs[1..] == [b, c];
  }
}
