# Daily Burst Coach notification centre — Dafny model

This project models the client-side notification centre of the Daily Burst Coach admin dashboard.

- **The notification provider** (`NotificationContext`) holds three things:
  - a newest-first list of notification records;
  - a preference record;
  - the flag that says whether the bell's dropdown is open.
  
  It derives the unread count. Its operations are add, mark one read, mark all read, remove by id, purge entries older than N days, and shallow-merge a partial preference record. Adding can also request a sound and a browser notification, each gated by a preference.
- **The bell** (`NotificationBell`) covers:
  - the badge on the button, capped at "99+";
  - the grouping of the list into today / yesterday / earlier;
  - what clicking an entry does: mark read, navigate, close;
  - the toggle button and the click-outside rule;
  - the buttons inside the panel.
- **The settings page** (`Settings`) covers:
  - the three profile inputs;
  - the seven preference controls, each of which sends a one-field partial to the provider;
  - the preferred-topic badges;
  - the lesson-length select.

Every operation is a pure function over immutable datatypes, except `GroupByDate`, which is a method with a loop that touches no heap state. Whatever the browser supplies becomes a parameter:

- "now" is an integer count of milliseconds.
- The new entry's id is a string chosen by the caller.
- The calendar date of an instant is an abstract function `dayOf: int -> string`. It stands for `toDateString`.
- Platform notification support and permission are one input value, `Platform`.

Requests to collaborators are returned as `Effect` values: play a sound, show a platform notification, ask for permission, or navigate.

Ids are generated from the clock in the source, so they need not be unique. Every operation keyed by id is therefore specified over *all* entries with that id.

`Seqs.Filter` models `Array.prototype.filter`. It comes with lemmas about multiplicity, order (an explicit subsequence embedding), composition and counting. Every removal and every derived view is built on it.

Files: `wrappers.dfy` (Option), `seqs.dfy`, `notification_context.dfy`, `notification_bell.dfy`, `settings.dfy`.

Points where the code's behaviour is easy to misread, and what the model does with each:

- Ids are `Date.now().toString()` (src/contexts/NotificationContext.tsx:103), so two entries can share an id. Every id-keyed operation is specified over all matching entries.
- Clicking an entry closes the dropdown only inside `if (notification.actionUrl)` (src/components/NotificationBell.tsx:91-94). An empty or absent URL therefore neither navigates nor closes; `HasAction` is that truthiness test.
- "Yesterday" is the date of `now - 24h` (src/components/NotificationBell.tsx:102, 115), not necessarily the calendar date before today. The model uses `dayOf(now - DayMs)`, and `GroupByDate` states that "yesterday" is empty whenever that date equals today's, which happens on a 25-hour day.
- `clearOldNotifications(days)` accepts any number (src/contexts/NotificationContext.tsx:142-143). The model accepts any integer, zero and negative included.
- The per-entry trash button is rendered only in the "today" group (src/components/NotificationBell.tsx:232-242); the "yesterday" and "earlier" groups have none. `Available` records this.

## Model

| member | source | states |
|---|---|---|
| NotificationContext.UnreadCount | src/contexts/NotificationContext.tsx:98 | The count never exceeds the list length, is 0 if and only if every entry is read, and equals the length if and only if no entry is read. |
| NotificationContext.AddNotification | src/contexts/NotificationContext.tsx:100-108 | the list grows by one; the tail is the old list unchanged; the head carries the caller's id, timestamp = now, read = false, and exactly the draft's fields (`DraftOf(head) == draft`) |
| NotificationContext.AddEffects | src/contexts/NotificationContext.tsx:110-121 | a sound (fixed asset, volume 0.3) is requested iff sound is enabled; a platform notification with the draft's title and message and the fixed icon is requested iff push is enabled and the browser supports notifications with permission granted; each is requested at most once, the sound first, and nothing else is requested |
| NotificationContext.Add | src/contexts/NotificationContext.tsx:100-121 | the whole-provider step: the list is prepended as above; preferences and the dropdown flag are untouched; the gating holds; each request is made at most once, the sound first, and no other request is made |
| NotificationContext.AddListIndependent | src/contexts/NotificationContext.tsx:108-121 | the list after adding is the same whatever the preferences and the platform permission |
| NotificationContext.AddIncrementsUnread | src/contexts/NotificationContext.tsx:98-108 | adding raises the unread count by exactly one |
| NotificationContext.AddTwiceOrder | src/contexts/NotificationContext.tsx:108 | adding N and then M gives M, then N, then the previous list |
| NotificationContext.MountEffects | src/contexts/NotificationContext.tsx:166-171 | permission is requested on mount, once, iff the browser supports notifications and permission is still "default"; nothing else is requested |
| NotificationContext.MarkAsRead | src/contexts/NotificationContext.tsx:124-130 | length and order are kept; an entry is read afterwards iff it was read or has the id; every other field is unchanged; an absent id leaves the list identical |
| NotificationContext.MarkAsReadIdempotent | src/contexts/NotificationContext.tsx:124-130 | marking the same id twice equals marking it once |
| NotificationContext.MarkAsReadUnread | src/contexts/NotificationContext.tsx:98-130 | the entries still unread are exactly those that were unread under another id; the unread count never rises, and falls when some entry with the id was unread |
| NotificationContext.MarkAllAsRead | src/contexts/NotificationContext.tsx:132-136 | length and order are kept; every entry is read, with all other fields unchanged; the unread count is 0 |
| NotificationContext.MarkAllIdempotent | src/contexts/NotificationContext.tsx:132-136 | marking all twice equals marking all once |
| NotificationContext.MarkAsReadAfterMarkAll | src/contexts/NotificationContext.tsx:124-136 | after marking all, marking any id is a no-op |
| NotificationContext.MarkAllThenAddOneUnread | src/contexts/NotificationContext.tsx:98-136 | marking all read and then adding one entry leaves exactly one unread entry |
| NotificationContext.RemoveNotification | src/contexts/NotificationContext.tsx:138-140 | the result is an order-preserving subsequence; it holds every entry with a different id as often as the list did and no entry with the id; an absent id leaves the list identical |
| NotificationContext.RemoveProperties | src/contexts/NotificationContext.tsx:138-140 | the length is kept iff no entry has the id; removing twice equals removing once; the unread count never rises |
| NotificationContext.ClearOldNotifications | src/contexts/NotificationContext.tsx:142-147 | the result is an order-preserving subsequence holding exactly the entries with timestamp strictly greater than now − days·86400000, with their multiplicity; an entry exactly at the cutoff is dropped; if nothing is old, the list is unchanged |
| NotificationContext.ClearOldCompose | src/contexts/NotificationContext.tsx:142-147 | for a fixed now, purging with d1 and then d2 days equals purging once with min(d1, d2); purging twice with the same window equals purging once; the unread count never rises |
| NotificationContext.ClearWeekExample | src/contexts/NotificationContext.tsx:142-147 | purging 7 days from entries made now, 3 days ago and 8 days ago keeps the first two |
| NotificationContext.UpdatePreferences | src/contexts/NotificationContext.tsx:149-151 | after the merge, each field has the partial's value when the partial supplies one, and its previous value otherwise |
| NotificationContext.UpdateWithNothing | src/contexts/NotificationContext.tsx:149-151 | merging the empty partial is the identity |
| NotificationContext.UpdateIdempotent | src/contexts/NotificationContext.tsx:149-151 | merging the same partial twice equals merging it once |
| NotificationContext.UpdateCompose | src/contexts/NotificationContext.tsx:149-151 | two successive merges equal one merge of the overlaid partials, with the later one winning |
| NotificationContext.InitialUnread | src/contexts/NotificationContext.tsx:54-96 | the seeded provider holds three entries, two of them unread, with the dropdown closed |
| NotificationBell.GroupByDate | src/components/NotificationBell.tsx:101-123 | the three buckets partition the list (the multisets add up, the sizes sum to the length); each bucket is an order-preserving subsequence; "today" holds exactly the entries dated on now's date, "yesterday" those dated on the date of now − 24h but not on today's, and "earlier" all others, future-dated entries included; "yesterday" is empty when the two dates coincide |
| NotificationBell.BucketsPartition | src/components/NotificationBell.tsx:101-123 | the three bucket filters add up to the list as multisets and in size; each is a subsequence; an entry is in a bucket iff its date selects that bucket |
| NotificationBell.Click | src/components/NotificationBell.tsx:86-95 | if the clicked entry was shown unread, every entry with its id becomes read and nothing else changes; a listed unread entry lowers the unread count; with a truthy action URL, the only request is a navigation to exactly that URL and the dropdown closes; otherwise nothing is requested and the dropdown flag is unchanged |
| NotificationBell.Toggle | src/components/NotificationBell.tsx:97-99 | the dropdown flag becomes its negation; the list and the preferences are untouched |
| NotificationBell.ToggleTwice | src/components/NotificationBell.tsx:97-99 | toggling twice restores the state |
| NotificationBell.ClickOutside | src/components/NotificationBell.tsx:41-55 | a mousedown never opens the dropdown; it changes the flag iff the dropdown is open, both the panel and the button are mounted, and the target is in neither |
| NotificationBell.ClickOutsideRendered | src/components/NotificationBell.tsx:42-50 | with the button always mounted and the panel mounted exactly while open, the dropdown stays open iff it was open and the mousedown hit the panel or the button |
| NotificationBell.PressButtonFlips | src/components/NotificationBell.tsx:42-50 | a press on the button (its mousedown, then its click) always flips the dropdown |
| NotificationBell.BadgeLabel | src/components/NotificationBell.tsx:144-147 | no badge iff the unread count is 0; "99+" above 99; otherwise one or two decimal digits, without a leading zero, that read back as the count |
| NotificationBell.DecimalCanonical | src/components/NotificationBell.tsx:146 | a string of one or two digits without a leading zero that reads back as a count from 1 to 99 is exactly that count's decimal text, so the badge label is determined by its contract |
| NotificationBell.DecimalRoundTrip | src/components/NotificationBell.tsx:146 | reading the decimal label of a count below 100 gives the count back |
| NotificationBell.BadgeDistinguishesSmallCounts | src/components/NotificationBell.tsx:144-147 | counts 1..99 get pairwise distinct labels, none of them "99+" |
| NotificationBell.Dispatch | src/components/NotificationBell.tsx:127-391 | no input to the bell (item click, trash, mark all read, purge 7 days, settings, toggle, mousedown) lengthens the list, raises the unread count or changes preferences, and the only requests it emits are navigations |
| NotificationBell.ClosedPanelKeepsList | src/components/NotificationBell.tsx:151-153 | while the dropdown is closed, every input the bell offers leaves the list unchanged and emits nothing |
| Settings.EditProfile | src/pages/Settings.tsx:53-72 | a profile edit replaces exactly the edited field among name, number and timezone, and keeps the other two |
| Settings.ProfileEditsCompose | src/pages/Settings.tsx:53-72 | edits of different fields commute; of two edits to the same field, the later one wins |
| Settings.ControlPatch | src/pages/Settings.tsx:106-187 | each of the seven controls issues a partial that supplies its own field with the chosen value and no other field |
| Settings.ControlChangesOneField | src/pages/Settings.tsx:106-187 | after a control's merge, its field holds the chosen value and every other preference is as before |
| Settings.ControlToCurrentValue | src/pages/Settings.tsx:106-187 | setting a control to the value already held leaves the preferences identical |
| Settings.ToggleTopic | src/pages/Settings.tsx:231-236 | the topic is chosen afterwards iff it was not chosen before; an unchosen topic is appended at the end; a chosen topic is removed in every occurrence, with the other topics kept in order and multiplicity; the lesson length is kept |
| Settings.ToggleAbsentTwice | src/pages/Settings.tsx:232-235 | toggling an unchosen topic twice restores the original record |
| Settings.TogglePresentTwice | src/pages/Settings.tsx:232-235 | toggling a chosen topic twice leaves the other topics in order and the topic once, at the end |
| Settings.ToggleStaysOffered | src/pages/Settings.tsx:24-236 | the initial topics are among the six offered badges, and clicking an offered badge keeps every chosen topic among them |
| Settings.SetLessonLength | src/pages/Settings.tsx:246 | the lesson-length select leaves the chosen topics untouched |

## Left out

- Backend calls (`src/lib/*.ts`, lesson creation, login, analytics components): these are network pass-throughs to a hosted service with no local logic.
- Audio playback, the browser `Notification` constructor and `requestPermission`: these are represented only as emitted `Effect` values. Audio failures are caught and logged (src/contexts/NotificationContext.tsx:153-164). The `new Notification(...)` call (line 117) is unguarded: if it throws, the exception leaves `addNotification` after the list update was queued. The promise from `requestPermission()` (line 169) is never caught. The model drops these exceptions; its `Add` always completes with the list prepended.
- `Date.now()`, `new Date()` and `toDateString()`: these become the `now` parameter, the caller-supplied id and the abstract `dayOf`.
- JavaScript number semantics: timestamps and day counts are unbounded integers. Fractional or non-finite day counts and floating-point rounding of `days * 86400000` are not modelled.
- `Partial<NotificationPreferences>` with a field explicitly set to `undefined`: JavaScript's spread would copy that `undefined` over the old value. The model's absent field means "not supplied", and no caller passes `undefined`.
- `useNotifications` throwing outside its provider: this is a React wiring check.
- `formatDistanceToNow`, `cn`, icon and priority-colour lookups, the "You have N unread notifications" text and the empty-list message: these are presentation only.
- The commented-out random demo generator: it is disabled and random.
- Event ordering between a mousedown and the click it starts: the model treats them as separate inputs. `PressButtonFlips` composes them for the button.
- The settings page's "Save Preferences" button only logs the preferences (src/pages/Settings.tsx:200-205). "Save Profile" and "Save Learning Preferences" have no handler. The privacy switches are uncontrolled. The offered delivery times and frequencies are not enforced: the model accepts any string and any `Frequency`.
