/** The handlers of the settings page: the profile inputs, the notification
    preference switches and selects (each issuing a one-field partial to the
    notification centre), the preferred-topic badges and the lesson length. */
module Settings {
  import opened Wrappers
  import opened Seqs
  import opened NotificationContext

  // ---------------------------------------------------------------------
  // Profile

  datatype Profile = Profile(name: string, whatsapp: string, timezone: string)

  datatype ProfileField = NameField | WhatsappNumberField | TimezoneField

  function ProfileGet(p: Profile, f: ProfileField): string {
    match f
    case NameField => p.name
    case WhatsappNumberField => p.whatsapp
    case TimezoneField => p.timezone
  }

  /** One profile input: the name and number text boxes and the timezone
      select each replace a single field with the new value. */
  datatype ProfileEdit = ProfileEdit(field: ProfileField, value: string)

  /** `setProfile({ ...profile, <field>: value })`: the edited field takes
      the new value and the other two keep theirs. */
  function EditProfile(p: Profile, e: ProfileEdit): (r: Profile)
    ensures forall f :: ProfileGet(r, f) == if f == e.field then e.value else ProfileGet(p, f)
  {
    match e.field
    case NameField => p.(name := e.value)
    case WhatsappNumberField => p.(whatsapp := e.value)
    case TimezoneField => p.(timezone := e.value)
  }

  /** Two profile records with the same value in every field are equal. */
  lemma ProfileExtensional(a: Profile, b: Profile)
    requires forall f :: ProfileGet(a, f) == ProfileGet(b, f)
    ensures a == b
  {
    assert ProfileGet(a, NameField) == ProfileGet(b, NameField);
    assert ProfileGet(a, WhatsappNumberField) == ProfileGet(b, WhatsappNumberField);
    assert ProfileGet(a, TimezoneField) == ProfileGet(b, TimezoneField);
  }

  /** Edits of different fields commute, and of the same field the later
      one wins. */
  lemma ProfileEditsCompose(p: Profile, e1: ProfileEdit, e2: ProfileEdit)
    ensures e1.field != e2.field ==> EditProfile(EditProfile(p, e1), e2) == EditProfile(EditProfile(p, e2), e1)
    ensures e1.field == e2.field ==> EditProfile(EditProfile(p, e1), e2) == EditProfile(p, e2)
  {
    if e1.field != e2.field {
      ProfileExtensional(EditProfile(EditProfile(p, e1), e2), EditProfile(EditProfile(p, e2), e1));
    } else {
      ProfileExtensional(EditProfile(EditProfile(p, e1), e2), EditProfile(p, e2));
    }
  }

  // ---------------------------------------------------------------------
  // Notification preferences

  /** The preference controls, each carrying the value it was set to. */
  datatype PreferenceControl =
    | WhatsappSwitch(on: bool)
    | PushSwitch(on: bool)
    | EmailSwitch(on: bool)
    | SoundSwitch(on: bool)
    | VibrationSwitch(on: bool)
    | DeliveryTimeSelect(time: string)
    | FrequencySelect(frequency: Frequency)

  function ControlField(c: PreferenceControl): Field {
    match c
    case WhatsappSwitch(_) => WhatsappField
    case PushSwitch(_) => PushField
    case EmailSwitch(_) => EmailField
    case SoundSwitch(_) => SoundField
    case VibrationSwitch(_) => VibrationField
    case DeliveryTimeSelect(_) => DeliveryTimeField
    case FrequencySelect(_) => FrequencyField
  }

  function ControlValue(c: PreferenceControl): FieldValue {
    match c
    case WhatsappSwitch(b) => Flag(b)
    case PushSwitch(b) => Flag(b)
    case EmailSwitch(b) => Flag(b)
    case SoundSwitch(b) => Flag(b)
    case VibrationSwitch(b) => Flag(b)
    case DeliveryTimeSelect(t) => Text(t)
    case FrequencySelect(f) => Cadence(f)
  }

  /** The partial a control passes to `updatePreferences`: its own field,
      set to its value, and nothing else. */
  function ControlPatch(c: PreferenceControl): (d: PreferencesPatch)
    ensures forall f :: PatchGet(d, f) == if f == ControlField(c) then Some(ControlValue(c)) else None
  {
    match c
    case WhatsappSwitch(b) => NoChanges.(whatsappNotifications := Some(b))
    case PushSwitch(b) => NoChanges.(pushNotifications := Some(b))
    case EmailSwitch(b) => NoChanges.(emailNotifications := Some(b))
    case SoundSwitch(b) => NoChanges.(soundEnabled := Some(b))
    case VibrationSwitch(b) => NoChanges.(vibrationEnabled := Some(b))
    case DeliveryTimeSelect(t) => NoChanges.(deliveryTime := Some(t))
    case FrequencySelect(f) => NoChanges.(frequency := Some(f))
  }

  /** Operating a control changes its own preference to the chosen value
      and leaves every other preference as it was. */
  lemma ControlChangesOneField(p: Preferences, c: PreferenceControl)
    ensures forall f :: Get(UpdatePreferences(p, ControlPatch(c)), f)
                        == if f == ControlField(c) then ControlValue(c) else Get(p, f)
  {
  }

  /** Setting a control to the value the preferences already hold changes
      nothing. */
  lemma ControlToCurrentValue(p: Preferences, c: PreferenceControl)
    requires Get(p, ControlField(c)) == ControlValue(c)
    ensures UpdatePreferences(p, ControlPatch(c)) == p
  {
    ControlChangesOneField(p, c);
    PreferencesExtensional(UpdatePreferences(p, ControlPatch(c)), p);
  }

  // ---------------------------------------------------------------------
  // Learning preferences

  datatype Learning = Learning(topics: seq<string>, length: string)

  const InitialLearning: Learning := Learning(["Business", "English"], "5-min")

  /** The badges offered on the page. */
  const OfferedTopics: seq<string> :=
    ["Business", "English", "Marketing", "Technology", "Finance", "Leadership"]

  function OtherThan(topic: string): string -> bool {
    (t: string) => t != topic
  }

  /** Clicking a topic badge: a chosen topic is removed (every occurrence),
      an unchosen one is appended at the end; the lesson length is kept. */
  function ToggleTopic(l: Learning, topic: string): (r: Learning)
    ensures r.length == l.length
    ensures topic in r.topics <==> topic !in l.topics
    ensures topic !in l.topics ==> r.topics == l.topics + [topic]
    ensures topic in l.topics ==>
              && IsSubsequence(r.topics, l.topics)
              && (forall t :: multiset(r.topics)[t] == if t != topic then multiset(l.topics)[t] else 0)
  {
    if topic in l.topics then
      FilterMultiset(l.topics, OtherThan(topic));
      FilterIsSubsequence(l.topics, OtherThan(topic));
      l.(topics := Filter(l.topics, OtherThan(topic)))
    else
      l.(topics := l.topics + [topic])
  }

  /** Toggling an unchosen topic twice restores the record. */
  lemma ToggleAbsentTwice(l: Learning, topic: string)
    requires topic !in l.topics
    ensures ToggleTopic(ToggleTopic(l, topic), topic) == l
  {
    FilterAppend(l.topics, [topic], OtherThan(topic));
    FilterKeepsAll(l.topics, OtherThan(topic));
    assert Filter([topic], OtherThan(topic)) == [];
  }

  /** Toggling a chosen topic twice removes its duplicates and moves it to
      the end of the list. */
  lemma TogglePresentTwice(l: Learning, topic: string)
    requires topic in l.topics
    ensures ToggleTopic(ToggleTopic(l, topic), topic).topics
            == Filter(l.topics, OtherThan(topic)) + [topic]
  {
  }

  /** Every chosen topic is one the page offers. */
  predicate WithinOffered(l: Learning) {
    forall k :: 0 <= k < |l.topics| ==> l.topics[k] in OfferedTopics
  }

  /** The page starts within the offered topics, and clicking an offered
      badge keeps it there, so the chosen topics are always offered ones. */
  lemma ToggleStaysOffered(l: Learning, topic: string)
    requires topic in OfferedTopics
    ensures WithinOffered(InitialLearning)
    ensures WithinOffered(l) ==> WithinOffered(ToggleTopic(l, topic))
  {
  }

  /** The lesson-length select replaces the length and keeps the topics. */
  function SetLessonLength(l: Learning, length: string): (r: Learning)
    ensures r.topics == l.topics && r.length == length
  {
    l.(length := length)
  }
}
