/** The personal space (PersonalSpace.tsx): a three-field roadmap and a
    journal, loaded from the browser's key/value storage when the view mounts,
    and the roadmap written back whole on every field edit. Storage holds
    already-decoded documents; JSON encoding is not modelled. */
module Personal {
  import opened Optional

  /** The roadmap record; every field starts as the empty string. */
  datatype Roadmap = Roadmap(learn: string, struggle: string, nextStep: string)

  const EmptyRoadmap: Roadmap := Roadmap("", "", "")

  /** The three keys `saveRoadmap` is called with. */
  datatype RoadmapField = Learn | Struggle | NextStep

  function FieldOf(r: Roadmap, key: RoadmapField): string {
    match key
    case Learn => r.learn
    case Struggle => r.struggle
    case NextStep => r.nextStep
  }

  /** `{ ...roadmap, [key]: value }`: the named field becomes `value`, the
      other two are copied. */
  function WithField(r: Roadmap, key: RoadmapField, value: string): (r': Roadmap)
    ensures FieldOf(r', key) == value
    ensures forall other :: other != key ==> FieldOf(r', other) == FieldOf(r, other)
  {
    match key
    case Learn => r.(learn := value)
    case Struggle => r.(struggle := value)
    case NextStep => r.(nextStep := value)
  }

  /** Writing the same value to the same field twice is writing it once. */
  lemma WithFieldIdempotent(r: Roadmap, key: RoadmapField, value: string)
    ensures WithField(WithField(r, key, value), key, value) == WithField(r, key, value)
  {
  }

  /** One journal entry. */
  datatype JournalEntry = JournalEntry(id: string, text: string, date: string)

  /** What a storage key holds. `Blank` is the empty stored text, which the
      load skips before `JSON.parse`; the other two cases are already-decoded
      documents. */
  datatype StoredDoc = Blank | RoadmapDoc(roadmap: Roadmap) | JournalDoc(entries: seq<JournalEntry>)

  const RoadmapKey: string := "akif_dev_roadmap"
  const JournalKey: string := "akif_dev_personal_notes"

  lemma KeysDistinct()
    ensures RoadmapKey != JournalKey
  {
  }

  /** Each key holds nothing, the empty string or a document of its own
      shape: the shape `JSON.parse` must return for the state to be typed. */
  ghost predicate WellShaped(items: map<string, StoredDoc>) {
    && (RoadmapKey in items ==> !items[RoadmapKey].JournalDoc?)
    && (JournalKey in items ==> !items[JournalKey].RoadmapDoc?)
  }

  /** The roadmap after the mount-time load: the stored one when the key holds
      a non-empty value, `current` otherwise. */
  function LoadedRoadmap(items: map<string, StoredDoc>, current: Roadmap): (r: Roadmap)
    ensures RoadmapKey in items && items[RoadmapKey].RoadmapDoc? ==> r == items[RoadmapKey].roadmap
    ensures RoadmapKey !in items || items[RoadmapKey].Blank? ==> r == current
  {
    if RoadmapKey in items && items[RoadmapKey].RoadmapDoc? then items[RoadmapKey].roadmap else current
  }

  /** The journal after the mount-time load, likewise. */
  function LoadedJournal(items: map<string, StoredDoc>, current: seq<JournalEntry>): (r: seq<JournalEntry>)
    ensures JournalKey in items && items[JournalKey].JournalDoc? ==> r == items[JournalKey].entries
    ensures JournalKey !in items || items[JournalKey].Blank? ==> r == current
  {
    if JournalKey in items && items[JournalKey].JournalDoc? then items[JournalKey].entries else current
  }

  /** Read after write: loading after the roadmap was written returns exactly
      that roadmap, and the journal key reads as before. */
  lemma ReadAfterWrite(items: map<string, StoredDoc>, r: Roadmap, d: Roadmap, j: seq<JournalEntry>)
    ensures LoadedRoadmap(items[RoadmapKey := RoadmapDoc(r)], d) == r
    ensures LoadedJournal(items[RoadmapKey := RoadmapDoc(r)], j) == LoadedJournal(items, j)
    ensures WellShaped(items) ==> WellShaped(items[RoadmapKey := RoadmapDoc(r)])
  {
  }

  /** The browser's `localStorage`, shared by every component. */
  class LocalStore {
    var items: map<string, StoredDoc>

    constructor (initial: map<string, StoredDoc>)
      ensures items == initial
    {
      items := initial;
    }

    /** `getItem`: the value under `key`, or `null`. */
    method GetItem(key: string) returns (v: Option<StoredDoc>)
      ensures v.Some? <==> key in items
      ensures v.Some? ==> v.value == items[key]
    {
      v := if key in items then Some(items[key]) else None;
    }

    /** `setItem`: overwrites the value under `key`. */
    method SetItem(key: string, doc: StoredDoc)
      modifies this
      ensures items == old(items)[key := doc]
    {
      items := items[key := doc];
    }
  }

  class PersonalSpace {
    const store: LocalStore
    var timer: Option<int>
    var timerActive: bool
    var checkedItems: seq<string>
    var roadmap: Roadmap
    var notesHistory: seq<JournalEntry>
    var currentNote: string

    /** The first render: every piece of state at its default. */
    constructor (store: LocalStore)
      ensures this.store == store
      ensures timer == None && !timerActive && checkedItems == []
      ensures roadmap == EmptyRoadmap && notesHistory == [] && currentNote == ""
    {
      this.store := store;
      timer := None;
      timerActive := false;
      checkedItems := [];
      roadmap := EmptyRoadmap;
      notesHistory := [];
      currentNote := "";
    }

    /** The mount-time effect: a present, non-empty roadmap replaces the
        roadmap and a present, non-empty journal replaces the journal. */
    method Load()
      requires WellShaped(store.items)
      modifies this
      ensures roadmap == LoadedRoadmap(store.items, old(roadmap))
      ensures notesHistory == LoadedJournal(store.items, old(notesHistory))
      ensures timer == old(timer) && timerActive == old(timerActive)
      ensures checkedItems == old(checkedItems) && currentNote == old(currentNote)
    {
      var savedRoadmap := store.GetItem(RoadmapKey);
      if savedRoadmap.Some? && !savedRoadmap.value.Blank? {
        roadmap := savedRoadmap.value.roadmap;
      }
      var savedNotes := store.GetItem(JournalKey);
      if savedNotes.Some? && !savedNotes.value.Blank? {
        notesHistory := savedNotes.value.entries;
      }
    }

    /** `saveRoadmap(key, value)`: one field changes and the whole record is
        written under the roadmap key; nothing else is touched. */
    method SaveRoadmap(key: RoadmapField, value: string)
      modifies this, store
      ensures roadmap == WithField(old(roadmap), key, value)
      ensures store.items == old(store.items)[RoadmapKey := RoadmapDoc(roadmap)]
      ensures notesHistory == old(notesHistory) && currentNote == old(currentNote)
      ensures timer == old(timer) && timerActive == old(timerActive)
      ensures checkedItems == old(checkedItems)
    {
      roadmap := WithField(roadmap, key, value);
      store.SetItem(RoadmapKey, RoadmapDoc(roadmap));
    }
  }

  /** The round trip through storage: edit one field, leave the personal
      space and come back; the remounted view loads the edited roadmap and the
      journal it had. */
  method EditThenRemount(store: LocalStore, key: RoadmapField, value: string)
    returns (reloaded: Roadmap, journal: seq<JournalEntry>)
    requires WellShaped(store.items)
    modifies store
    ensures reloaded == WithField(LoadedRoadmap(old(store.items), EmptyRoadmap), key, value)
    ensures journal == LoadedJournal(old(store.items), [])
  {
    var first := new PersonalSpace(store);
    first.Load();
    first.SaveRoadmap(key, value);
    ReadAfterWrite(old(store.items), first.roadmap, EmptyRoadmap, []);
    var second := new PersonalSpace(store);
    second.Load();
    reloaded, journal := second.roadmap, second.notesHistory;
  }
}
