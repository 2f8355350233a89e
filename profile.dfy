// The profile page: the record filled with defaults when it is loaded, the
// merge of a partial preference update, and the editing of the three lists
// (interests, topics, goals) through their text boxes, remove buttons and
// preset chips.

module Profile {
  import opened Wrappers
  import opened Strings

  datatype ProfilePreferences = ProfilePreferences(
    sharedMemory: bool,
    weeklyEmails: bool,
    interests: seq<string>,
    topics: seq<string>,
    goals: seq<string>)

  datatype ProfileData = ProfileData(
    name: string,
    email: string,
    gender: string,
    age: int,
    preferences: ProfilePreferences)

  // The stored document; a null or missing field is `None`.

  datatype StoredProfilePreferences = StoredProfilePreferences(
    sharedMemory: Option<bool>,
    weeklyEmails: Option<bool>,
    interests: Option<seq<string>>,
    topics: Option<seq<string>>,
    goals: Option<seq<string>>)

  datatype StoredProfile = StoredProfile(
    name: Option<string>,
    email: Option<string>,
    gender: Option<string>,
    age: Option<int>,
    preferences: Option<StoredProfilePreferences>)

  /** `s || fallback` for a string: a missing or empty string is falsy. */
  function OrElse(s: Option<string>, fallback: string): (r: string)
    ensures s.Some? && s.value != "" ==> r == s.value
    ensures s.None? || s.value == "" ==> r == fallback
  {
    if s.Some? && s.value != "" then s.value else fallback
  }

  /** The record the page builds from the stored document and the signed-in
      account's email. Missing lists become empty (an empty list is kept, as
      arrays are never falsy), a missing or zero age becomes 0, and the email
      falls back from the document to the account and then to "". */
  function LoadProfile(data: StoredProfile, accountEmail: Option<string>): (u: ProfileData)
    ensures u.name == OrElse(data.name, "") && u.gender == OrElse(data.gender, "")
    ensures u.email == OrElse(data.email, OrElse(accountEmail, ""))
    ensures data.age.Some? ==> u.age == data.age.value
    ensures data.age.None? ==> u.age == 0
    ensures data.preferences.None? ==>
              u.preferences == ProfilePreferences(true, true, [], [], [])
    ensures data.preferences.Some? ==>
              var p := data.preferences.value;
              u.preferences.interests == p.interests.GetOr([]) &&
              u.preferences.topics == p.topics.GetOr([]) &&
              u.preferences.goals == p.goals.GetOr([]) &&
              (!u.preferences.sharedMemory <==> p.sharedMemory == Some(false)) &&
              (!u.preferences.weeklyEmails <==> p.weeklyEmails == Some(false))
  {
    var prefs := match data.preferences
      case None => ProfilePreferences(true, true, [], [], [])
      case Some(p) =>
        ProfilePreferences(
          p.sharedMemory.GetOr(true),
          p.weeklyEmails.GetOr(true),
          p.interests.GetOr([]),
          p.topics.GetOr([]),
          p.goals.GetOr([]));
    ProfileData(
      OrElse(data.name, ""),
      OrElse(data.email, OrElse(accountEmail, "")),
      OrElse(data.gender, ""),
      data.age.GetOr(0),
      prefs)
  }

  /** The account email is used only when the document has no usable one. */
  lemma StoredEmailWins(data: StoredProfile, accountEmail: Option<string>)
    requires data.email.Some? && data.email.value != ""
    ensures LoadProfile(data, accountEmail).email == data.email.value
  {
  }

  // ---------------------------------------------------------------------------
  // Merging a partial update

  /** `Partial<preferences>`: the fields an update carries. */
  datatype PreferencesPatch = PreferencesPatch(
    sharedMemory: Option<bool>,
    weeklyEmails: Option<bool>,
    interests: Option<seq<string>>,
    topics: Option<seq<string>>,
    goals: Option<seq<string>>)

  const NoChange := PreferencesPatch(None, None, None, None, None)

  /** `{ ...p, ...updates }`: each field the update carries overrides, every
      other field is kept. */
  function Merge(p: ProfilePreferences, updates: PreferencesPatch): (r: ProfilePreferences)
    ensures updates.sharedMemory.Some? ==> r.sharedMemory == updates.sharedMemory.value
    ensures updates.sharedMemory.None? ==> r.sharedMemory == p.sharedMemory
    ensures updates.weeklyEmails.Some? ==> r.weeklyEmails == updates.weeklyEmails.value
    ensures updates.weeklyEmails.None? ==> r.weeklyEmails == p.weeklyEmails
    ensures updates.interests.Some? ==> r.interests == updates.interests.value
    ensures updates.interests.None? ==> r.interests == p.interests
    ensures updates.topics.Some? ==> r.topics == updates.topics.value
    ensures updates.topics.None? ==> r.topics == p.topics
    ensures updates.goals.Some? ==> r.goals == updates.goals.value
    ensures updates.goals.None? ==> r.goals == p.goals
  {
    ProfilePreferences(
      updates.sharedMemory.GetOr(p.sharedMemory),
      updates.weeklyEmails.GetOr(p.weeklyEmails),
      updates.interests.GetOr(p.interests),
      updates.topics.GetOr(p.topics),
      updates.goals.GetOr(p.goals))
  }

  /** Merging nothing keeps the preferences, and merging the same update twice
      is merging it once. */
  lemma MergeLaws(p: ProfilePreferences, updates: PreferencesPatch)
    ensures Merge(p, NoChange) == p
    ensures Merge(Merge(p, updates), updates) == Merge(p, updates)
  {
  }

  /** Two updates in a row are one update in which the later one's fields win. */
  lemma MergeTwice(p: ProfilePreferences, first: PreferencesPatch, second: PreferencesPatch)
    ensures Merge(Merge(p, first), second) ==
              Merge(p, PreferencesPatch(
                if second.sharedMemory.Some? then second.sharedMemory else first.sharedMemory,
                if second.weeklyEmails.Some? then second.weeklyEmails else first.weeklyEmails,
                if second.interests.Some? then second.interests else first.interests,
                if second.topics.Some? then second.topics else first.topics,
                if second.goals.Some? then second.goals else first.goals))
  {
  }

  // ---------------------------------------------------------------------------
  // The three lists

  datatype ListKind = Interests | Topics | Goals

  function ListOf(p: ProfilePreferences, kind: ListKind): seq<string>
  {
    match kind
    case Interests => p.interests
    case Topics => p.topics
    case Goals => p.goals
  }

  /** The update one list's handlers send: `{ interests: items }` and so on. */
  function Only(kind: ListKind, items: seq<string>): PreferencesPatch
  {
    match kind
    case Interests => NoChange.(interests := Some(items))
    case Topics => NoChange.(topics := Some(items))
    case Goals => NoChange.(goals := Some(items))
  }

  /** An update of one list replaces that list and leaves the two other lists
      and both flags as they were. */
  lemma MergeOnly(p: ProfilePreferences, kind: ListKind, items: seq<string>)
    ensures ListOf(Merge(p, Only(kind, items)), kind) == items
    ensures forall other :: other != kind ==>
              ListOf(Merge(p, Only(kind, items)), other) == ListOf(p, other)
    ensures Merge(p, Only(kind, items)).sharedMemory == p.sharedMemory
    ensures Merge(p, Only(kind, items)).weeklyEmails == p.weeklyEmails
  {
  }

  /** Writing a list back unchanged changes nothing. */
  lemma MergeOnlySame(p: ProfilePreferences, kind: ListKind)
    ensures Merge(p, Only(kind, ListOf(p, kind))) == p
  {
  }

  /** `[...items, text.trim()]` when the trimmed text is not empty; an empty or
      blank text leaves the list as it is. */
  function AddItem(items: seq<string>, text: string): (r: seq<string>)
    ensures AllSpace(text) ==> r == items
    ensures !AllSpace(text) ==>
              |r| == |items| + 1 && r[..|items|] == items && r[|items|] == Trim(text)
  {
    var t := Trim(text);
    if t != "" then items + [t] else items
  }

  /** What is appended carries no surrounding blanks, so adding it again as
      typed adds the same item. */
  lemma AddedItemIsTrimmed(items: seq<string>, text: string)
    requires !AllSpace(text)
    ensures AddItem(items, text)[|items|] == Trim(text)
    ensures AddItem([], Trim(text)) == [Trim(text)]
  {
    TrimIdempotent(text);
  }

  /** `items.filter((_, i) => i !== index)`: the item at `index` removed and the
      others kept in order; an index outside the list removes nothing. */
  function RemoveAt(items: seq<string>, index: int): (r: seq<string>)
    ensures 0 <= index < |items| ==> r == items[..index] + items[index + 1..]
    ensures !(0 <= index < |items|) ==> r == items
    decreases |items|
  {
    if items == [] then []
    else
      var rest := RemoveAt(items[1..], index - 1);
      if index == 0 then rest else [items[0]] + rest
  }

  /** Dropping the item at `index` takes exactly one copy of it out of the bag. */
  lemma MultisetWithout(items: seq<string>, index: nat)
    requires index < |items|
    ensures multiset(items[..index] + items[index + 1..]) == multiset(items) - multiset{items[index]}
  {
    var front, back := items[..index], items[index + 1..];
    assert items[index..] == [items[index]] + back;
    assert items == front + items[index..];
    assert multiset(items) == multiset(front) + multiset{items[index]} + multiset(back);
  }

  /** Removing at an index inside the list shortens it by one, and the removed
      item is the only one that goes. */
  lemma RemoveAtCount(items: seq<string>, index: int)
    requires 0 <= index < |items|
    ensures |RemoveAt(items, index)| == |items| - 1
    ensures multiset(RemoveAt(items, index)) == multiset(items) - multiset{items[index]}
  {
    MultisetWithout(items, index);
  }

  /** `items.indexOf(x)`: the first index holding `x`, or -1. */
  function IndexOfItem(items: seq<string>, x: string): (i: int)
    ensures -1 <= i < |items|
    ensures i == -1 <==> x !in items
    ensures i >= 0 ==> items[i] == x && x !in items[..i]
  {
    if items == [] then -1
    else if items[0] == x then 0
    else
      var j := IndexOfItem(items[1..], x);
      assert items[1..][..if j < 0 then 0 else j] == items[1..1 + if j < 0 then 0 else j];
      if j == -1 then -1 else 1 + j
  }

  /** `removeX(items.indexOf(x))`: the first occurrence of `x` removed, nothing
      removed when `x` is absent. */
  function RemoveFirst(items: seq<string>, x: string): (r: seq<string>)
    ensures x !in items ==> r == items
    ensures x in items ==>
              exists i :: 0 <= i < |items| && items[i] == x && x !in items[..i] &&
                          r == items[..i] + items[i + 1..]
    ensures x in items ==> |r| == |items| - 1 && multiset(r) == multiset(items) - multiset{x}
  {
    var i := IndexOfItem(items, x);
    if i >= 0 then RemoveAtCount(items, i); RemoveAt(items, i) else RemoveAt(items, i)
  }

  // ---------------------------------------------------------------------------
  // Preset chips

  /** The chip handler as written: a chip already in the list removes its first
      occurrence; otherwise the box's current text is added (with `addX`) and the
      box is then set to the chip's text. Returns the new list and box. */
  function PresetToggleAsWritten(items: seq<string>, box: string, preset: string): (r: (seq<string>, string))
    ensures preset in items ==> r == (RemoveFirst(items, preset), box)
    ensures preset !in items ==> r == (AddItem(items, box), preset)
    ensures preset in items ==> multiset(r.0) == multiset(items) - multiset{preset}
    // an unselected chip reaches the list only when the box already held it
    ensures preset !in items ==> (preset in r.0 <==> !AllSpace(box) && Trim(box) == preset)
  {
    if preset in items then (RemoveFirst(items, preset), box)
    else (AddItem(items, box), preset)
  }

  /** With an empty box, clicking a chip that is not selected does not select it. */
  lemma PresetNotAddedOnFirstClick()
    ensures PresetToggleAsWritten([], "", "Anxiety") == ([], "Anxiety")
  {
    assert AllSpace("");
  }

  /** The chip handler as intended: a selected chip is removed, an unselected
      chip is appended. */
  function PresetToggle(items: seq<string>, preset: string): (r: seq<string>)
    ensures preset in items ==> r == RemoveFirst(items, preset)
    ensures preset !in items ==> r == items + [preset]
    // a click takes one copy of a selected chip out of the list, or puts one in
    ensures multiset(r) == if preset in items then multiset(items) - multiset{preset}
                           else multiset(items) + multiset{preset}
    ensures preset in r <==> preset !in items || multiset(items)[preset] > 1
  {
    if preset in items then RemoveFirst(items, preset) else items + [preset]
  }

  /** Clicking an unselected chip selects it, and clicking it again restores
      the list. */
  lemma PresetToggleTwice(items: seq<string>, preset: string)
    requires preset !in items
    ensures preset in PresetToggle(items, preset)
    ensures PresetToggle(PresetToggle(items, preset), preset) == items
  {
    var once := items + [preset];
    assert once[|items|] == preset;
    assert IndexOfItem(once, preset) == |items| by {
      assert once[..|items|] == items;
    }
  }

  // ---------------------------------------------------------------------------
  // The page state

  /** The record after a successful write of `updates`: the merged preferences,
      every other field kept. */
  function Updated(u: ProfileData, updates: PreferencesPatch): (v: ProfileData)
    ensures v.name == u.name && v.email == u.email && v.gender == u.gender && v.age == u.age
    ensures v.preferences == Merge(u.preferences, updates)
  {
    u.(preferences := Merge(u.preferences, updates))
  }

  /** The profile being edited, and the text boxes of the three lists. The
      outcome of each document write is a parameter: when it fails, the
      record on the page stays as it was. */
  class ProfileEditor {
    var userData: Option<ProfileData>
    var newInterest: string
    var newTopic: string
    var newGoal: string

    constructor (loaded: Option<ProfileData>)
      ensures userData == loaded
      ensures newInterest == "" && newTopic == "" && newGoal == ""
    {
      userData := loaded;
      newInterest, newTopic, newGoal := "", "", "";
    }

    function Box(kind: ListKind): string
      reads this
    {
      match kind
      case Interests => newInterest
      case Topics => newTopic
      case Goals => newGoal
    }

    /** `updatePreferences`: nothing happens before the record is loaded; the
        merged preferences replace the record's only when the write succeeds. */
    method UpdatePreferences(updates: PreferencesPatch, saveOk: bool)
      modifies this
      ensures old(userData).Some? && saveOk ==> userData == Some(Updated(old(userData).value, updates))
      ensures old(userData).None? || !saveOk ==> userData == old(userData)
      ensures newInterest == old(newInterest) && newTopic == old(newTopic) && newGoal == old(newGoal)
    {
      if userData.Some? && saveOk {
        userData := Some(Updated(userData.value, updates));
      }
    }

    method SetBox(kind: ListKind, text: string)
      modifies this
      ensures Box(kind) == text
      ensures forall other :: other != kind ==> Box(other) == old(Box(other))
      ensures userData == old(userData)
    {
      match kind
      case Interests => newInterest := text;
      case Topics => newTopic := text;
      case Goals => newGoal := text;
    }

    /** `addInterest`, `addTopic`, `addGoal`: with a non-blank box and a loaded
        record, the trimmed box is appended to the list (once the write succeeds)
        and the box is emptied whatever the write's outcome. */
    method Add(kind: ListKind, saveOk: bool)
      modifies this
      ensures var go := !AllSpace(old(Box(kind))) && old(userData).Some?;
              (go && saveOk ==> userData == Some(Updated(old(userData).value,
                 Only(kind, AddItem(ListOf(old(userData).value.preferences, kind), old(Box(kind))))))) &&
              (!(go && saveOk) ==> userData == old(userData)) &&
              (go ==> Box(kind) == "") &&
              (!go ==> Box(kind) == old(Box(kind)))
      ensures forall other :: other != kind ==> Box(other) == old(Box(other))
    {
      var text := Box(kind);
      if Trim(text) != "" && userData.Some? {
        var items := AddItem(ListOf(userData.value.preferences, kind), text);
        UpdatePreferences(Only(kind, items), saveOk);
        SetBox(kind, "");
      }
    }

    /** `removeInterest`, `removeTopic`, `removeGoal`. */
    method Remove(kind: ListKind, index: int, saveOk: bool)
      modifies this
      ensures old(userData).Some? && saveOk ==>
                userData == Some(Updated(old(userData).value,
                  Only(kind, RemoveAt(ListOf(old(userData).value.preferences, kind), index))))
      ensures old(userData).None? || !saveOk ==> userData == old(userData)
      ensures forall k :: Box(k) == old(Box(k))
    {
      if userData.Some? {
        var items := RemoveAt(ListOf(userData.value.preferences, kind), index);
        UpdatePreferences(Only(kind, items), saveOk);
      }
    }

    /** The topic and goal chips, as written: remove the chip's first
        occurrence when it is selected; otherwise run `Add` on the box's
        current text and then put the chip's text in the box. */
    method TogglePreset(kind: ListKind, preset: string, saveOk: bool)
      requires kind != Interests
      modifies this
      ensures old(userData).None? ==> userData == old(userData) && Box(kind) == preset
      ensures old(userData).Some? ==>
                var items := ListOf(old(userData).value.preferences, kind);
                var after := PresetToggleAsWritten(items, old(Box(kind)), preset);
                Box(kind) == after.1 &&
                (saveOk ==> userData == Some(Updated(old(userData).value, Only(kind, after.0)))) &&
                (!saveOk ==> userData == old(userData))
      ensures forall other :: other != kind ==> Box(other) == old(Box(other))
    {
      if userData.Some? && preset in ListOf(userData.value.preferences, kind) {
        Remove(kind, IndexOfItem(ListOf(userData.value.preferences, kind), preset), saveOk);
      } else {
        if userData.Some? {
          MergeOnlySame(userData.value.preferences, kind);
        }
        Add(kind, saveOk);
        SetBox(kind, preset);
      }
    }
  }
}
