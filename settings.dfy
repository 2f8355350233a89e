// The settings page: the preference record filled with defaults when it is
// loaded, the lookup maps from preference values to style classes, the option
// tables the pickers are built from, and the control handlers that each change
// one preference.

module Settings {
  import opened Wrappers

  datatype ChatPreferences = ChatPreferences(
    autoSave: bool,
    typingIndicator: bool,
    soundEnabled: bool,
    textSize: string,
    userBubbleColor: string,
    aiBubbleColor: string,
    chatBackground: string)

  datatype Preferences = Preferences(
    sharedMemory: bool,
    weeklyEmails: bool,
    darkMode: bool,
    accentColor: string,
    chatPreferences: ChatPreferences)

  datatype UserData = UserData(name: string, preferences: Preferences)

  // The stored user document, in which every field may be null or missing
  // (both are `None` here).

  datatype StoredChatPreferences = StoredChatPreferences(
    autoSave: Option<bool>,
    typingIndicator: Option<bool>,
    soundEnabled: Option<bool>,
    textSize: Option<string>,
    userBubbleColor: Option<string>,
    aiBubbleColor: Option<string>,
    chatBackground: Option<string>)

  datatype StoredPreferences = StoredPreferences(
    sharedMemory: Option<bool>,
    weeklyEmails: Option<bool>,
    darkMode: Option<bool>,
    accentColor: Option<string>,
    chatPreferences: Option<StoredChatPreferences>)

  datatype StoredUser = StoredUser(name: Option<string>, preferences: Option<StoredPreferences>)

  /** The chat preferences reached through the optional chain
      `preferences?.chatPreferences`. */
  function StoredChat(data: StoredUser): Option<StoredChatPreferences>
  {
    if data.preferences.Some? then data.preferences.value.chatPreferences else None
  }

  // ---------------------------------------------------------------------------
  // Loading

  /** The preferences a user with no stored preferences gets. */
  const DefaultPreferences := Preferences(
    true, true, false, "indigo",
    ChatPreferences(true, true, false, "md", "indigo", "gray", "light"))

  /** `x ?? d`: the stored value when it is present, even when it is `false`. */
  function Coalesce<T>(x: Option<T>, d: T): (r: T)
    ensures x.Some? ==> r == x.value
    ensures x.None? ==> r == d
  {
    x.GetOr(d)
  }

  function LoadChatPreferences(c: Option<StoredChatPreferences>): ChatPreferences
  {
    var d := DefaultPreferences.chatPreferences;
    match c
    case None => d
    case Some(s) =>
      ChatPreferences(
        Coalesce(s.autoSave, d.autoSave),
        Coalesce(s.typingIndicator, d.typingIndicator),
        Coalesce(s.soundEnabled, d.soundEnabled),
        Coalesce(s.textSize, d.textSize),
        Coalesce(s.userBubbleColor, d.userBubbleColor),
        Coalesce(s.aiBubbleColor, d.aiBubbleColor),
        Coalesce(s.chatBackground, d.chatBackground))
  }

  /** The record the page builds from a stored document. A missing or null
      boolean becomes its default and a stored `false` is kept; a missing or
      empty name becomes "". */
  function LoadUserData(data: StoredUser): (u: UserData)
    // the name falls back for every falsy value, which for a string is "" or missing
    ensures u.name == (if data.name.Some? && data.name.value != "" then data.name.value else "")
    // booleans defaulting to true are false only when `false` is stored
    ensures !u.preferences.sharedMemory <==>
              data.preferences.Some? && data.preferences.value.sharedMemory == Some(false)
    ensures !u.preferences.weeklyEmails <==>
              data.preferences.Some? && data.preferences.value.weeklyEmails == Some(false)
    ensures !u.preferences.chatPreferences.autoSave <==>
              StoredChat(data).Some? && StoredChat(data).value.autoSave == Some(false)
    ensures !u.preferences.chatPreferences.typingIndicator <==>
              StoredChat(data).Some? && StoredChat(data).value.typingIndicator == Some(false)
    // booleans defaulting to false are true only when `true` is stored
    ensures u.preferences.darkMode <==>
              data.preferences.Some? && data.preferences.value.darkMode == Some(true)
    ensures u.preferences.chatPreferences.soundEnabled <==>
              StoredChat(data).Some? && StoredChat(data).value.soundEnabled == Some(true)
    // strings take the stored value when there is one, and their default otherwise
    ensures u.preferences.accentColor ==
              if data.preferences.Some? && data.preferences.value.accentColor.Some?
              then data.preferences.value.accentColor.value else "indigo"
    ensures u.preferences.chatPreferences.textSize ==
              if StoredChat(data).Some? && StoredChat(data).value.textSize.Some?
              then StoredChat(data).value.textSize.value else "md"
    ensures u.preferences.chatPreferences.userBubbleColor ==
              if StoredChat(data).Some? && StoredChat(data).value.userBubbleColor.Some?
              then StoredChat(data).value.userBubbleColor.value else "indigo"
    ensures u.preferences.chatPreferences.aiBubbleColor ==
              if StoredChat(data).Some? && StoredChat(data).value.aiBubbleColor.Some?
              then StoredChat(data).value.aiBubbleColor.value else "gray"
    ensures u.preferences.chatPreferences.chatBackground ==
              if StoredChat(data).Some? && StoredChat(data).value.chatBackground.Some?
              then StoredChat(data).value.chatBackground.value else "light"
  {
    var name := if data.name.Some? && data.name.value != "" then data.name.value else "";
    match data.preferences
    case None => UserData(name, DefaultPreferences)
    case Some(p) =>
      UserData(name, Preferences(
        Coalesce(p.sharedMemory, DefaultPreferences.sharedMemory),
        Coalesce(p.weeklyEmails, DefaultPreferences.weeklyEmails),
        Coalesce(p.darkMode, DefaultPreferences.darkMode),
        Coalesce(p.accentColor, DefaultPreferences.accentColor),
        LoadChatPreferences(p.chatPreferences)))
  }

  /** The document that saving `u` leaves behind: every field present. */
  function Saved(u: UserData): StoredUser
  {
    var p := u.preferences;
    var c := p.chatPreferences;
    StoredUser(Some(u.name), Some(StoredPreferences(
      Some(p.sharedMemory), Some(p.weeklyEmails), Some(p.darkMode), Some(p.accentColor),
      Some(StoredChatPreferences(
        Some(c.autoSave), Some(c.typingIndicator), Some(c.soundEnabled), Some(c.textSize),
        Some(c.userBubbleColor), Some(c.aiBubbleColor), Some(c.chatBackground))))))
  }

  /** Loading what was saved gives back the same record. */
  lemma LoadSaved(u: UserData)
    ensures LoadUserData(Saved(u)) == u
  {
  }

  /** A document without preferences, or with every preference field missing,
      loads as the defaults. */
  lemma LoadMissingIsDefault(name: Option<string>)
    ensures LoadUserData(StoredUser(name, None)).preferences == DefaultPreferences
    ensures LoadUserData(StoredUser(name, Some(StoredPreferences(None, None, None, None, None))))
              .preferences == DefaultPreferences
    ensures LoadUserData(StoredUser(name, Some(StoredPreferences(None, None, None, None,
              Some(StoredChatPreferences(None, None, None, None, None, None, None))))))
              .preferences == DefaultPreferences
  {
  }

  /** Loading is idempotent across a save: load, save, load gives the first load. */
  lemma LoadSaveLoad(data: StoredUser)
    ensures LoadUserData(Saved(LoadUserData(data))) == LoadUserData(data)
  {
    LoadSaved(LoadUserData(data));
  }

  // ---------------------------------------------------------------------------
  // Lookup maps

  datatype Sender = User | Ai

  const BubbleColorMap: map<string, string> := map[
    "blue" := "bg-blue-500",
    "indigo" := "bg-indigo-500",
    "purple" := "bg-purple-500",
    "pink" := "bg-pink-500",
    "green" := "bg-green-500",
    "orange" := "bg-orange-500",
    "red" := "bg-red-500",
    "teal" := "bg-teal-500",
    "gray" := "bg-gray-100"]

  const TextSizeMap: map<string, string> := map[
    "sm" := "text-sm",
    "md" := "text-base",
    "lg" := "text-lg",
    "xl" := "text-xl"]

  const ChatBackgroundMap: map<string, string> := map[
    "light" := "bg-white",
    "gray" := "bg-gray-50",
    "blue" := "bg-blue-50",
    "purple" := "bg-purple-50",
    "green" := "bg-green-50",
    "pink" := "bg-pink-50"]

  const AccentMap: map<string, string> := map[
    "indigo" := "from-indigo-500 to-indigo-600",
    "purple" := "from-purple-500 to-purple-600",
    "pink" := "from-pink-500 to-pink-600",
    "blue" := "from-blue-500 to-blue-600",
    "green" := "from-green-500 to-green-600",
    "orange" := "from-orange-500 to-orange-600"]

  /** `table[key] || fallback`: the entry when the key is present and the entry
      is not empty, otherwise the fallback. */
  function LookupOr(table: map<string, string>, key: string, fallback: string): (r: string)
    ensures key in table && table[key] != "" ==> r == table[key]
    ensures key !in table ==> r == fallback
    ensures r == fallback || r in table.Values
  {
    if key in table && table[key] != "" then table[key] else fallback
  }

  function DefaultBubble(sender: Sender): string
  {
    if sender == User then "bg-indigo-500" else "bg-gray-100"
  }

  /** The bubble class for `sender`: the mapped class of the chosen colour, or
      the sender's default when nothing is loaded or the colour is unknown. */
  function GetBubbleColor(userData: Option<UserData>, sender: Sender): (r: string)
    ensures userData.None? ==> r == DefaultBubble(sender)
    ensures userData.Some? ==>
              var c := userData.value.preferences.chatPreferences;
              var color := if sender == User then c.userBubbleColor else c.aiBubbleColor;
              (color in BubbleColorMap ==> r == BubbleColorMap[color]) &&
              (color !in BubbleColorMap ==> r == DefaultBubble(sender))
  {
    if userData.None? then DefaultBubble(sender)
    else
      var c := userData.value.preferences.chatPreferences;
      var color := if sender == User then c.userBubbleColor else c.aiBubbleColor;
      LookupOr(BubbleColorMap, color, DefaultBubble(sender))
  }

  /** The text class: the mapped size, and "text-base" when nothing is loaded,
      the size is empty or it is unknown. */
  function GetTextSize(userData: Option<UserData>): (r: string)
    ensures userData.Some? && userData.value.preferences.chatPreferences.textSize in TextSizeMap ==>
              r == TextSizeMap[userData.value.preferences.chatPreferences.textSize]
    ensures userData.None? || userData.value.preferences.chatPreferences.textSize !in TextSizeMap ==>
              r == "text-base"
  {
    if userData.None? || userData.value.preferences.chatPreferences.textSize == "" then "text-base"
    else LookupOr(TextSizeMap, userData.value.preferences.chatPreferences.textSize, "text-base")
  }

  /** The chat background class: the mapped background, and "bg-white" when
      nothing is loaded, the background is empty or it is unknown. */
  function GetChatBackground(userData: Option<UserData>): (r: string)
    ensures userData.Some? && userData.value.preferences.chatPreferences.chatBackground in ChatBackgroundMap ==>
              r == ChatBackgroundMap[userData.value.preferences.chatPreferences.chatBackground]
    ensures userData.None? || userData.value.preferences.chatPreferences.chatBackground !in ChatBackgroundMap ==>
              r == "bg-white"
  {
    if userData.None? || userData.value.preferences.chatPreferences.chatBackground == "" then "bg-white"
    else LookupOr(ChatBackgroundMap, userData.value.preferences.chatPreferences.chatBackground, "bg-white")
  }

  /** The accent gradient: the mapped one for the six accents, the indigo one
      for any other key. */
  function GetAccentClasses(accentColor: string): (r: string)
    ensures accentColor in AccentMap ==> r == AccentMap[accentColor]
    ensures accentColor !in AccentMap ==> r == AccentMap["indigo"]
  {
    LookupOr(AccentMap, accentColor, "from-indigo-500 to-indigo-600")
  }

  /** The save button's accent: the accent preference, or "indigo" when nothing
      is loaded or the preference is empty. */
  function SaveButtonAccent(userData: Option<UserData>): (r: string)
    ensures r in AccentMap.Values
    ensures userData.Some? && userData.value.preferences.accentColor in AccentMap ==>
              r == AccentMap[userData.value.preferences.accentColor]
    ensures userData.None? || userData.value.preferences.accentColor == "" ==>
              r == AccentMap["indigo"]
    ensures userData.Some? && userData.value.preferences.accentColor !in AccentMap ==>
              r == AccentMap["indigo"]
  {
    var accent := if userData.Some? && userData.value.preferences.accentColor != ""
                  then userData.value.preferences.accentColor else "indigo";
    GetAccentClasses(accent)
  }

  /** Every lookup of a loaded record yields one of its table's classes or its
      fallback; none can produce anything else. */
  lemma LookupsAreClosed(userData: Option<UserData>, sender: Sender)
    ensures GetBubbleColor(userData, sender) in BubbleColorMap.Values
    ensures GetTextSize(userData) in TextSizeMap.Values
    ensures GetChatBackground(userData) in ChatBackgroundMap.Values
  {
    assert BubbleColorMap["indigo"] == "bg-indigo-500";
    assert BubbleColorMap["gray"] == "bg-gray-100";
    assert TextSizeMap["md"] == "text-base";
    assert ChatBackgroundMap["light"] == "bg-white";
  }

  // ---------------------------------------------------------------------------
  // Option tables

  /** One choice of a picker: its caption, the stored value and its class. */
  datatype Choice = Choice(caption: string, value: string, className: string)

  const AccentColors: seq<Choice> := [
    Choice("Indigo", "indigo", "from-indigo-500 to-indigo-600"),
    Choice("Purple", "purple", "from-purple-500 to-purple-600"),
    Choice("Pink", "pink", "from-pink-500 to-pink-600"),
    Choice("Blue", "blue", "from-blue-500 to-blue-600"),
    Choice("Green", "green", "from-green-500 to-green-600"),
    Choice("Orange", "orange", "from-orange-500 to-orange-600")]

  const BubbleColors: seq<Choice> := [
    Choice("Blue", "blue", "bg-blue-500"),
    Choice("Indigo", "indigo", "bg-indigo-500"),
    Choice("Purple", "purple", "bg-purple-500"),
    Choice("Pink", "pink", "bg-pink-500"),
    Choice("Green", "green", "bg-green-500"),
    Choice("Orange", "orange", "bg-orange-500"),
    Choice("Red", "red", "bg-red-500"),
    Choice("Teal", "teal", "bg-teal-500")]

  const TextSizes: seq<Choice> := [
    Choice("Small", "sm", "text-sm"),
    Choice("Medium", "md", "text-base"),
    Choice("Large", "lg", "text-lg"),
    Choice("Extra Large", "xl", "text-xl")]

  const ChatBackgrounds: seq<Choice> := [
    Choice("Light", "light", "bg-white"),
    Choice("Gray", "gray", "bg-gray-50"),
    Choice("Blue", "blue", "bg-blue-50"),
    Choice("Purple", "purple", "bg-purple-50"),
    Choice("Green", "green", "bg-green-50"),
    Choice("Pink", "pink", "bg-pink-50")]

  /** A table agrees with a lookup map when every choice's value maps to
      exactly that choice's class. */
  predicate Agrees(choices: seq<Choice>, table: map<string, string>)
  {
    forall i :: 0 <= i < |choices| ==>
      choices[i].value in table && table[choices[i].value] == choices[i].className
  }

  /** Picking an accent shows the gradient the accent lookup returns for it. */
  lemma AccentPickerAgrees()
    ensures Agrees(AccentColors, AccentMap)
    ensures forall i :: 0 <= i < |AccentColors| ==>
              GetAccentClasses(AccentColors[i].value) == AccentColors[i].className
  {
  }

  /** Every bubble colour offered maps to its class; the lookup also knows
      "gray", which no picker offers and which is the AI bubble's default. */
  lemma BubblePickerAgrees()
    ensures Agrees(BubbleColors, BubbleColorMap)
    ensures forall i :: 0 <= i < |BubbleColors| ==> BubbleColors[i].value != "gray"
    ensures "gray" in BubbleColorMap
  {
  }

  lemma TextSizePickerAgrees()
    ensures Agrees(TextSizes, TextSizeMap)
  {
  }

  lemma BackgroundPickerAgrees()
    ensures Agrees(ChatBackgrounds, ChatBackgroundMap)
  {
  }

  /** The loaded defaults are keys of their lookup maps, so a fresh user sees
      mapped classes and not fallbacks. */
  lemma DefaultsAreKnown()
    ensures DefaultPreferences.accentColor in AccentMap
    ensures DefaultPreferences.chatPreferences.textSize in TextSizeMap
    ensures DefaultPreferences.chatPreferences.userBubbleColor in BubbleColorMap
    ensures DefaultPreferences.chatPreferences.aiBubbleColor in BubbleColorMap
    ensures DefaultPreferences.chatPreferences.chatBackground in ChatBackgroundMap
  {
  }

  // ---------------------------------------------------------------------------
  // Control handlers

  /** The preferences a control can change. */
  datatype Field =
    | SharedMemory | WeeklyEmails | DarkMode | AccentColor
    | AutoSave | TypingIndicator | SoundEnabled
    | TextSize | UserBubbleColor | AiBubbleColor | ChatBackground

  datatype Value = Flag(b: bool) | Text(s: string)

  predicate IsFlag(f: Field)
  {
    f.SharedMemory? || f.WeeklyEmails? || f.DarkMode? || f.AutoSave? || f.TypingIndicator? || f.SoundEnabled?
  }

  function Get(p: Preferences, f: Field): Value
  {
    var c := p.chatPreferences;
    match f
    case SharedMemory => Flag(p.sharedMemory)
    case WeeklyEmails => Flag(p.weeklyEmails)
    case DarkMode => Flag(p.darkMode)
    case AccentColor => Text(p.accentColor)
    case AutoSave => Flag(c.autoSave)
    case TypingIndicator => Flag(c.typingIndicator)
    case SoundEnabled => Flag(c.soundEnabled)
    case TextSize => Text(c.textSize)
    case UserBubbleColor => Text(c.userBubbleColor)
    case AiBubbleColor => Text(c.aiBubbleColor)
    case ChatBackground => Text(c.chatBackground)
  }

  /** Two preference records with the same value in every field are equal, so
      `Get` sees the whole record. */
  lemma GetDetermines(u: Preferences, v: Preferences)
    requires forall f :: Get(u, f) == Get(v, f)
    ensures u == v
  {
    assert Get(u, SharedMemory) == Get(v, SharedMemory);
    assert Get(u, WeeklyEmails) == Get(v, WeeklyEmails);
    assert Get(u, DarkMode) == Get(v, DarkMode);
    assert Get(u, AccentColor) == Get(v, AccentColor);
    assert Get(u, AutoSave) == Get(v, AutoSave);
    assert Get(u, TypingIndicator) == Get(v, TypingIndicator);
    assert Get(u, SoundEnabled) == Get(v, SoundEnabled);
    assert Get(u, TextSize) == Get(v, TextSize);
    assert Get(u, UserBubbleColor) == Get(v, UserBubbleColor);
    assert Get(u, AiBubbleColor) == Get(v, AiBubbleColor);
    assert Get(u, ChatBackground) == Get(v, ChatBackground);
  }

  /** The preferences with field `f` set to `value` and every other field kept. */
  function SetPreference(p: Preferences, f: Field, value: Value): (r: Preferences)
    requires IsFlag(f) <==> value.Flag?
    ensures Get(r, f) == value
    ensures forall g :: g != f ==> Get(r, g) == Get(p, g)
  {
    var c := p.chatPreferences;
    match f
    case SharedMemory => p.(sharedMemory := value.b)
    case WeeklyEmails => p.(weeklyEmails := value.b)
    case DarkMode => p.(darkMode := value.b)
    case AccentColor => p.(accentColor := value.s)
    case AutoSave => p.(chatPreferences := c.(autoSave := value.b))
    case TypingIndicator => p.(chatPreferences := c.(typingIndicator := value.b))
    case SoundEnabled => p.(chatPreferences := c.(soundEnabled := value.b))
    case TextSize => p.(chatPreferences := c.(textSize := value.s))
    case UserBubbleColor => p.(chatPreferences := c.(userBubbleColor := value.s))
    case AiBubbleColor => p.(chatPreferences := c.(aiBubbleColor := value.s))
    case ChatBackground => p.(chatPreferences := c.(chatBackground := value.s))
  }

  /** The state update of one control, `prev ? { ...prev, <field>: value } : null`:
      nothing happens before the record is loaded, and the name is kept. A
      checkbox sets a flag, a picker sets a value string. */
  function Set(prev: Option<UserData>, f: Field, value: Value): (r: Option<UserData>)
    requires IsFlag(f) <==> value.Flag?
    ensures prev.None? <==> r.None?
    ensures r.Some? ==> r.value.name == prev.value.name
    ensures r.Some? ==> r.value.preferences == SetPreference(prev.value.preferences, f, value)
  {
    match prev
    case None => None
    case Some(u) => Some(u.(preferences := SetPreference(u.preferences, f, value)))
  }

  /** Setting a field to the value it already has changes nothing. */
  lemma SetCurrentIsNoOp(u: UserData, f: Field)
    requires IsFlag(f) <==> Get(u.preferences, f).Flag?
    ensures Set(Some(u), f, Get(u.preferences, f)) == Some(u)
  {
    GetDetermines(Set(Some(u), f, Get(u.preferences, f)).value.preferences, u.preferences);
  }

  /** Two controls on different fields can be used in either order. */
  lemma SetsCommute(u: UserData, f: Field, x: Value, g: Field, y: Value)
    requires IsFlag(f) <==> x.Flag?
    requires IsFlag(g) <==> y.Flag?
    requires f != g
    ensures Set(Set(Some(u), f, x), g, y) == Set(Set(Some(u), g, y), f, x)
  {
    var a := Set(Set(Some(u), f, x), g, y).value;
    var b := Set(Set(Some(u), g, y), f, x).value;
    forall h ensures Get(a.preferences, h) == Get(b.preferences, h) {
      if h == f {
      } else if h == g {
      } else {
      }
    }
    GetDetermines(a.preferences, b.preferences);
  }

  /** The value a document stores for a field, if any. */
  function StoredGet(data: StoredUser, f: Field): Option<Value>
  {
    var p := data.preferences;
    var c := StoredChat(data);
    match f
    case SharedMemory => if p.Some? && p.value.sharedMemory.Some? then Some(Flag(p.value.sharedMemory.value)) else None
    case WeeklyEmails => if p.Some? && p.value.weeklyEmails.Some? then Some(Flag(p.value.weeklyEmails.value)) else None
    case DarkMode => if p.Some? && p.value.darkMode.Some? then Some(Flag(p.value.darkMode.value)) else None
    case AccentColor => if p.Some? && p.value.accentColor.Some? then Some(Text(p.value.accentColor.value)) else None
    case AutoSave => if c.Some? && c.value.autoSave.Some? then Some(Flag(c.value.autoSave.value)) else None
    case TypingIndicator => if c.Some? && c.value.typingIndicator.Some? then Some(Flag(c.value.typingIndicator.value)) else None
    case SoundEnabled => if c.Some? && c.value.soundEnabled.Some? then Some(Flag(c.value.soundEnabled.value)) else None
    case TextSize => if c.Some? && c.value.textSize.Some? then Some(Text(c.value.textSize.value)) else None
    case UserBubbleColor => if c.Some? && c.value.userBubbleColor.Some? then Some(Text(c.value.userBubbleColor.value)) else None
    case AiBubbleColor => if c.Some? && c.value.aiBubbleColor.Some? then Some(Text(c.value.aiBubbleColor.value)) else None
    case ChatBackground => if c.Some? && c.value.chatBackground.Some? then Some(Text(c.value.chatBackground.value)) else None
  }

  /** Every loaded preference is the stored value when one is stored and the
      default otherwise, each field on its own. */
  lemma LoadFieldwise(data: StoredUser, f: Field)
    ensures StoredGet(data, f).Some? ==> Get(LoadUserData(data).preferences, f) == StoredGet(data, f).value
    ensures StoredGet(data, f).None? ==> Get(LoadUserData(data).preferences, f) == Get(DefaultPreferences, f)
  {
  }
}
