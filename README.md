# MindCompanion core, modelled in Dafny

MindCompanion is a mental-health chat companion built on Next.js. This project
models its deterministic core and proves properties of it:

- the keyword reply selector behind `POST /api/chat` (`wrappers.dfy`,
  `strings.dfy`, `chat_route.dfy`). The reply is the first of 21 substring
  tests, in source order, that holds on the lowercased message, else a general
  supportive text. The chain is modelled two ways, as a rule table with a
  first-match search and as a direct nested-if transcription, and the two are
  proved equal;
- the client chat store with its four actions (`chat_store.dfy`). It is a class
  whose methods replace the fields, proved against the pure list toggle;
- the settings page (`settings.dfy`): loading the stored defaults, the class
  lookups, the picker tables and the one-field setters;
- the profile page (`profile.dfy`): loading, the preferences merge and the
  list editing of interests, topics and goals. The list editing is a class over
  the page state whose document writes have an explicit outcome;
- the dashboard (`dashboard.dfy`): the accent lookups, the lightened gradients
  and split classes, and the welcome name;
- the placeholder reply of the chat page (`chat_page.dfy`), with the random
  number as a parameter.

Strings are sequences of characters. Case folding covers ASCII letters, and
"whitespace" for `trim` is the JavaScript set (ASCII whitespace, no-break space,
the Unicode space separators, line and paragraph separators, and the byte
order mark).

## Model

| member | source | states |
|---|---|---|
| Wrappers.Option.GetOr | src/app/settings/page.tsx:82 | `x ?? d`: the stored value when present, the default otherwise |
| Strings.ToLower | src/app/api/chat/route.ts:31 | `toLowerCase` on ASCII: same length, every letter folded pointwise, other characters kept |
| Strings.ToLowerIdempotent | src/app/api/chat/route.ts:31 | lowercasing twice is lowercasing once |
| Strings.ToLowerCaseInsensitive | src/app/api/chat/route.ts:31 | texts equal up to case lowercase to the same text |
| Strings.IndexOf | src/app/dashboard/page.tsx:340 | `indexOf`: -1 exactly when the pattern does not occur, otherwise the first position where it occurs |
| Strings.ReplaceFirst | src/app/dashboard/page.tsx:340 | `replace` with a string pattern: unchanged when the pattern is absent, otherwise only its first occurrence replaced |
| Strings.ReplaceAt | src/app/dashboard/page.tsx:340 | a pattern whose first character does not occur before it is the occurrence `replace` rewrites |
| Strings.Split | src/app/dashboard/page.tsx:342 | `split` on a character: at least one part, no part holds the separator, joining the parts gives back the text, the first part is the text before the first separator |
| Strings.SplitJoin | src/app/dashboard/page.tsx:342 | splitting a join of separator-free parts gives back the parts |
| Strings.Trim | src/app/profile/page.tsx:106 | `trim`: empty exactly when the text is all whitespace; the result is a slice with no whitespace at either end |
| Strings.TrimIdempotent | src/app/profile/page.tsx:107 | trimming a trimmed text changes nothing |
| ChatRoute.FirstMatch | src/app/api/chat/route.ts:33-134 | the scan returns the first position whose rule holds, or the fallback position when none does |
| ChatRoute.FirstHoldingUnique | src/app/api/chat/route.ts:33-137 | at most one position is the first holding rule |
| ChatRoute.Classify | src/app/api/chat/route.ts:30-137 | the chosen category is the first rule, in source order, whose test holds on the lowercased message; the supportive fallback exactly when no test holds |
| ChatRoute.GenerateIntelligentResponse | src/app/api/chat/route.ts:29-138 | every message gets a non-empty reply: the template of the category `Classify` chooses |
| ChatRoute.TemplateNonEmpty | src/app/api/chat/route.ts:35-137 | each of the 22 reply texts is non-empty |
| ChatRoute.Post | src/app/api/chat/route.ts:3-28 | a readable message is answered by the keyword selector; an unreadable request is answered as if the user had said "Hello"; the timestamp is the clock reading |
| ChatRoute.FirstMatchWins | src/app/api/chat/route.ts:33-137 | if rule i holds and no earlier one does, its template is the reply whatever later rules would say |
| ChatRoute.ShadowedByEarlier | src/app/api/chat/route.ts:33-137 | a rule that holds shadows every later rule |
| ChatRoute.NoRuleSupportive | src/app/api/chat/route.ts:136-137 | when no test holds the reply is the general supportive text |
| ChatRoute.CaseInsensitive | src/app/api/chat/route.ts:31 | messages equal up to case get the same reply |
| ChatRoute.GreetingIff | src/app/api/chat/route.ts:34-36 | the greeting is the reply exactly when "hi", "hello" or "hey" occurs anywhere in the lowercased message |
| ChatRoute.HiInsideWords | src/app/api/chat/route.ts:34-36 | "this", "nothing" and "something" contain "hi", so any message holding them is greeted |
| ChatRoute.Rule0Holds | src/app/api/chat/route.ts:34 | the greeting entry of the rule table holds exactly when the source condition does |
| ChatRoute.Rule1Holds | src/app/api/chat/route.ts:39 | the gratitude entry of the rule table holds exactly when the source condition does |
| ChatRoute.Rule2Holds | src/app/api/chat/route.ts:44 | the uncertainty entry of the rule table holds exactly when the source condition does |
| ChatRoute.Rule3Holds | src/app/api/chat/route.ts:49-50 | the sadness with "why" entry of the rule table holds exactly when the source condition does |
| ChatRoute.Rule4Holds | src/app/api/chat/route.ts:49 | the sadness entry of the rule table holds exactly when the source condition does |
| ChatRoute.Rule5Holds | src/app/api/chat/route.ts:57 | the loneliness entry of the rule table holds exactly when the source condition does |
| ChatRoute.Rule6Holds | src/app/api/chat/route.ts:62 | the anxiety entry of the rule table holds exactly when the source condition does |
| ChatRoute.Rule7Holds | src/app/api/chat/route.ts:67 | the help request entry of the rule table holds exactly when the source condition does |
| ChatRoute.Rule8Holds | src/app/api/chat/route.ts:72 | the name question entry of the rule table holds exactly when the source condition does |
| ChatRoute.Rule9Holds | src/app/api/chat/route.ts:77 | the time/duration entry of the rule table holds exactly when the source condition does |
| ChatRoute.Rule10Holds | src/app/api/chat/route.ts:82 | the stress entry of the rule table holds exactly when the source condition does |
| ChatRoute.Rule11Holds | src/app/api/chat/route.ts:87 | the anger entry of the rule table holds exactly when the source condition does |
| ChatRoute.Rule12Holds | src/app/api/chat/route.ts:92 | the negative feeling entry of the rule table holds exactly when the source condition does |
| ChatRoute.Rule13Holds | src/app/api/chat/route.ts:97 | the positive feeling entry of the rule table holds exactly when the source condition does |
| ChatRoute.Rule14Holds | src/app/api/chat/route.ts:102 | the sleep entry of the rule table holds exactly when the source condition does |
| ChatRoute.Rule15Holds | src/app/api/chat/route.ts:107 | the relationships entry of the rule table holds exactly when the source condition does |
| ChatRoute.Rule16Holds | src/app/api/chat/route.ts:112 | the work/school entry of the rule table holds exactly when the source condition does |
| ChatRoute.Rule17Holds | src/app/api/chat/route.ts:117 | the coping entry of the rule table holds exactly when the source condition does |
| ChatRoute.Rule18Holds | src/app/api/chat/route.ts:122 | the short acknowledgement entry of the rule table holds exactly when the source condition does |
| ChatRoute.Rule19Holds | src/app/api/chat/route.ts:127 | the off-topic entry of the rule table holds exactly when the source condition does |
| ChatRoute.Rule20Holds | src/app/api/chat/route.ts:132 | the general question entry of the rule table holds exactly when the source condition does |
| ChatRoute.AckWordsHolds | src/app/api/chat/route.ts:122 | the word part of the short-acknowledgement test holds exactly when "yes", "no", "ok" or "okay" occurs |
| ChatRoute.AsWrittenAgreesEarly | src/app/api/chat/route.ts:33-84 | on the first eleven tests the rule table selects what the nested ifs select |
| ChatRoute.AsWrittenAgreesLate | src/app/api/chat/route.ts:86-137 | on the remaining tests and the fallback the rule table selects what the nested ifs select |
| ChatRoute.AsWrittenAgrees | src/app/api/chat/route.ts:30-138 | the rule-table classifier equals the direct transcription of the if-chain on every message |
| ChatRoute.ReplyAsWrittenAgrees | src/app/api/chat/route.ts:30-138 | the reply of the direct transcription equals the modelled reply on every message |
| ChatRoute.GreetingsForHello | src/app/api/chat/route.ts:21 | the fallback text "Hello" is classified as a greeting |
| ChatRoute.PostErrorPathGreets | src/app/api/chat/route.ts:17-27 | when the request cannot be read POST answers with the greeting |
| ChatRoute.SadnessBranch | src/app/api/chat/route.ts:49-54 | once the first three tests fail and a sadness word occurs, "why" picks between the two sadness texts |
| ChatRoute.SadnessNeedsSadWord | src/app/api/chat/route.ts:49-54 | a sadness text needs a sadness word, and its why-variant needs "why" as well |
| ChatRoute.FeelingNeedsBoth | src/app/api/chat/route.ts:92-99 | a feeling text needs "feel" together with one of its adjectives |
| ChatRoute.ShortAckNeedsShort | src/app/api/chat/route.ts:122 | the short acknowledgement needs fewer than ten characters and one of its words; ten or more characters never get it |
| ChatRoute.QuestionNeedsMarkAndWh | src/app/api/chat/route.ts:132 | the general-question text needs "?" together with a WH-word |
| ChatRoute.TimeLimitNotOffTopic | src/app/api/chat/route.ts:77-129 | a message containing "time limit" is answered by the duration rule or an earlier one, never by the off-topic rule that tests "time" |
| ChatRoute.SadWhyExample | src/app/api/chat/route.ts:34-54 | "i feel so sad, why do i feel this way" is greeted, because "this" contains "hi" |
| ChatRoute.GratitudeExample | src/app/api/chat/route.ts:39 | "thank you so much" is thanked |
| ChatRoute.AnxiousQuestionExample | src/app/api/chat/route.ts:62 | "why am i so anxious?" gets the anxiety text, not the general-question one |
| ChatRoute.TimeLimitExample | src/app/api/chat/route.ts:77 | "time limit" gets the duration text |
| ChatRoute.NegativeFeelingExample | src/app/api/chat/route.ts:92 | "i feel terrible today" gets the negative-feeling text |
| ChatRoute.ShortAckExample | src/app/api/chat/route.ts:122 | "ok" gets the short acknowledgement |
| ChatRoute.EmptyExample | src/app/api/chat/route.ts:137 | the empty message gets the supportive fallback |
| ChatStore.Flip | src/lib/store.ts:39 | negates the shared-memory flag and keeps every other field |
| ChatStore.Toggled | src/lib/store.ts:36-41 | same length and order and ids; chats with the id are flipped, all others identical |
| ChatStore.ToggleAbsentIsNoOp | src/lib/store.ts:36-41 | toggling an id no chat carries leaves the list unchanged |
| ChatStore.ToggleTwice | src/lib/store.ts:36-41 | toggling the same id twice restores the list |
| ChatStore.ToggleCommutes | src/lib/store.ts:36-41 | toggles of two ids commute |
| ChatStore.Store.constructor | src/lib/store.ts:29-32 | the store starts with no chats, no open chat and no messages |
| ChatStore.Store.SetCurrentChat | src/lib/store.ts:33 | the open chat becomes the given id; both lists are kept |
| ChatStore.Store.AddChat | src/lib/store.ts:34 | the chat is appended after all earlier chats; the other fields are kept |
| ChatStore.Store.AddMessage | src/lib/store.ts:35 | the message is appended after all earlier messages; the other fields are kept |
| ChatStore.Store.ToggleSharedMemory | src/lib/store.ts:36-41 | the chats become the toggled list; the other fields are kept |
| ChatStore.ToggleTwiceInStore | src/lib/store.ts:36-41 | two toggles of one id through the store leave its whole state as it was |
| Settings.Coalesce | src/app/settings/page.tsx:82-93 | `??`: the stored value when present (even when empty), the default otherwise |
| Settings.LoadUserData | src/app/settings/page.tsx:79-96 | a missing or empty name loads as ""; a default-true flag loads false only when false is stored, a default-false flag loads true only when true is stored; the accent, text size, bubble colours and background take the stored string when there is one and their defaults ("indigo", "md", "indigo", "gray", "light") otherwise |
| Settings.LoadSaved | src/app/settings/page.tsx:79-96 | a document holding every field of a record loads back as that record |
| Settings.LoadMissingIsDefault | src/app/settings/page.tsx:82-93 | a document without preferences loads the default preferences |
| Settings.LoadSaveLoad | src/app/settings/page.tsx:79-96 | loading, storing the loaded record and loading again gives the same record |
| Settings.LoadFieldwise | src/app/settings/page.tsx:82-93 | each loaded preference is the stored value when there is one and the default otherwise |
| Settings.DefaultsAreKnown | src/app/settings/page.tsx:82-93 | every default colour, size and background is a key of its lookup table |
| Settings.LookupOr | src/app/settings/page.tsx:175 | `table[key] || fallback`: the table entry when the key is present, the fallback otherwise; the result is always the fallback or a table value |
| Settings.GetBubbleColor | src/app/settings/page.tsx:156-176 | the default per sender without loaded chat preferences; otherwise the table entry for the sender's colour, or the sender's default |
| Settings.GetTextSize | src/app/settings/page.tsx:178-189 | "text-base" for a missing or empty size; otherwise the table entry or "text-base" |
| Settings.GetChatBackground | src/app/settings/page.tsx:191-204 | "bg-white" for a missing or empty background; otherwise the table entry or "bg-white" |
| Settings.GetAccentClasses | src/app/settings/page.tsx:206-216 | the gradient entry of the accent, or the indigo gradient for an unknown accent |
| Settings.SaveButtonAccent | src/app/settings/page.tsx:676 | the save button takes the gradient of the stored accent, and the indigo gradient when the accent is missing, empty or unknown |
| Settings.LookupsAreClosed | src/app/settings/page.tsx:156-204 | every lookup result is a value of its table |
| Settings.AccentPickerAgrees | src/app/settings/page.tsx:29-36 | each accent option's class is the lookup entry of its value |
| Settings.BubblePickerAgrees | src/app/settings/page.tsx:38-47 | each bubble option's class is the lookup entry of its value, and the default AI colour gray is in the table but not offered |
| Settings.TextSizePickerAgrees | src/app/settings/page.tsx:49-54 | each text-size option's class is the lookup entry of its value |
| Settings.BackgroundPickerAgrees | src/app/settings/page.tsx:56-63 | each background option's class is the lookup entry of its value |
| Settings.GetDetermines | src/app/settings/page.tsx:10-27 | two preference records agreeing on every field are equal |
| Settings.SetPreference | src/app/settings/page.tsx:277-655 | the setter changes the named field to the new value and keeps every other field |
| Settings.Set | src/app/settings/page.tsx:277-655 | `setUserData(prev => prev ? {...} : null)`: no record stays no record; the name is kept and the preferences are updated in one field |
| Settings.SetCurrentIsNoOp | src/app/settings/page.tsx:277-655 | setting a field to its current value changes nothing |
| Settings.SetsCommute | src/app/settings/page.tsx:277-655 | setting two different fields gives the same record in either order |
| Dashboard.AccentKey | src/app/dashboard/page.tsx:95 | `accentColor || 'indigo'`: a missing or empty accent becomes "indigo", any other is kept |
| Dashboard.EmptyAccentDiffers | src/app/dashboard/page.tsx:95 | the dashboard turns the empty accent into indigo where the settings loader keeps it empty |
| Dashboard.GradientScheme | src/app/dashboard/page.tsx:108-118 | the gradient table is keyed by exactly the six accents, each mapped to its 500-to-600 gradient |
| Dashboard.TextClassesScheme | src/app/dashboard/page.tsx:120-130 | the text table is keyed by exactly the six accents, each mapped to its 600 text and 700 hover classes |
| Dashboard.HoverBgScheme | src/app/dashboard/page.tsx:132-142 | the hover table is keyed by exactly the six accents, each mapped to its 50 hover background |
| Dashboard.GetAccentClasses | src/app/dashboard/page.tsx:108-118 | the gradient of the accent when it is one of the six, the indigo gradient otherwise |
| Dashboard.GetAccentTextClasses | src/app/dashboard/page.tsx:120-130 | the text classes of the accent when it is one of the six, indigo's otherwise |
| Dashboard.GetAccentHoverBgClasses | src/app/dashboard/page.tsx:132-142 | the hover background of the accent when it is one of the six, indigo's otherwise |
| Dashboard.ReplaceStops | src/app/dashboard/page.tsx:340 | replacing the first "500" and then the first "600" of a gradient changes exactly its two colour stops |
| Dashboard.LightenedGradient | src/app/dashboard/page.tsx:340 | replacing the first "500" and then the first "600" of the accent gradient gives the same accent's gradient between the new stops (100 to 200 for the empty-state circle here, 50 to 100 for a hovered chat row at line 368) |
| Dashboard.SplitTextClasses | src/app/dashboard/page.tsx:342 | the text classes split at the space into the plain class and the hover class |
| Dashboard.IconTextClass | src/app/dashboard/page.tsx:342 | the icon colour is the accent's 600 text class |
| Dashboard.RowTitleHoverClass | src/app/dashboard/page.tsx:373 | the row title hover colour is the accent's 700 hover text class |
| Dashboard.WelcomeName | src/app/dashboard/page.tsx:223 | a non-empty stored name is shown; otherwise the part of the email before its first "@" (all of it when there is none); nothing without an email |
| Profile.OrElse | src/app/profile/page.tsx:66-69 | `x || fallback`: the stored text when present and not empty, the fallback otherwise |
| Profile.LoadProfile | src/app/profile/page.tsx:65-77 | name, gender, email (stored, then account, then ""), age (0 when missing or zero) and the list and flag defaults, with the flags false only when false is stored |
| Profile.StoredEmailWins | src/app/profile/page.tsx:67 | a non-empty stored email wins over the account email |
| Profile.Merge | src/app/profile/page.tsx:92 | `{...prefs, ...updates}`: each field the patch gives replaces the old one, every other field is kept |
| Profile.MergeLaws | src/app/profile/page.tsx:92-96 | the empty patch changes nothing, and applying the same patch twice is applying it once |
| Profile.MergeTwice | src/app/profile/page.tsx:86-97 | merging two patches one after the other equals merging their combination, the later winning |
| Profile.MergeOnly | src/app/profile/page.tsx:108 | a one-list patch replaces that list and keeps the other fields |
| Profile.MergeOnlySame | src/app/profile/page.tsx:92 | patching a list with its own current value changes nothing |
| Profile.Updated | src/app/profile/page.tsx:94-97 | the record after a successful write: merged preferences, name, email, gender and age kept |
| Profile.AddItem | src/app/profile/page.tsx:105-111 | a blank box leaves the list; otherwise the trimmed text is appended after all earlier items |
| Profile.AddedItemIsTrimmed | src/app/profile/page.tsx:106-107 | the appended item is trimmed, so adding it again as shown adds the same text |
| Profile.RemoveAt | src/app/profile/page.tsx:113-118 | `filter((_, i) => i !== index)`: the item at an in-range index is cut out and the rest kept in order; any other index changes nothing |
| Profile.RemoveAtCount | src/app/profile/page.tsx:113-118 | removing at an in-range index shortens the list by one and takes exactly one copy of that item out of its bag |
| Profile.IndexOfItem | src/app/profile/page.tsx:343 | `indexOf`: -1 exactly when the item is absent, otherwise its first index |
| Profile.RemoveFirst | src/app/profile/page.tsx:342-343 | removing at `indexOf(x)` cuts out the first occurrence of x, and nothing when x is absent |
| Profile.PresetToggleAsWritten | src/app/profile/page.tsx:341-347 | a selected chip removes its first occurrence, one copy out of the bag; an unselected chip adds the box's old text and then puts the chip's text in the box, so the chip reaches the list only when the trimmed box already held it |
| Profile.PresetNotAddedOnFirstClick | src/app/profile/page.tsx:341-347 | with an empty box, clicking the unselected chip "Anxiety" leaves the topics empty and only fills the box |
| Profile.PresetToggle | src/app/profile/page.tsx:341-347 | the intended chip toggle: a selected chip loses one copy and an unselected one gains one, and the chip stays selected only when it was listed twice |
| Profile.PresetToggleTwice | src/app/profile/page.tsx:341-347 | clicking an unselected chip selects it, and clicking again restores the list |
| Profile.ProfileEditor.constructor | src/app/profile/page.tsx:40-45 | the page starts with the loaded record and three empty boxes |
| Profile.ProfileEditor.UpdatePreferences | src/app/profile/page.tsx:86-103 | without a record nothing happens; merged preferences replace the record only when the write succeeds; the boxes are kept |
| Profile.ProfileEditor.SetBox | src/app/profile/page.tsx:269 | typing replaces that list's box and no other |
| Profile.ProfileEditor.Add | src/app/profile/page.tsx:105-141 | with a non-blank box and a loaded record the trimmed box is appended (once the write succeeds) and the box is emptied whatever the outcome; otherwise nothing changes |
| Profile.ProfileEditor.Remove | src/app/profile/page.tsx:113-148 | with a loaded record the item at the index is removed once the write succeeds; the boxes are kept |
| Profile.ProfileEditor.TogglePreset | src/app/profile/page.tsx:341-347 | a topic or goal chip click ends in the list and box that PresetToggleAsWritten gives, recorded only when the write succeeds |
| ChatPage.PickIndex | src/app/chat/page.tsx:179 | `Math.floor(random * n)` for random in [0, 1) is an index below n within one of random * n |
| ChatPage.GenerateAIResponse | src/app/chat/page.tsx:166-180 | the placeholder reply is one of the eight canned responses, the one whose eighth of [0, 1) holds the random number |
| ChatPage.EveryResponseReachable | src/app/chat/page.tsx:168-179 | every canned response is returned for some random number |

## Left out

- Firestore reads and writes, authentication and routing are not modelled. A loaded document is a value; each write's outcome is the `saveOk` parameter.
- The request body parse in POST is a parameter: `None` stands for a body that throws (unreadable JSON, or a `message` that is not a string); the clock reading is the `now` parameter.
- Theme application through the DOM (`applyTheme`, the `data-accent` attribute, dark mode) is not modelled beyond the accent key it uses.
- Strings.ToLower: folds only ASCII letters, not the full Unicode `toLowerCase`, so a non-ASCII capital may match differently; lengths count characters, not UTF-16 code units (this matters only for the ten-character short-acknowledgement test).
- Settings.LookupOr: keys inherited from JavaScript's object prototype (such as "constructor") are not modelled; they would return a function instead of the fallback.
- Strings.ReplaceFirst: the `$` replacement patterns of `String.replace` are not modelled; no replacement text in the core holds a `$`.
- ChatPage.PickIndex: `Math.random` and its IEEE double product are modelled as an exact real in [0, 1).
- Settings.LoadUserData: a stored field is either absent or of the right type; falsy values of other types (`0`, `null` strings) are not modelled.
- Profile.LoadProfile: a stored age is a number; the profile page's age and gender inputs, the name field and the account form are not modelled.
- Profile.ProfileEditor.Add: React's batching of state updates and the asynchronous order of the write and its follow-up `setState` calls are modelled as one sequential step (the last box assignment wins).
- Profile.ProfileEditor.TogglePreset: requires a topic or goal list, since the interests list has no preset chips.
- The dashboard's recent-chat loading, the chat list component, the chat detail page and the e-mail route are outside this model.
- The chat page's message flow around `generateAIResponse` (sending, timers, scrolling) is not modelled.
- The nested `why` branch of the sadness rule is never reached for "i feel so sad, why do i feel this way": "this" contains "hi", so the greeting rule at src/app/api/chat/route.ts:34 fires first (ChatRoute.SadWhyExample).

## Findings

| source | as written | input that shows it | evidently intended | confidence | as-written member | corrected member |
|---|---|---|---|---|---|---|
| src/app/profile/page.tsx:341-347 | an unselected topic or goal chip runs `addTopic()` on the text box's old contents and only then puts the chip's text in the box, so the chip is not added | topics `[]`, empty box, click "Anxiety": topics stay `[]`, box becomes "Anxiety" | clicking an unselected chip appends it to the list, and clicking again removes it | not executed | Profile.PresetNotAddedOnFirstClick | Profile.PresetToggleTwice |
