// The dashboard page: the accent lookups, the lighter gradients and the single
// classes derived from them by `replace` and `split`, and the welcome name.

module Dashboard {
  import opened Wrappers
  import opened Strings
  import Settings

  /** The six accents both the settings page and the dashboard know. */
  const AccentKeys: seq<string> := ["indigo", "purple", "pink", "blue", "green", "orange"]

  /** `userData?.preferences.accentColor || 'indigo'`: a missing, null or empty
      accent becomes "indigo". */
  function AccentKey(accent: Option<string>): (k: string)
    ensures k != ""
    ensures accent.Some? && accent.value != "" ==> k == accent.value
    ensures accent.None? || accent.value == "" ==> k == "indigo"
  {
    if accent.Some? && accent.value != "" then accent.value else "indigo"
  }

  /** `||` and `??` differ on the empty accent: the dashboard uses "indigo" where
      the settings loader keeps "". */
  lemma EmptyAccentDiffers()
    ensures AccentKey(Some("")) == "indigo"
    ensures Settings.Coalesce(Some(""), "indigo") == ""
  {
  }

  // ---------------------------------------------------------------------------
  // Lookups

  const AccentTextMap: map<string, string> := map[
    "indigo" := "text-indigo-600 hover:text-indigo-700",
    "purple" := "text-purple-600 hover:text-purple-700",
    "pink" := "text-pink-600 hover:text-pink-700",
    "blue" := "text-blue-600 hover:text-blue-700",
    "green" := "text-green-600 hover:text-green-700",
    "orange" := "text-orange-600 hover:text-orange-700"]

  const AccentHoverBgMap: map<string, string> := map[
    "indigo" := "hover:bg-indigo-50",
    "purple" := "hover:bg-purple-50",
    "pink" := "hover:bg-pink-50",
    "blue" := "hover:bg-blue-50",
    "green" := "hover:bg-green-50",
    "orange" := "hover:bg-orange-50"]

  /** A gradient of accent `x` from stop `lo` to stop `hi`. */
  function Stops(x: string, lo: string, hi: string): string
  {
    "from-" + x + "-" + lo + " to-" + x + "-" + hi
  }

  /** The gradient, text and hover classes an accent word stands for. */
  function Gradient(x: string): string { Stops(x, "500", "600") }
  function TextClasses(x: string): string { "text-" + x + "-600 hover:text-" + x + "-700" }
  function HoverBg(x: string): string { "hover:bg-" + x + "-50" }

  /** The accent a lookup shows for `key`: the key itself when it is one of the
      six, indigo otherwise. */
  function Shown(key: string): (x: string)
    ensures x in AccentKeys
  {
    if key in AccentKeys then key else "indigo"
  }

  lemma GradientIndigo()
    ensures Gradient("indigo") == "from-indigo-500 to-indigo-600"
  {
  }

  lemma GradientPurple()
    ensures Gradient("purple") == "from-purple-500 to-purple-600"
  {
  }

  lemma GradientPink()
    ensures Gradient("pink") == "from-pink-500 to-pink-600"
  {
  }

  lemma GradientBlue()
    ensures Gradient("blue") == "from-blue-500 to-blue-600"
  {
  }

  lemma GradientGreen()
    ensures Gradient("green") == "from-green-500 to-green-600"
  {
  }

  lemma GradientOrange()
    ensures Gradient("orange") == "from-orange-500 to-orange-600"
  {
  }

  lemma TextClassesIndigo()
    ensures TextClasses("indigo") == "text-indigo-600 hover:text-indigo-700"
  {
  }

  lemma TextClassesPurple()
    ensures TextClasses("purple") == "text-purple-600 hover:text-purple-700"
  {
  }

  lemma TextClassesPink()
    ensures TextClasses("pink") == "text-pink-600 hover:text-pink-700"
  {
  }

  lemma TextClassesBlue()
    ensures TextClasses("blue") == "text-blue-600 hover:text-blue-700"
  {
  }

  lemma TextClassesGreen()
    ensures TextClasses("green") == "text-green-600 hover:text-green-700"
  {
  }

  lemma TextClassesOrange()
    ensures TextClasses("orange") == "text-orange-600 hover:text-orange-700"
  {
  }

  lemma HoverBgIndigo()
    ensures HoverBg("indigo") == "hover:bg-indigo-50"
  {
  }

  lemma HoverBgPurple()
    ensures HoverBg("purple") == "hover:bg-purple-50"
  {
  }

  lemma HoverBgPink()
    ensures HoverBg("pink") == "hover:bg-pink-50"
  {
  }

  lemma HoverBgBlue()
    ensures HoverBg("blue") == "hover:bg-blue-50"
  {
  }

  lemma HoverBgGreen()
    ensures HoverBg("green") == "hover:bg-green-50"
  {
  }

  lemma HoverBgOrange()
    ensures HoverBg("orange") == "hover:bg-orange-50"
  {
  }

  /** The accent gradients are keyed by exactly the six accents and follow one scheme. */
  lemma GradientScheme()
    ensures forall k :: k in Settings.AccentMap <==> k in AccentKeys
    ensures forall k :: k in Settings.AccentMap ==> Settings.AccentMap[k] == Gradient(k)
  {
    GradientIndigo();
    GradientPurple();
    GradientPink();
    GradientBlue();
    GradientGreen();
    GradientOrange();
  }

  /** The accent text classes are keyed by exactly the six accents and follow one scheme. */
  lemma TextClassesScheme()
    ensures forall k :: k in AccentTextMap <==> k in AccentKeys
    ensures forall k :: k in AccentTextMap ==> AccentTextMap[k] == TextClasses(k)
  {
    TextClassesIndigo();
    TextClassesPurple();
    TextClassesPink();
    TextClassesBlue();
    TextClassesGreen();
    TextClassesOrange();
  }

  /** The accent hover backgrounds are keyed by exactly the six accents and follow one scheme. */
  lemma HoverBgScheme()
    ensures forall k :: k in AccentHoverBgMap <==> k in AccentKeys
    ensures forall k :: k in AccentHoverBgMap ==> AccentHoverBgMap[k] == HoverBg(k)
  {
    HoverBgIndigo();
    HoverBgPurple();
    HoverBgPink();
    HoverBgBlue();
    HoverBgGreen();
    HoverBgOrange();
  }

  /** `getAccentClasses`, identical on both pages. */
  function GetAccentClasses(key: string): (r: string)
    ensures r == Gradient(Shown(key))
  {
    GradientScheme();
    Settings.GetAccentClasses(key)
  }

  function GetAccentTextClasses(key: string): (r: string)
    ensures r == TextClasses(Shown(key))
  {
    TextClassesScheme();
    Settings.LookupOr(AccentTextMap, key, "text-indigo-600 hover:text-indigo-700")
  }

  function GetAccentHoverBgClasses(key: string): (r: string)
    ensures r == HoverBg(Shown(key))
  {
    HoverBgScheme();
    Settings.LookupOr(AccentHoverBgMap, key, "hover:bg-indigo-50")
  }

  // ---------------------------------------------------------------------------
  // Derived classes

  /** No accent name holds a digit or a space. */
  lemma AccentWordsArePlain(x: string)
    requires x in AccentKeys
    ensures '5' !in x && '6' !in x && ' ' !in x
  {
  }

  /** Replacing the first "500" and then the first "600" of a gradient touches
      the start and the end colour stops, for any accent word without those
      digits. */
  lemma ReplaceStops(x: string, five: string, six: string)
    requires '5' !in x && '6' !in x
    requires '6' !in five
    ensures ReplaceFirst(ReplaceFirst(Gradient(x), "500", five), "600", six) == Stops(x, five, six)
  {
    var a := "from-" + x + "-";
    var b := " to-" + x + "-600";
    var c := "from-" + x + "-" + five + " to-" + x + "-";
    StopsAround(x, "500", "600", a, b);
    ReplaceAt(a, "500", b, five);
    StopsAround(x, five, "600", a, b);
    StopsBefore(x, five, "600", c);
    ReplaceAt(c, "600", [], six);
    StopsBefore(x, five, six, c);
  }

  /** A gradient around its first stop. */
  lemma StopsAround(x: string, lo: string, hi: string, a: string, b: string)
    requires '5' !in x
    requires a == "from-" + x + "-" && b == " to-" + x + "-" + hi
    ensures Stops(x, lo, hi) == a + lo + b
    ensures '5' !in a
  {
  }

  /** A gradient before its second stop. */
  lemma StopsBefore(x: string, lo: string, hi: string, c: string)
    requires '6' !in x && '6' !in lo
    requires c == "from-" + x + "-" + lo + " to-" + x + "-"
    ensures Stops(x, lo, "600") == c + "600" + []
    ensures Stops(x, lo, hi) == c + hi + []
    ensures '6' !in c
  {
  }

  /** `getAccentClasses(key).replace('500', lo).replace('600', hi)`: the accent
      gradient moved to lighter stops. The empty-state circle uses the 100 and
      200 stops, a hovered chat row the 50 and 100 stops. */
  function LightenedGradient(key: string, lo: string, hi: string): (r: string)
    requires '6' !in lo
    ensures r == Stops(Shown(key), lo, hi)
  {
    AccentWordsArePlain(Shown(key));
    ReplaceStops(Shown(key), lo, hi);
    ReplaceFirst(ReplaceFirst(GetAccentClasses(key), "500", lo), "600", hi)
  }

  /** The text classes of a space-free accent split at the space into the plain
      class and the hover class. */
  lemma SplitTextClasses(x: string)
    requires ' ' !in x
    ensures Split(TextClasses(x), ' ') == ["text-" + x + "-600", "hover:text-" + x + "-700"]
  {
    var parts := ["text-" + x + "-600", "hover:text-" + x + "-700"];
    assert Join(parts, ' ') == TextClasses(x);
    SplitJoin(parts, ' ');
  }

  /** `split(' ')[0]`: the icon colour. */
  function IconTextClass(key: string): (r: string)
    ensures r == "text-" + Shown(key) + "-600"
  {
    AccentWordsArePlain(Shown(key));
    SplitTextClasses(Shown(key));
    Split(GetAccentTextClasses(key), ' ')[0]
  }

  /** `split(' ')[1]`: the title colour of a hovered chat row. */
  function RowTitleHoverClass(key: string): (r: string)
    ensures r == "hover:text-" + Shown(key) + "-700"
  {
    AccentWordsArePlain(Shown(key));
    SplitTextClasses(Shown(key));
    Split(GetAccentTextClasses(key), ' ')[1]
  }

  // ---------------------------------------------------------------------------
  // Welcome name

  /** `userData?.name || user?.email?.split('@')[0]`: the stored name when it is
      not empty, otherwise the part of the email before its first '@' (all of
      it when there is none), and nothing when there is no email either. */
  function WelcomeName(name: Option<string>, email: Option<string>): (r: Option<string>)
    ensures name.Some? && name.value != "" ==> r == name
    ensures (name.None? || name.value == "") && email.None? ==> r.None?
    ensures (name.None? || name.value == "") && email.Some? ==>
              r.Some? && '@' !in r.value &&
              (r.value == email.value ||
               (|r.value| < |email.value| && email.value[..|r.value| + 1] == r.value + "@"))
  {
    if name.Some? && name.value != "" then name
    else if email.Some? then
      var parts := Split(email.value, '@');
      var p := CharIndex(email.value, '@');
      assert p < |email.value| ==> email.value[..p + 1] == email.value[..p] + "@";
      assert p == |email.value| ==> email.value[..p] == email.value;
      Some(parts[0])
    else None
  }
}
