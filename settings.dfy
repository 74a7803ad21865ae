// The settings screens: the storage keys the accessibility and fantasy forms
// write and read, and the refresh-interval and roster-size validators.
// Local storage is a map from key to string.

module SettingsPage {
  import opened JsCore

  // ---------------------------------------------------------------- storage keys

  /** `key.replace(/([A-Z])/g, '-$1')`: a hyphen before each capital letter. */
  function Hyphenate(s: string): (r: string)
    ensures |r| >= |s|
    decreases |s|
  {
    if s == [] then []
    else (if IsUpperAscii(s[0]) then ['-', s[0]] else [s[0]]) + Hyphenate(s[1..])
  }

  /** The storage key a settings field is written under:
      `key.replace(/([A-Z])/g, '-$1').toLowerCase()`. */
  function StorageKey(field: string): (r: string)
    ensures NoUpper(r)
    ensures NoUpper(field) ==> r == field
  {
    PlainKeyUnchanged(field);
    ToLower(Hyphenate(field))
  }

  lemma PlainKeyUnchanged(field: string)
    ensures NoUpper(field) ==> ToLower(Hyphenate(field)) == field
  {
    if NoUpper(field) {
      HyphenatePlain(field);
      ToLowerPlain(field);
    }
  }

  /** A storage key has no capital letters, and one more character than the
      field name for each capital in it. */
  lemma StorageKeyShape(field: string)
    ensures NoUpper(StorageKey(field))
    ensures |StorageKey(field)| == |field| + CountWhere(field, IsUpperAscii)
  {
    HyphenateLength(field);
  }

  lemma {:induction false} HyphenateLength(s: string)
    ensures |Hyphenate(s)| == |s| + CountWhere(s, IsUpperAscii)
    decreases |s|
  {
    if s != [] {
      HyphenateLength(s[1..]);
    }
  }

  /** The fantasy form's keys carry a `fantasy-` prefix. */
  function FantasyKey(field: string): string
  {
    "fantasy-" + StorageKey(field)
  }

  predicate NoUpper(s: string)
  {
    forall i :: 0 <= i < |s| ==> !IsUpperAscii(s[i])
  }

  lemma {:induction false} HyphenateAppend(a: string, b: string)
    ensures Hyphenate(a + b) == Hyphenate(a) + Hyphenate(b)
    decreases |a|
  {
    if a != [] {
      assert (a + b)[1..] == a[1..] + b;
      HyphenateAppend(a[1..], b);
    } else {
      assert a + b == b;
    }
  }

  lemma {:induction false} HyphenatePlain(w: string)
    requires NoUpper(w)
    ensures Hyphenate(w) == w
    decreases |w|
  {
    if w != [] {
      HyphenatePlain(w[1..]);
    }
  }

  lemma ToLowerAppend(a: string, b: string)
    ensures ToLower(a + b) == ToLower(a) + ToLower(b)
  {
  }

  lemma ToLowerPlain(w: string)
    requires NoUpper(w)
    ensures ToLower(w) == w
  {
  }

  /** A camel-case name of lower-case words: each capital becomes a hyphen
      and the lower-case letter. */
  lemma {:induction false} TwoWordKey(a: string, c: char, b: string)
    requires NoUpper(a) && NoUpper(b) && IsUpperAscii(c)
    ensures StorageKey(a + [c] + b) == a + ['-', ToLowerChar(c)] + b
  {
    StorageKeyAppend(a + [c], b);
    StorageKeyAppend(a, [c]);
    StorageKeyPlain(a);
    StorageKeyPlain(b);
    StorageKeyCapital(c);
  }

  /** A name without capitals is its own key. */
  lemma StorageKeyPlain(w: string)
    requires NoUpper(w)
    ensures StorageKey(w) == w
  {
    HyphenatePlain(w);
    ToLowerPlain(w);
  }

  /** A capital letter becomes a hyphen and its lower-case letter. */
  lemma StorageKeyCapital(c: char)
    requires IsUpperAscii(c)
    ensures StorageKey([c]) == ['-', ToLowerChar(c)]
  {
    assert Hyphenate([c]) == ['-', c];
  }

  lemma {:induction false} ThreeWordKey(a: string, c: char, b: string, d: char, e: string)
    requires NoUpper(a) && NoUpper(b) && NoUpper(e) && IsUpperAscii(c) && IsUpperAscii(d)
    ensures StorageKey(a + [c] + b + [d] + e) == a + ['-', ToLowerChar(c)] + b + ['-', ToLowerChar(d)] + e
  {
    var p, q := a + [c] + b, [d] + e;
    StorageKeyAppend(p, q);
    TwoWordKey(a, c, b);
    TwoWordKey([], d, e);
    assert [] + [d] + e == q;
    var sq := ['-', ToLowerChar(d)] + e;
    assert [] + ['-', ToLowerChar(d)] + e == sq;
    assert a + [c] + b + [d] + e == p + q;
    assert (a + ['-', ToLowerChar(c)] + b) + sq == a + ['-', ToLowerChar(c)] + b + ['-', ToLowerChar(d)] + e;
  }

  /** The key of a concatenation is the concatenation of the keys. */
  lemma StorageKeyAppend(p: string, q: string)
    ensures StorageKey(p + q) == StorageKey(p) + StorageKey(q)
  {
    HyphenateAppend(p, q);
    ToLowerAppend(Hyphenate(p), Hyphenate(q));
  }

  /** The keys the two forms write for each of their fields. */
  lemma ReduceMotionKey()
    ensures StorageKey("reduceMotion") == "reduce-motion"
  {
    assert NoUpper("reduce") && NoUpper("otion") && ToLowerChar('M') == 'm';
    TwoWordKey("reduce", 'M', "otion");
    assert StorageKey("reduce" + ['M'] + "otion") == "reduce" + ['-', 'm'] + "otion";
    assert "reduce" + ['M'] + "otion" == "reduceMotion";
    assert "reduce" + ['-', 'm'] + "otion" == "reduce-motion";
  }

  lemma HighContrastKey()
    ensures StorageKey("highContrast") == "high-contrast"
  {
    assert NoUpper("high") && NoUpper("ontrast") && ToLowerChar('C') == 'c';
    TwoWordKey("high", 'C', "ontrast");
    assert StorageKey("high" + ['C'] + "ontrast") == "high" + ['-', 'c'] + "ontrast";
    assert "high" + ['C'] + "ontrast" == "highContrast";
    assert "high" + ['-', 'c'] + "ontrast" == "high-contrast";
  }

  lemma LargeTextKey()
    ensures StorageKey("largeText") == "large-text"
  {
    assert NoUpper("large") && NoUpper("ext") && ToLowerChar('T') == 't';
    TwoWordKey("large", 'T', "ext");
    assert StorageKey("large" + ['T'] + "ext") == "large" + ['-', 't'] + "ext";
    assert "large" + ['T'] + "ext" == "largeText";
    assert "large" + ['-', 't'] + "ext" == "large-text";
  }

  lemma ScreenReaderKey()
    ensures StorageKey("screenReaderOptimized") == "screen-reader-optimized"
  {
    assert NoUpper("screen") && NoUpper("eader") && NoUpper("ptimized");
    assert ToLowerChar('R') == 'r' && ToLowerChar('O') == 'o';
    ThreeWordKey("screen", 'R', "eader", 'O', "ptimized");
    ScreenReaderSpelling();
  }

  /** The two spellings of the screen-reader field, piece by piece. */
  lemma ScreenReaderSpelling()
    ensures "screen" + ['R'] + "eader" + ['O'] + "ptimized" == "screenReaderOptimized"
    ensures "screen" + ['-', 'r'] + "eader" + ['-', 'o'] + "ptimized" == "screen-reader-optimized"
  {
  }

  lemma KeyboardNavigationKey()
    ensures StorageKey("keyboardNavigation") == "keyboard-navigation"
  {
    assert NoUpper("keyboard") && NoUpper("avigation") && ToLowerChar('N') == 'n';
    TwoWordKey("keyboard", 'N', "avigation");
    assert StorageKey("keyboard" + ['N'] + "avigation") == "keyboard" + ['-', 'n'] + "avigation";
    assert "keyboard" + ['N'] + "avigation" == "keyboardNavigation";
    assert "keyboard" + ['-', 'n'] + "avigation" == "keyboard-navigation";
  }

  lemma AccessibilityKeyValues()
    ensures StorageKey("reduceMotion") == "reduce-motion"
    ensures StorageKey("highContrast") == "high-contrast"
    ensures StorageKey("largeText") == "large-text"
    ensures StorageKey("screenReaderOptimized") == "screen-reader-optimized"
    ensures StorageKey("keyboardNavigation") == "keyboard-navigation"
  {
    ReduceMotionKey();
    HighContrastKey();
    LargeTextKey();
    ScreenReaderKey();
    KeyboardNavigationKey();
  }

  lemma LeagueKey()
    ensures FantasyKey("league") == "fantasy-league"
  {
    assert NoUpper("league");
    HyphenatePlain("league");
    ToLowerPlain("league");
  }

  lemma ScoringSystemKey()
    ensures FantasyKey("scoringSystem") == "fantasy-scoring-system"
  {
    assert NoUpper("scoring") && NoUpper("ystem") && ToLowerChar('S') == 's';
    TwoWordKey("scoring", 'S', "ystem");
    assert StorageKey("scoring" + ['S'] + "ystem") == "scoring" + ['-', 's'] + "ystem";
    assert "scoring" + ['S'] + "ystem" == "scoringSystem";
    assert "fantasy-" + ("scoring" + ['-', 's'] + "ystem") == "fantasy-scoring-system";
  }

  lemma RosterSizeKey()
    ensures FantasyKey("rosterSize") == "fantasy-roster-size"
  {
    assert NoUpper("roster") && NoUpper("ize") && ToLowerChar('S') == 's';
    TwoWordKey("roster", 'S', "ize");
    assert StorageKey("roster" + ['S'] + "ize") == "roster" + ['-', 's'] + "ize";
    assert "roster" + ['S'] + "ize" == "rosterSize";
    assert "fantasy-" + ("roster" + ['-', 's'] + "ize") == "fantasy-roster-size";
  }

  lemma WaiversDayKey()
    ensures FantasyKey("waiversDay") == "fantasy-waivers-day"
  {
    assert NoUpper("waivers") && NoUpper("ay") && ToLowerChar('D') == 'd';
    TwoWordKey("waivers", 'D', "ay");
    assert StorageKey("waivers" + ['D'] + "ay") == "waivers" + ['-', 'd'] + "ay";
    assert "waivers" + ['D'] + "ay" == "waiversDay";
    assert "fantasy-" + ("waivers" + ['-', 'd'] + "ay") == "fantasy-waivers-day";
  }

  type Storage = map<string, string>

  /** `localStorage.getItem(key) === s`. */
  predicate StoredAs(store: Storage, key: string, s: string)
  {
    key in store && store[key] == s
  }

  /** `localStorage.getItem(key) || fallback`. */
  function StoredOr(store: Storage, key: string, fallback: string): string
  {
    if key in store && store[key] != "" then store[key] else fallback
  }

  function BoolText(b: bool): string
  {
    if b then "true" else "false"
  }

  // ---------------------------------------------------------------- accessibility form

  datatype AccessibilityPrefs = AccessibilityPrefs(reduceMotion: bool, highContrast: bool, largeText: bool,
                                                   screenReaderOptimized: bool, keyboardNavigation: bool)

  /** The storage key used for each accessibility field. */
  datatype AccessibilityKeys = AccessibilityKeys(reduceMotion: string, highContrast: string, largeText: string,
                                                 screenReaderOptimized: string, keyboardNavigation: string)

  predicate DistinctAccessibilityKeys(k: AccessibilityKeys)
  {
    && k.reduceMotion != k.highContrast && k.reduceMotion != k.largeText
    && k.reduceMotion != k.screenReaderOptimized && k.reduceMotion != k.keyboardNavigation
    && k.highContrast != k.largeText && k.highContrast != k.screenReaderOptimized
    && k.highContrast != k.keyboardNavigation && k.largeText != k.screenReaderOptimized
    && k.largeText != k.keyboardNavigation && k.screenReaderOptimized != k.keyboardNavigation
  }

  /** The keys the submit handler writes: each field name through `StorageKey`. */
  function WrittenAccessibilityKeys(): AccessibilityKeys
  {
    AccessibilityKeys(StorageKey("reduceMotion"), StorageKey("highContrast"), StorageKey("largeText"),
                      StorageKey("screenReaderOptimized"), StorageKey("keyboardNavigation"))
  }

  /** The keys the initial state reads. */
  const ReadAccessibilityKeys: AccessibilityKeys :=
    AccessibilityKeys("reduce-motion", "high-contrast", "large-text", "screenreader-optimized", "keyboard-navigation")

  lemma WrittenAccessibilityKeysValue()
    ensures WrittenAccessibilityKeys() ==
              AccessibilityKeys("reduce-motion", "high-contrast", "large-text", "screen-reader-optimized", "keyboard-navigation")
    ensures DistinctAccessibilityKeys(WrittenAccessibilityKeys())
  {
    AccessibilityKeyValues();
    assert "reduce-motion"[0] != "high-contrast"[0];
  }

  /** `String(value)` under each field's key. */
  function SaveAccessibilityAt(store: Storage, k: AccessibilityKeys, p: AccessibilityPrefs): Storage
  {
    store[k.reduceMotion := BoolText(p.reduceMotion)]
         [k.highContrast := BoolText(p.highContrast)]
         [k.largeText := BoolText(p.largeText)]
         [k.screenReaderOptimized := BoolText(p.screenReaderOptimized)]
         [k.keyboardNavigation := BoolText(p.keyboardNavigation)]
  }

  /** Every flag is false unless stored as 'true', except keyboard
      navigation, which is true unless stored as 'false'. */
  function LoadAccessibilityAt(store: Storage, k: AccessibilityKeys): (p: AccessibilityPrefs)
    ensures p.reduceMotion <==> StoredAs(store, k.reduceMotion, "true")
    ensures p.keyboardNavigation <==> !StoredAs(store, k.keyboardNavigation, "false")
    ensures store == map[] ==> p == AccessibilityPrefs(false, false, false, false, true)
  {
    AccessibilityPrefs(StoredAs(store, k.reduceMotion, "true"), StoredAs(store, k.highContrast, "true"),
                       StoredAs(store, k.largeText, "true"), StoredAs(store, k.screenReaderOptimized, "true"),
                       !StoredAs(store, k.keyboardNavigation, "false"))
  }

  /** Saving and loading under the same distinct keys gives the preferences back. */
  lemma AccessibilitySaveLoad(store: Storage, k: AccessibilityKeys, p: AccessibilityPrefs)
    requires DistinctAccessibilityKeys(k)
    ensures LoadAccessibilityAt(SaveAccessibilityAt(store, k, p), k) == p
  {
  }

  /** Reading under keys that agree with the written ones except for the
      screen-reader key, which nothing wrote, loses only that flag. */
  lemma AccessibilityLoadMismatched(store: Storage, k: AccessibilityKeys, read: AccessibilityKeys, p: AccessibilityPrefs)
    requires DistinctAccessibilityKeys(k)
    requires read == k.(screenReaderOptimized := read.screenReaderOptimized)
    requires read.screenReaderOptimized !in store
    requires read.screenReaderOptimized != k.reduceMotion && read.screenReaderOptimized != k.highContrast
    requires read.screenReaderOptimized != k.largeText && read.screenReaderOptimized != k.screenReaderOptimized
    requires read.screenReaderOptimized != k.keyboardNavigation
    ensures LoadAccessibilityAt(SaveAccessibilityAt(store, k, p), read) == p.(screenReaderOptimized := false)
  {
  }

  /** The submit handler's writes. */
  function SaveAccessibility(store: Storage, p: AccessibilityPrefs): Storage
  {
    SaveAccessibilityAt(store, WrittenAccessibilityKeys(), p)
  }

  /** The initial preferences as the source reads them. */
  function LoadAccessibility(store: Storage): (p: AccessibilityPrefs)
    ensures store == map[] ==> p == AccessibilityPrefs(false, false, false, false, true)
  {
    LoadAccessibilityAt(store, ReadAccessibilityKeys)
  }

  /** As written, a saved screen-reader preference is lost on reload: it is
      written under 'screen-reader-optimized' and read from
      'screenreader-optimized'. The other four fields read back. */
  lemma ScreenReaderFlagLost(store: Storage, p: AccessibilityPrefs)
    requires "screenreader-optimized" !in store
    ensures LoadAccessibility(SaveAccessibility(store, p)) == p.(screenReaderOptimized := false)
  {
    WrittenAccessibilityKeysValue();
    var k := WrittenAccessibilityKeys();
    assert |"screenreader-optimized"| != |"screen-reader-optimized"|;
    assert "screenreader-optimized"[0] != "reduce-motion"[0];
    assert "screenreader-optimized"[0] != "high-contrast"[0];
    assert "screenreader-optimized"[0] != "large-text"[0];
    assert "screenreader-optimized"[0] != "keyboard-navigation"[0];
    AccessibilityLoadMismatched(store, k, ReadAccessibilityKeys, p);
  }

  /** The corrected reader uses the written key for every field. */
  function LoadAccessibilityFixed(store: Storage): (p: AccessibilityPrefs)
    ensures store == map[] ==> p == AccessibilityPrefs(false, false, false, false, true)
  {
    LoadAccessibilityAt(store, WrittenAccessibilityKeys())
  }

  /** With the corrected reader, whatever is saved is read back. */
  lemma AccessibilityRoundTrip(store: Storage, p: AccessibilityPrefs)
    ensures LoadAccessibilityFixed(SaveAccessibility(store, p)) == p
  {
    WrittenAccessibilityKeysValue();
    AccessibilitySaveLoad(store, WrittenAccessibilityKeys(), p);
  }

  // ---------------------------------------------------------------- fantasy form

  datatype FantasyPrefs = FantasyPrefs(league: string, scoringSystem: string, rosterSize: string, waiversDay: string)

  datatype FantasyKeys = FantasyKeys(league: string, scoringSystem: string, rosterSize: string, waiversDay: string)

  predicate DistinctFantasyKeys(k: FantasyKeys)
  {
    && k.league != k.scoringSystem && k.league != k.rosterSize && k.league != k.waiversDay
    && k.scoringSystem != k.rosterSize && k.scoringSystem != k.waiversDay && k.rosterSize != k.waiversDay
  }

  function WrittenFantasyKeys(): FantasyKeys
  {
    FantasyKeys(FantasyKey("league"), FantasyKey("scoringSystem"), FantasyKey("rosterSize"), FantasyKey("waiversDay"))
  }

  const ReadFantasyKeys: FantasyKeys :=
    FantasyKeys("fantasy-league", "fantasy-scoring", "fantasy-roster-size", "fantasy-waivers-day")

  lemma WrittenFantasyKeysValue()
    ensures WrittenFantasyKeys() ==
              FantasyKeys("fantasy-league", "fantasy-scoring-system", "fantasy-roster-size", "fantasy-waivers-day")
  {
    LeagueKey();
    ScoringSystemKey();
    RosterSizeKey();
    WaiversDayKey();
  }

  lemma WrittenFantasyKeysDistinct()
    ensures DistinctFantasyKeys(FantasyKeys("fantasy-league", "fantasy-scoring-system", "fantasy-roster-size", "fantasy-waivers-day"))
  {
    assert "fantasy-league"[8] != "fantasy-scoring-system"[8];
    assert "fantasy-league"[8] != "fantasy-roster-size"[8];
    assert "fantasy-league"[8] != "fantasy-waivers-day"[8];
    assert "fantasy-scoring-system"[8] != "fantasy-roster-size"[8];
    assert "fantasy-scoring-system"[8] != "fantasy-waivers-day"[8];
    assert "fantasy-roster-size"[8] != "fantasy-waivers-day"[8];
  }

  function SaveFantasyAt(store: Storage, k: FantasyKeys, p: FantasyPrefs): Storage
  {
    store[k.league := p.league][k.scoringSystem := p.scoringSystem]
         [k.rosterSize := p.rosterSize][k.waiversDay := p.waiversDay]
  }

  /** Each setting is the stored text, or its default when none or empty is
      stored (`getItem(key) || default`). */
  function LoadFantasyAt(store: Storage, k: FantasyKeys): (p: FantasyPrefs)
    ensures store == map[] ==> p == FantasyPrefs("", "standard", "16", "wednesday")
  {
    FantasyPrefs(StoredOr(store, k.league, ""), StoredOr(store, k.scoringSystem, "standard"),
                 StoredOr(store, k.rosterSize, "16"), StoredOr(store, k.waiversDay, "wednesday"))
  }

  /** Saving and loading under the same distinct keys gives the settings
      back, except that an empty value reads as its default. */
  lemma FantasySaveLoad(store: Storage, k: FantasyKeys, p: FantasyPrefs)
    requires DistinctFantasyKeys(k)
    requires p.scoringSystem != "" && p.rosterSize != "" && p.waiversDay != ""
    ensures LoadFantasyAt(SaveFantasyAt(store, k, p), k) == p
  {
  }

  /** Reading the scoring system from a key nothing wrote gives the default. */
  lemma FantasyLoadMismatched(store: Storage, k: FantasyKeys, read: FantasyKeys, p: FantasyPrefs)
    requires read.scoringSystem !in store
    requires read.scoringSystem != k.league && read.scoringSystem != k.scoringSystem
    requires read.scoringSystem != k.rosterSize && read.scoringSystem != k.waiversDay
    ensures LoadFantasyAt(SaveFantasyAt(store, k, p), read).scoringSystem == "standard"
  {
  }

  function SaveFantasy(store: Storage, p: FantasyPrefs): Storage
  {
    SaveFantasyAt(store, WrittenFantasyKeys(), p)
  }

  function LoadFantasy(store: Storage): (p: FantasyPrefs)
    ensures store == map[] ==> p == FantasyPrefs("", "standard", "16", "wednesday")
  {
    LoadFantasyAt(store, ReadFantasyKeys)
  }

  /** As written, a saved scoring system is lost on reload: it is written
      under 'fantasy-scoring-system' and read from 'fantasy-scoring'. */
  lemma ScoringSystemLost(store: Storage, p: FantasyPrefs)
    requires "fantasy-scoring" !in store
    ensures LoadFantasy(SaveFantasy(store, p)).scoringSystem == "standard"
  {
    WrittenFantasyKeysValue();
    ScoringReadKeyUnwritten();
    FantasyLoadMismatched(store, WrittenFantasyKeys(), ReadFantasyKeys, p);
  }

  lemma ScoringReadKeyUnwritten()
    ensures "fantasy-scoring" != "fantasy-scoring-system" && "fantasy-scoring" != "fantasy-league"
    ensures "fantasy-scoring" != "fantasy-roster-size" && "fantasy-scoring" != "fantasy-waivers-day"
  {
    assert |"fantasy-scoring"| != |"fantasy-scoring-system"|;
    assert "fantasy-scoring"[8] != "fantasy-league"[8];
    assert "fantasy-scoring"[8] != "fantasy-roster-size"[8];
    assert "fantasy-scoring"[8] != "fantasy-waivers-day"[8];
  }

  function LoadFantasyFixed(store: Storage): (p: FantasyPrefs)
    ensures store == map[] ==> p == FantasyPrefs("", "standard", "16", "wednesday")
  {
    LoadFantasyAt(store, WrittenFantasyKeys())
  }

  lemma FantasyRoundTrip(store: Storage, p: FantasyPrefs)
    requires p.scoringSystem != "" && p.rosterSize != "" && p.waiversDay != ""
    ensures LoadFantasyFixed(SaveFantasy(store, p)) == p
  {
    WrittenFantasyKeysValue();
    WrittenFantasyKeysDistinct();
    FantasySaveLoad(store, WrittenFantasyKeys(), p);
  }

  // ---------------------------------------------------------------- validators

  /** The refresh-interval check: an error when `parseInt` gives NaN or a
      negative number. */
  function RefreshIntervalError(value: string): (r: Option<string>)
    ensures r.None? <==> ParseInt(value).Some? && ParseInt(value).value >= 0
    ensures r.Some? ==> r.value == "Please enter a valid refresh interval"
  {
    var num := ParseInt(value);
    if num.None? || num.value < 0 then Some("Please enter a valid refresh interval") else None
  }

  /** The roster-size check: an error unless the parsed number is 10 to 20. */
  function RosterSizeError(value: string): (r: Option<string>)
    ensures r.None? <==> ParseInt(value).Some? && 10 <= ParseInt(value).value <= 20
    ensures r.Some? ==> r.value == "Roster size must be between 10 and 20"
  {
    var num := ParseInt(value);
    if num.None? || num.value < 10 || num.value > 20 then Some("Roster size must be between 10 and 20") else None
  }

  /** Every refresh option offered passes the check, and so does any
      rendered natural number; a roster size passes exactly for 10 to 20. */
  lemma ValidatorsOnNumbers(n: nat)
    ensures RefreshIntervalError(NatToString(n)).None?
    ensures RosterSizeError(NatToString(n)).None? <==> 10 <= n <= 20
  {
    ParseIntOfNat(n);
  }
}
