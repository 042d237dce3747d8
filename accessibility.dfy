/**
 * The accessibility settings provider: five settings with defaults, loaded
 * from a key-value store on mount and written back to it on every change,
 * and the high-contrast class on the document root.
 */
module Accessibility {
  import opened Wrappers

  datatype Settings = Settings(
    fontSize: string,
    highContrast: bool,
    voiceFeedback: bool,
    hapticFeedback: bool,
    gestureControl: bool)

  const Defaults := Settings("16", false, true, true, false)

  const FontSizeKey := "vission-font-size"
  const HighContrastKey := "vission-high-contrast"
  const VoiceFeedbackKey := "vission-voice-feedback"
  const HapticFeedbackKey := "vission-haptic-feedback"
  const GestureControlKey := "vission-gesture-control"
  const Keys := {FontSizeKey, HighContrastKey, VoiceFeedbackKey, HapticFeedbackKey, GestureControlKey}

  const OutsideProvider := "useAccessibility must be used within an AccessibilityProvider"

  /** `b.toString()`. */
  function BoolText(b: bool): string {
    if b then "true" else "false"
  }

  /** `stored === "true"`. */
  predicate ParseBool(s: string) {
    s == "true"
  }

  /** `localStorage.getItem(key)` is truthy: present and non-empty. */
  predicate Stored(store: map<string, string>, key: string) {
    key in store && store[key] != ""
  }

  /** The field value after the load effect: the stored value if truthy, the current one otherwise. */
  function LoadBool(store: map<string, string>, key: string, current: bool): bool {
    if Stored(store, key) then ParseBool(store[key]) else current
  }

  /** The load effect, applied to the current settings. */
  function Load(store: map<string, string>, current: Settings): Settings {
    Settings(
      if Stored(store, FontSizeKey) then store[FontSizeKey] else current.fontSize,
      LoadBool(store, HighContrastKey, current.highContrast),
      LoadBool(store, VoiceFeedbackKey, current.voiceFeedback),
      LoadBool(store, HapticFeedbackKey, current.hapticFeedback),
      LoadBool(store, GestureControlKey, current.gestureControl))
  }

  /** The save effect: all five settings written under their keys. */
  function Save(store: map<string, string>, s: Settings): map<string, string> {
    store[FontSizeKey := s.fontSize]
         [HighContrastKey := BoolText(s.highContrast)]
         [VoiceFeedbackKey := BoolText(s.voiceFeedback)]
         [HapticFeedbackKey := BoolText(s.hapticFeedback)]
         [GestureControlKey := BoolText(s.gestureControl)]
  }

  /** A boolean loads as true exactly when its stored text is "true"; any other non-empty text is false. */
  lemma LoadBoolMeaning(store: map<string, string>, key: string, current: bool)
    ensures Stored(store, key) ==> (LoadBool(store, key, current) <==> store[key] == "true")
    ensures !Stored(store, key) ==> LoadBool(store, key, current) == current
  {
  }

  /** Saving writes the five keys and leaves every other key alone. */
  lemma SaveFrame(store: map<string, string>, s: Settings)
    ensures Save(store, s).Keys == store.Keys + Keys
    ensures forall k :: k in store && k !in Keys ==> Save(store, s)[k] == store[k]
  {
  }

  /** Saving then loading gives back every setting, provided the font size is not empty. */
  lemma SaveLoadRoundTrip(store: map<string, string>, s: Settings, current: Settings)
    requires s.fontSize != ""
    ensures Load(Save(store, s), current) == s
  {
  }

  /** An empty font size is written but not read back: the current one survives. */
  lemma EmptyFontSizeNotLoaded(store: map<string, string>, s: Settings, current: Settings)
    requires s.fontSize == ""
    ensures Load(Save(store, s), current) == s.(fontSize := current.fontSize)
  {
  }

  /** A later save overwrites an earlier one completely. */
  lemma SaveOverwrites(store: map<string, string>, a: Settings, b: Settings)
    ensures Save(Save(store, a), b) == Save(store, b)
  {
    var m1, m2 := Save(Save(store, a), b), Save(store, b);
    SaveFrame(store, a);
    SaveFrame(Save(store, a), b);
    SaveFrame(store, b);
    assert m1.Keys == m2.Keys;
    forall k | k in m1
      ensures m1[k] == m2[k]
    {
      if k !in Keys {
        assert m1[k] == Save(store, a)[k] == store[k];
      }
    }
  }

  /** `useAccessibility`: the context inside a provider, the thrown error outside one. */
  function UseAccessibility(context: Option<Settings>): (r: Result<Settings, string>)
    ensures r.Failure? <==> context.None?
    ensures r.Failure? ==> r.error == OutsideProvider
    ensures r.Success? ==> r.value == context.value
  {
    match context
    case Some(s) => Success(s)
    case None => Failure(OutsideProvider)
  }

  class Provider {
    var fontSize: string
    var highContrast: bool
    var voiceFeedback: bool
    var hapticFeedback: bool
    var gestureControl: bool
    /** The browser's `localStorage`. */
    var store: map<string, string>
    /** The document root carries the "high-contrast-mode" class. */
    var highContrastClass: bool

    function Current(): Settings
      reads this
    {
      Settings(fontSize, highContrast, voiceFeedback, hapticFeedback, gestureControl)
    }

    /** The store holds the current settings and the document class follows `highContrast`. */
    ghost predicate Valid()
      reads this
    {
      store == Save(store, Current()) && highContrastClass == highContrast
    }

    /** The save effect with the document class update. */
    method Persist()
      modifies this`store, this`highContrastClass
      ensures store == Save(old(store), Current()) && highContrastClass == highContrast
      ensures Valid()
    {
      store := Save(store, Current());
      highContrastClass := highContrast;
      SaveOverwrites(old(store), Current(), Current());
    }

    /**
     * Mounting over `stored`: the load effect reads the stored values, the
     * first save writes the defaults, and the save after the loaded values
     * take effect writes those.
     */
    constructor (stored: map<string, string>, rootClass: bool)
      ensures Valid()
      ensures Current() == Load(stored, Defaults)
      ensures store == Save(stored, Current())
    {
      var loaded := Load(stored, Defaults);
      fontSize, highContrast, voiceFeedback, hapticFeedback, gestureControl :=
        Defaults.fontSize, Defaults.highContrast, Defaults.voiceFeedback, Defaults.hapticFeedback, Defaults.gestureControl;
      store := stored;
      highContrastClass := rootClass;
      new;
      Persist();
      fontSize, highContrast, voiceFeedback, hapticFeedback, gestureControl :=
        loaded.fontSize, loaded.highContrast, loaded.voiceFeedback, loaded.hapticFeedback, loaded.gestureControl;
      Persist();
      SaveOverwrites(stored, Defaults, loaded);
    }

    method SetFontSize(size: string)
      requires Valid()
      modifies this
      ensures Valid() && Current() == old(Current()).(fontSize := size)
      ensures store == Save(old(store), Current())
    {
      fontSize := size;
      Persist();
    }

    method SetHighContrast(enabled: bool)
      requires Valid()
      modifies this
      ensures Valid() && Current() == old(Current()).(highContrast := enabled)
      ensures store == Save(old(store), Current()) && highContrastClass == enabled
    {
      highContrast := enabled;
      Persist();
    }

    method SetVoiceFeedback(enabled: bool)
      requires Valid()
      modifies this
      ensures Valid() && Current() == old(Current()).(voiceFeedback := enabled)
      ensures store == Save(old(store), Current())
    {
      voiceFeedback := enabled;
      Persist();
    }

    method SetHapticFeedback(enabled: bool)
      requires Valid()
      modifies this
      ensures Valid() && Current() == old(Current()).(hapticFeedback := enabled)
      ensures store == Save(old(store), Current())
    {
      hapticFeedback := enabled;
      Persist();
    }

    method SetGestureControl(enabled: bool)
      requires Valid()
      modifies this
      ensures Valid() && Current() == old(Current()).(gestureControl := enabled)
      ensures store == Save(old(store), Current())
    {
      gestureControl := enabled;
      Persist();
    }
  }
}
