/**
 * The theme step's translation table and its lookup `t(key)`, which falls
 * back to the key itself.
 */
module Translations {
  import opened JsValue

  /** `themeStepTranslations` */
  const Table: map<string, string> := map[
    "themeAndPolish" := "Theme & Polish",
    "presetThemes" := "Preset Themes",
    "livePreview" := "Live Preview",
    "advancedConfiguration" := "Advanced Configuration",
    "themeDescription" := "Pick a preset or fine-tune the colours, layout, and motion for your resume.",
    "presetDescription" := "Start from a curated look. You can still tweak settings afterwards.",
    "previewDescription" := "Preview updates instantly using your current selections.",
    "advancedDescription" := "Switch to the custom theme to unlock detailed colour, layout, and motion controls.",
    "coloursAndPalette" := "Colours & Palette",
    "backgroundOverlay" := "Background Overlay",
    "motionSettings" := "Motion Settings",
    "layoutPreferences" := "Layout Preferences",
    "featureFlags" := "Feature Flags",
    "heroContent" := "Hero Content",
    "coloursDescription" := "Customize your theme's colour palette and gradients.",
    "overlayDescription" := "Control overlay density, iconography, and animation for added depth.",
    "motionDescription" := "Fine-tune how cards and sections animate into view.",
    "layoutDescription" := "Control sidebar placement and which panels appear on your profile.",
    "featuresDescription" := "Configure theme toggles, automation, and export options.",
    "heroDescription" := "Update the primary text shown alongside your theme preview.",
    "hideAdvanced" := "Hide Advanced",
    "showAdvanced" := "Show Advanced",
    "useCustomTheme" := "Use Custom Theme",
    "light" := "Light",
    "dark" := "Dark",
    "greeting" := "Greeting",
    "headline" := "Headline",
    "subtitle" := "Subtitle",
    "summary" := "Summary",
    "greetingPlaceholder" := "Hello, I'm",
    "headlinePlaceholder" := "Ion Mindru",
    "subtitlePlaceholder" := "Full Stack Developer",
    "summaryPlaceholder" := "Share a quick summary...",
    "customThemeSettings" := "Custom Theme Settings",
    "customThemeDescription" := "Configure colors, layout, and advanced options for your custom theme."
  ]

  /** What `t` can return: a string, or something inherited from `Object.prototype`. */
  datatype Translation = Text(text: string) | Inherited(name: string)

  /**
   * `t(key)` as written: `themeStepTranslations[key] || key` also finds the
   * members every object inherits, so `t("toString")` is a function.
   */
  function TAsWritten(key: string): (r: Translation)
    ensures key in Table ==> r == Text(Table[key])
    ensures key !in Table && key in ObjectPrototypeMembers ==> r == Inherited(key)
    ensures key !in Table && key !in ObjectPrototypeMembers ==> r == Text(key)
  {
    if key in Table && Table[key] != "" then Text(Table[key])
    else if key in Table then Text(key)
    else if key in ObjectPrototypeMembers then Inherited(key)
    else Text(key)
  }

  /** The as-written lookup returns no text for an inherited member's name. */
  lemma TAsWrittenToString()
    ensures TAsWritten("toString").Inherited?
    ensures TAsWritten("constructor").Inherited?
  {
    ToStringNotListed();
    ConstructorNotListed();
  }

  lemma ToStringNotListed()
    ensures "toString" !in Table
  {
  }

  lemma ConstructorNotListed()
    ensures "constructor" !in Table
  {
  }

  /** `t(key)` reading only the table's own keys: the text for a listed key, the key itself otherwise. */
  function T(key: string): (r: string)
    ensures key in Table ==> r == Table[key]
    ensures key !in Table ==> r == key
  {
    if key in Table && Table[key] != "" then Table[key] else key
  }

  /** Both lookups agree on every key that is not an inherited member's name. */
  lemma TAgrees(key: string)
    requires key !in ObjectPrototypeMembers
    ensures TAsWritten(key) == Text(T(key))
  {
  }

  /** The mode labels the segmented control shows. */
  lemma ModeLabels()
    ensures T("light") == "Light" && T("dark") == "Dark"
  {
  }
}
