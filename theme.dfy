// Theme resolution and toggling, the CSS variable table and the contrast
// colour helper. The system preference (from matchMedia) is a parameter and
// the document class-list effects are not modelled.

module Theme {
  import opened JsCore

  datatype ThemeChoice = Light | Dark | System

  /** A theme that can actually be shown. */
  type ResolvedTheme = t: ThemeChoice | t != System witness Light

  /** The resolved-theme effect: the system preference stands in for 'system'. */
  function Resolve(theme: ThemeChoice, systemTheme: ResolvedTheme): (r: ResolvedTheme)
    ensures theme == System ==> r == systemTheme
    ensures theme != System ==> r == theme
  {
    if theme == System then systemTheme else theme
  }

  function Opposite(t: ResolvedTheme): (r: ResolvedTheme)
    ensures r != t
  {
    if t == Dark then Light else Dark
  }

  /** `toggleTheme`: the new theme is the opposite of what is currently shown,
      and never 'system'. */
  function Toggle(theme: ThemeChoice, systemTheme: ResolvedTheme): (r: ThemeChoice)
    ensures r != System
    ensures r == Opposite(Resolve(theme, systemTheme))
  {
    if theme == System then (if systemTheme == Dark then Light else Dark)
    else (if theme == Dark then Light else Dark)
  }

  /** With the system preference fixed, toggling twice from an explicit theme
      returns to it; from 'system' it ends at the theme the system prefers. */
  lemma ToggleTwice(theme: ThemeChoice, systemTheme: ResolvedTheme)
    ensures theme != System ==> Toggle(Toggle(theme, systemTheme), systemTheme) == theme
    ensures theme == System ==> Toggle(Toggle(theme, systemTheme), systemTheme) == systemTheme
  {
  }

  const VariableNames: set<string> :=
    {"--color-primary", "--color-primary-foreground", "--color-secondary",
     "--color-secondary-foreground", "--color-background", "--color-foreground",
     "--color-muted", "--color-muted-foreground", "--color-border", "--color-input",
     "--color-ring"}

  /** `getThemeVariables`. */
  function ThemeVariables(t: ResolvedTheme): (m: map<string, string>)
    ensures m.Keys == VariableNames
    ensures m["--color-primary-foreground"] == "#FFFFFF"
  {
    var dark := t == Dark;
    map[
      "--color-primary" := if dark then "#3B82F6" else "#2563EB",
      "--color-primary-foreground" := if dark then "#FFFFFF" else "#FFFFFF",
      "--color-secondary" := if dark then "#374151" else "#F3F4F6",
      "--color-secondary-foreground" := if dark then "#F9FAFB" else "#111827",
      "--color-background" := if dark then "#111827" else "#FFFFFF",
      "--color-foreground" := if dark then "#F9FAFB" else "#111827",
      "--color-muted" := if dark then "#374151" else "#F3F4F6",
      "--color-muted-foreground" := if dark then "#9CA3AF" else "#6B7280",
      "--color-border" := if dark then "#374151" else "#E5E7EB",
      "--color-input" := if dark then "#374151" else "#FFFFFF",
      "--color-ring" := if dark then "#3B82F6" else "#2563EB"
    ]
  }

  /** Both themes define the same variables; background and foreground swap
      roles between them. */
  lemma ThemeVariablesAgree()
    ensures ThemeVariables(Dark).Keys == ThemeVariables(Light).Keys
    ensures ThemeVariables(Dark)["--color-background"] == ThemeVariables(Light)["--color-foreground"]
    ensures ThemeVariables(Dark)["--color-primary"] != ThemeVariables(Light)["--color-primary"]
  {
  }

  predicate IsDarkBackground(backgroundColor: string)
  {
    Contains(backgroundColor, "gray-") || Contains(backgroundColor, "black")
  }

  /** `themeUtils.getContrastColor`. */
  function ContrastColor(backgroundColor: string, t: ResolvedTheme): (r: string)
    ensures !IsDarkBackground(backgroundColor) ==> r == "text-gray-900"
    ensures IsDarkBackground(backgroundColor) ==> r == (if t == Dark then "text-gray-100" else "text-white")
  {
    var isDark := IsDarkBackground(backgroundColor);
    if t == Dark then (if isDark then "text-gray-100" else "text-gray-900")
    else (if isDark then "text-white" else "text-gray-900")
  }

  /** A gray utility class is dark; so is any class naming black. */
  lemma ContrastExamples()
    ensures ContrastColor("bg-gray-800", Dark) == "text-gray-100"
    ensures ContrastColor("bg-black", Light) == "text-white"
  {
    assert OccursAt("bg-gray-800", "gray-", 3);
    assert OccursAt("bg-black", "black", 3);
  }
}
