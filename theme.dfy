// Theme variants of the dashboard: the cycle behind the `t` key, the mapping to and
// from the configuration file's theme names, and the names shown in the status line.

module Themes {

  /** The seven variants the dashboard can draw with; Catppuccin Mocha is the default. */
  datatype ThemeVariant = CatppuccinMocha | CatppuccinLatte | Dracula | Nord | TokyoNight | Gruvbox | Custom

  /** The theme names of the configuration file, one per variant. */
  datatype TuiTheme =
    | ConfigMocha | ConfigLatte | ConfigDracula | ConfigNord | ConfigTokyoNight | ConfigGruvbox | ConfigCustom

  const DefaultVariant: ThemeVariant := CatppuccinMocha

  /** The built-in variants, in cycling order. */
  const All: seq<ThemeVariant> := [CatppuccinMocha, CatppuccinLatte, Dracula, Nord, TokyoNight, Gruvbox]

  /** The variant after `v`; `customExists` says whether the custom theme file is present. */
  function Next(v: ThemeVariant, customExists: bool): ThemeVariant {
    match v
    case CatppuccinMocha => CatppuccinLatte
    case CatppuccinLatte => Dracula
    case Dracula => Nord
    case Nord => TokyoNight
    case TokyoNight => Gruvbox
    case Gruvbox => if customExists then Custom else CatppuccinMocha
    case Custom => CatppuccinMocha
  }

  function NextN(v: ThemeVariant, customExists: bool, n: nat): ThemeVariant
    decreases n
  {
    if n == 0 then v else NextN(Next(v, customExists), customExists, n - 1)
  }

  function FromConfigTheme(t: TuiTheme): ThemeVariant {
    match t
    case ConfigMocha => CatppuccinMocha
    case ConfigLatte => CatppuccinLatte
    case ConfigDracula => Dracula
    case ConfigNord => Nord
    case ConfigTokyoNight => TokyoNight
    case ConfigGruvbox => Gruvbox
    case ConfigCustom => Custom
  }

  function ToConfigTheme(v: ThemeVariant): TuiTheme {
    match v
    case CatppuccinMocha => ConfigMocha
    case CatppuccinLatte => ConfigLatte
    case Dracula => ConfigDracula
    case Nord => ConfigNord
    case TokyoNight => ConfigTokyoNight
    case Gruvbox => ConfigGruvbox
    case Custom => ConfigCustom
  }

  /** Position of a configured theme in the configuration menu's theme list. */
  function ThemeIndex(t: TuiTheme): nat {
    match t
    case ConfigMocha => 0
    case ConfigLatte => 1
    case ConfigDracula => 2
    case ConfigNord => 3
    case ConfigTokyoNight => 4
    case ConfigGruvbox => 5
    case ConfigCustom => 6
  }

  /** The configured theme at a menu position; positions past the list give the default. */
  function ThemeFromIndex(i: nat): TuiTheme {
    if i == 0 then ConfigMocha
    else if i == 1 then ConfigLatte
    else if i == 2 then ConfigDracula
    else if i == 3 then ConfigNord
    else if i == 4 then ConfigTokyoNight
    else if i == 5 then ConfigGruvbox
    else if i == 6 then ConfigCustom
    else ConfigMocha
  }

  function DisplayName(v: ThemeVariant): string {
    match v
    case CatppuccinMocha => "Catppuccin Mocha"
    case CatppuccinLatte => "Catppuccin Latte"
    case Dracula => "Dracula"
    case Nord => "Nord"
    case TokyoNight => "Tokyo Night"
    case Gruvbox => "Gruvbox"
    case Custom => "Custom"
  }

  /** Converting to the configuration's name and back gives the same variant, and the other way round. */
  lemma ConfigRoundTrip(v: ThemeVariant, t: TuiTheme)
    ensures FromConfigTheme(ToConfigTheme(v)) == v
    ensures ToConfigTheme(FromConfigTheme(t)) == t
  {
  }

  /** Menu positions and configured themes correspond one to one over positions 0 to 6. */
  lemma IndexRoundTrip(t: TuiTheme, i: nat)
    ensures ThemeIndex(t) < 7 && ThemeFromIndex(ThemeIndex(t)) == t
    ensures i < 7 ==> ThemeIndex(ThemeFromIndex(i)) == i
  {
  }

  /** The cycle visits the built-ins in the order of `All`, the custom variant comes only after
      Gruvbox and only when its file exists, and it is followed by Catppuccin Mocha again. */
  lemma NextFollowsAll(i: nat, customExists: bool)
    requires i < |All|
    ensures i + 1 < |All| ==> Next(All[i], customExists) == All[i + 1]
    ensures i + 1 == |All| ==> Next(All[i], customExists) == (if customExists then Custom else All[0])
    ensures Next(Custom, customExists) == All[0]
  {
  }

  /** The custom variant is reached from some variant iff the custom theme file exists. */
  lemma CustomReachedOnlyWithFile(v: ThemeVariant, customExists: bool)
    ensures Next(v, customExists) == Custom <==> v == Gruvbox && customExists
  {
  }

  /** Without the custom theme file, six steps bring every built-in back to itself and never
      leave the built-ins. */
  lemma {:induction false} CycleWithoutCustom(v: ThemeVariant, n: nat)
    requires v in All
    ensures NextN(v, false, n) in All
    ensures NextN(v, false, 6) == v
    decreases n
  {
    if n > 0 {
      CycleWithoutCustom(Next(v, false), n - 1);
    }
  }

  /** With the file present, seven steps bring every variant back to itself. */
  lemma CycleWithCustom(v: ThemeVariant)
    ensures NextN(v, true, 7) == v
  {
  }

  /** `All` holds the six built-ins, each once, and not the custom variant. */
  lemma AllBuiltIns(v: ThemeVariant)
    ensures v in All <==> v != Custom
    ensures |All| == 6 && forall i, j :: 0 <= i < j < |All| ==> All[i] != All[j]
  {
  }

  /** Distinct variants show distinct names. */
  lemma DisplayNamesDistinct(v: ThemeVariant, w: ThemeVariant)
    ensures DisplayName(v) == DisplayName(w) <==> v == w
  {
  }
}
