/**
 * The persisted settings document: its fields, their defaults, and the
 * enumeration the `theme` field is validated against.
 */
module Schema {
  import opened Js

  /** The proxy settings as stored and as sent by the settings form. */
  datatype ProxyConfig = ProxyConfig(
    enabled: bool,
    host: JsString,
    port: int,
    username: JsString,
    password: JsString)

  datatype Theme = Light | Dark | System

  const DefaultPort: int := 8080

  const DefaultProxyConfig: ProxyConfig := ProxyConfig(false, [], DefaultPort, [], [])

  const DefaultTheme: Theme := System

  /** The string under which a theme is stored and exchanged. */
  function ThemeName(t: Theme): (name: JsString)
    ensures t == Light ==> name == Literal("light")
    ensures t == Dark ==> name == Literal("dark")
    ensures t == System ==> name == Literal("system")
    ensures |name| == match t case Light => 5 case Dark => 4 case System => 6
  {
    var s := match t case Light => "light" case Dark => "dark" case System => "system";
    Literal(s)
  }

  /** The schema's enum check: which theme, if any, a stored string names. */
  function ParseTheme(name: JsString): (t: Option<Theme>)
    ensures t.Some? ==> ThemeName(t.value) == name
  {
    if name == ThemeName(Light) then Some(Light)
    else if name == ThemeName(Dark) then Some(Dark)
    else if name == ThemeName(System) then Some(System)
    else None
  }

  /** Every theme's name passes the enum check and names that theme, and nothing else does. */
  lemma ParseThemeName(t: Theme, name: JsString)
    ensures ParseTheme(ThemeName(t)) == Some(t)
    ensures ParseTheme(name) == Some(t) <==> name == ThemeName(t)
  {
  }
}
