/**
 * The application shell: the theme rule applied to the document body's
 * class list, loading the saved theme with its fallback, and changing
 * the theme. The OS colour-scheme preference and the presence of the
 * preload bridge are inputs.
 */
module App {
  import opened Js
  import opened Schema

  const DarkThemeClass: JsString := Literal("dark-theme")
  const NoBridgeError: JsString :=
    Literal("electronAPI is not available. This might be due to preload script not loading correctly.")
  const ThemeLoadErrorPrefix: JsString := Literal("テーマの設定の読み込みに失敗しました: ")

  /** What the shell does to the page and the outside world, in order. */
  datatype Event = Applied(theme: Theme) | SaveThemeCall(theme: Theme)

  // ---------------------------------------------------------------------
  // Class lists: `classList.add` and `classList.remove`

  /** `add`: appends the token unless it is already there. */
  function Added(tokens: seq<JsString>, token: JsString): (r: seq<JsString>)
    ensures token in r
    ensures forall t :: t != token ==> (t in r <==> t in tokens)
    ensures token in tokens ==> r == tokens
  {
    if token in tokens then tokens else tokens + [token]
  }

  /** `remove`: drops every occurrence of the token and keeps the others in order. */
  function Removed(tokens: seq<JsString>, token: JsString): (r: seq<JsString>)
    ensures token !in r
    ensures forall t :: t != token ==> (t in r <==> t in tokens)
    ensures |r| <= |tokens|
  {
    if tokens == [] then []
    else
      var rest := Removed(tokens[1..], token);
      assert forall t :: t in tokens <==> t == tokens[0] || t in tokens[1..];
      if tokens[0] == token then rest else [tokens[0]] + rest
  }

  /** Removing a token that is absent changes nothing. */
  lemma {:induction false} RemovedAbsent(tokens: seq<JsString>, token: JsString)
    requires token !in tokens
    ensures Removed(tokens, token) == tokens
  {
    if tokens != [] {
      assert token !in tokens[1..];
      RemovedAbsent(tokens[1..], token);
    }
  }

  // ---------------------------------------------------------------------
  // The theme rule

  /** Whether a theme shows dark: `dark`, or `system` when the OS prefers dark. */
  predicate WantsDark(theme: Theme, prefersDark: bool) {
    theme == Dark || (theme == System && prefersDark)
  }

  /** The class list after `applyTheme`. */
  function ThemedClasses(tokens: seq<JsString>, theme: Theme, prefersDark: bool): (r: seq<JsString>)
    ensures DarkThemeClass in r <==> WantsDark(theme, prefersDark)
    ensures forall t :: t != DarkThemeClass ==> (t in r <==> t in tokens)
  {
    if WantsDark(theme, prefersDark) then Added(tokens, DarkThemeClass) else Removed(tokens, DarkThemeClass)
  }

  /** Applying the same theme twice is applying it once. */
  lemma ThemedClassesIdempotent(tokens: seq<JsString>, theme: Theme, prefersDark: bool)
    ensures ThemedClasses(ThemedClasses(tokens, theme, prefersDark), theme, prefersDark)
         == ThemedClasses(tokens, theme, prefersDark)
  {
    if !WantsDark(theme, prefersDark) {
      RemovedAbsent(Removed(tokens, DarkThemeClass), DarkThemeClass);
    }
  }

  /** Only `light`, and `system` under a light OS preference, leave the class off. */
  lemma LightOnlyWhenAsked(tokens: seq<JsString>, theme: Theme, prefersDark: bool)
    ensures DarkThemeClass !in ThemedClasses(tokens, theme, prefersDark)
        <==> theme == Light || (theme == System && !prefersDark)
  {
  }

  /** The stored theme, or `system` when it is missing or empty. */
  function ThemeOrSystem(saved: Option<Theme>): (theme: Theme)
    ensures saved.Some? ==> theme == saved.value
    ensures saved.None? ==> theme == System
  {
    match saved
    case Some(t) => t
    case None => System
  }

  /** `document.body` as far as the theme rule touches it. */
  class DocumentBody {
    var classList: seq<JsString>

    constructor (classList: seq<JsString>)
      ensures this.classList == classList
    {
      this.classList := classList;
    }
  }

  class Shell {
    var theme: Theme
    var error: Option<JsString>
    const body: DocumentBody
    ghost var events: seq<Event>

    constructor (body: DocumentBody)
      ensures theme == System && error == None && this.body == body && events == []
    {
      theme := System;
      error := None;
      this.body := body;
      events := [];
    }

    /** `applyTheme`: adds or removes `dark-theme` and touches no other class. */
    method ApplyTheme(theme: Theme, prefersDark: bool)
      modifies body, this`events
      ensures body.classList == ThemedClasses(old(body.classList), theme, prefersDark)
      ensures events == old(events) + [Applied(theme)]
    {
      if WantsDark(theme, prefersDark) {
        body.classList := Added(body.classList, DarkThemeClass);
      } else {
        body.classList := Removed(body.classList, DarkThemeClass);
      }
      events := events + [Applied(theme)];
    }

    /**
     * `loadTheme`: without the bridge, an error and nothing else; otherwise
     * the saved theme, or `system`, becomes the state and is applied.
     */
    method LoadTheme(bridge: bool, saved: Settled<Option<Theme>>, prefersDark: bool)
      modifies this`theme, this`error, body, this`events
      ensures !bridge ==>
        && error == Some(NoBridgeError)
        && theme == old(theme)
        && body.classList == old(body.classList)
        && events == old(events)
      ensures bridge && saved.Fulfilled? ==>
        var t := ThemeOrSystem(saved.value);
        && theme == t
        && error == old(error)
        && body.classList == ThemedClasses(old(body.classList), t, prefersDark)
        && events == old(events) + [Applied(t)]
      ensures bridge && saved.Rejected? ==>
        && error == Some(ThemeLoadErrorPrefix + saved.reason)
        && theme == old(theme)
        && body.classList == old(body.classList)
        && events == old(events)
    {
      if !bridge {
        error := Some(NoBridgeError);
        return;
      }
      match saved {
        case Fulfilled(s) =>
          var t := ThemeOrSystem(s);
          theme := t;
          ApplyTheme(t, prefersDark);
        case Rejected(reason) =>
          error := Some(ThemeLoadErrorPrefix + reason);
      }
    }

    /** `handleThemeChange`: the state, then the body, then (with the bridge) the save call. */
    method HandleThemeChange(newTheme: Theme, bridge: bool, prefersDark: bool)
      modifies this`theme, body, this`events
      ensures theme == newTheme
      ensures body.classList == ThemedClasses(old(body.classList), newTheme, prefersDark)
      ensures events == old(events) + [Applied(newTheme)] + (if bridge then [SaveThemeCall(newTheme)] else [])
    {
      theme := newTheme;
      ApplyTheme(newTheme, prefersDark);
      if bridge {
        events := events + [SaveThemeCall(newTheme)];
      }
    }
  }
}
