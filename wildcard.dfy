/**
  The window lookup of wildcard.py: the list of (handle, title) pairs that
  the window enumeration fills in, and the search for the first window whose
  title contains a given text, ignoring case.

  The desktop is the sequence of (handle, title) pairs the window
  enumeration reports, in its order; the enumeration itself is not part of
  this model.
 */
module Wildcard {
  import opened Common

  /** One window: its handle and its title. */
  type Window = (int, string)

  /** `str(part).upper() in str(title).upper()`. */
  predicate TitleMatches(w: Window, part: string)
  {
    Contains(UpperStr(w.1), UpperStr(part))
  }

  /**
    What `find_window(part)` returns for the windows `ws`: the handle of the
    first window whose title contains `part` regardless of case, None (the
    implicit return) when there is none.
   */
  function FirstMatch(ws: seq<Window>, part: string): (r: Option<int>)
    ensures r.None? <==> forall i :: 0 <= i < |ws| ==> !TitleMatches(ws[i], part)
    ensures r.Some? ==> exists i :: && 0 <= i < |ws| && ws[i].0 == r.value && TitleMatches(ws[i], part)
                                    && forall j :: 0 <= j < i ==> !TitleMatches(ws[j], part)
  {
    if ws == [] then None
    else if TitleMatches(ws[0], part) then Some(ws[0].0)
    else
      var r := FirstMatch(ws[1..], part);
      assert forall i :: 1 <= i < |ws| ==> ws[1..][i - 1] == ws[i];
      if r.Some? then
        var k :| && 0 <= k < |ws[1..]| && ws[1..][k].0 == r.value && TitleMatches(ws[1..][k], part)
                 && forall j :: 0 <= j < k ==> !TitleMatches(ws[1..][j], part);
        assert ws[k + 1] == ws[1..][k];
        assert forall j :: 1 <= j < k + 1 ==> ws[j] == ws[1..][j - 1];
        r
      else r
  }

  /** A window whose title has `part` written into it is found, unless an earlier title matches. */
  lemma FindsTitleContainingPart(ws: seq<Window>, part: string, i: nat, a: string, b: string)
    requires i < |ws| && ws[i].1 == a + part + b
    requires forall j :: 0 <= j < i ==> !TitleMatches(ws[j], part)
    ensures FirstMatch(ws, part) == Some(ws[i].0)
  {
    assert UpperStr(a + part + b) == UpperStr(a) + UpperStr(part) + UpperStr(b);
    ContainsInfix(UpperStr(a), UpperStr(part), UpperStr(b));
    FirstMatchAt(ws, part, i);
  }

  /** The first matching window is the one reported. */
  lemma {:induction false} FirstMatchAt(ws: seq<Window>, part: string, i: nat)
    requires i < |ws| && TitleMatches(ws[i], part)
    requires forall j :: 0 <= j < i ==> !TitleMatches(ws[j], part)
    ensures FirstMatch(ws, part) == Some(ws[i].0)
  {
    if i > 0 {
      assert forall j :: 0 <= j < i - 1 ==> ws[1..][j] == ws[j + 1];
      FirstMatchAt(ws[1..], part, i - 1);
    }
  }

  /** The search ignores case: lower- or upper-casing the text searched for changes nothing. */
  lemma {:induction false} FirstMatchIgnoresCase(ws: seq<Window>, part: string)
    ensures FirstMatch(ws, LowerStr(part)) == FirstMatch(ws, part)
    ensures FirstMatch(ws, UpperStr(part)) == FirstMatch(ws, part)
  {
    UpperOfLower(part);
    UpperIdempotent(part);
    if ws != [] {
      FirstMatchIgnoresCase(ws[1..], part);
    }
  }

  /** The empty text is contained in every title, so the first window is reported. */
  lemma EmptyTextFindsFirstWindow(ws: seq<Window>)
    requires ws != []
    ensures FirstMatch(ws, "") == Some(ws[0].0)
  {
    assert IsPrefix(UpperStr(""), UpperStr(ws[0].1));
  }

  /**
    The module-level list `window_titles` of wildcard.py. The functions of
    the file share it; here they are the methods of the one object that
    holds it.
   */
  class WindowRegistry {
    var windowTitles: seq<Window>

    constructor ()
      ensures windowTitles == []
    {
      windowTitles := [];
    }

    /** `windows_cback(hwnd, lParam)`: records one window and its title. */
    method WindowsCallback(hwnd: int, title: string)
      modifies this
      ensures windowTitles == old(windowTitles) + [(hwnd, title)]
    {
      windowTitles := windowTitles + [(hwnd, title)];
    }

    /**
      `refresh_window_titles()`: empties the list, then the enumeration calls
      back once per window of `desktop`; the list then holds the desktop.
     */
    method RefreshWindowTitles(desktop: seq<Window>) returns (titles: seq<Window>)
      modifies this
      ensures windowTitles == desktop && titles == desktop
    {
      windowTitles := [];
      for i := 0 to |desktop|
        invariant windowTitles == desktop[..i]
      {
        WindowsCallback(desktop[i].0, desktop[i].1);
        assert desktop[..i + 1] == desktop[..i] + [desktop[i]];
      }
      assert desktop[..|desktop|] == desktop;
      titles := windowTitles;
    }

    /**
      `find_window(part)`: refreshes the list, then returns the handle of the
      first window whose title contains `part`, ignoring case.
     */
    method FindWindow(part: string, desktop: seq<Window>) returns (r: Option<int>)
      modifies this
      ensures windowTitles == desktop
      ensures r == FirstMatch(desktop, part)
    {
      var titles := RefreshWindowTitles(desktop);
      for i := 0 to |titles|
        invariant forall j :: 0 <= j < i ==> !TitleMatches(titles[j], part)
      {
        if Contains(UpperStr(titles[i].1), UpperStr(part)) {
          FirstMatchAt(titles, part, i);
          return Some(titles[i].0);
        }
      }
      return None;
    }
  }
}
