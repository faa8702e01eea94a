/** The open-section state of the `Menu` component (src/components/menu/Menu.tsx): the
    toggle rule on mobile and desktop, the desktop default, the click-outside close, and the
    section chosen from the current path. */
module MenuModel {
  import opened Js

  const HomeSection: string := "fysp.dev"

  /** A top-level `MenuSection`: its `label` (here `title`) and optional `href`; the children only render. */
  datatype Section = Section(title: string, href: Option<string>)

  /** The `setOpenSection` updater of `handleToggle`. */
  function Toggled(isDesktop: bool, prev: Option<string>, name: string): (r: Option<string>)
  {
    if isDesktop then Some(name) else if prev == Some(name) then None else Some(name)
  }

  /** On desktop a toggle always opens the clicked section; on mobile it closes the open
      section and opens any other. */
  lemma ToggleRule(isDesktop: bool, prev: Option<string>, name: string)
    ensures isDesktop ==> Toggled(isDesktop, prev, name) == Some(name)
    ensures !isDesktop ==> (Toggled(isDesktop, prev, name) == None <==> prev == Some(name))
    ensures Toggled(isDesktop, prev, name).Some? ==> Toggled(isDesktop, prev, name) == Some(name)
  {
  }

  /** On mobile two toggles of the same section give back the start, when it was that
      section or nothing. */
  lemma MobileToggleTwice(prev: Option<string>, name: string)
    requires prev == None || prev == Some(name)
    ensures Toggled(false, Toggled(false, prev, name), name) == prev
  {
  }

  /** `path.split("/")` */
  function SplitSlash(path: string): (r: seq<string>)
    ensures |r| >= 1
    ensures forall i :: 0 <= i < |r| ==> '/' !in r[i]
    decreases |path|
  {
    if path == [] then [""]
    else if path[0] == '/' then [""] + SplitSlash(path[1..])
    else
      var rest := SplitSlash(path[1..]);
      [[path[0]] + rest[0]] + rest[1..]
  }

  /** `pieces.join("/")` */
  function JoinSlash(pieces: seq<string>): string
    requires |pieces| >= 1
    decreases |pieces|
  {
    if |pieces| == 1 then pieces[0] else pieces[0] + "/" + JoinSlash(pieces[1..])
  }

  /** Splitting on `/` loses nothing: joining the pieces gives the path back. */
  lemma {:induction false} SplitJoinRoundTrip(path: string)
    ensures JoinSlash(SplitSlash(path)) == path
    decreases |path|
  {
    if path != [] {
      SplitJoinRoundTrip(path[1..]);
      var rest := SplitSlash(path[1..]);
      if path[0] == '/' {
        assert path == "/" + path[1..];
      } else if |rest| == 1 {
        assert path == [path[0]] + path[1..];
      } else {
        assert ([[path[0]] + rest[0]] + rest[1..])[1..] == rest[1..];
        assert JoinSlash(rest) == rest[0] + "/" + JoinSlash(rest[1..]);
        assert path == [path[0]] + path[1..];
      }
    }
  }

  /** `.filter(Boolean)`: the non-empty pieces, in order. */
  function NonEmpty(pieces: seq<string>): (r: seq<string>)
    ensures forall i :: 0 <= i < |r| ==> r[i] != "" && r[i] in pieces
    ensures |r| <= |pieces|
  {
    if pieces == [] then []
    else (if pieces[0] != "" then [pieces[0]] else []) + NonEmpty(pieces[1..])
  }

  /** The segments of a path. */
  function Segments(path: string): (r: seq<string>)
    ensures forall i :: 0 <= i < |r| ==> r[i] != "" && '/' !in r[i]
  {
    NonEmpty(SplitSlash(path))
  }

  /** `sections.find((s) => s.href === target)?.label` */
  function FindByHref(sections: seq<Section>, target: string): (r: Option<string>)
    ensures r.None? <==> forall i :: 0 <= i < |sections| ==> sections[i].href != Some(target)
  {
    if sections == [] then None
    else if sections[0].href == Some(target) then Some(sections[0].title)
    else FindByHref(sections[1..], target)
  }

  /** The label found is that of the first section with the target `href`. */
  lemma {:induction false} FindByHrefFirst(sections: seq<Section>, target: string)
    ensures FindByHref(sections, target).Some? ==>
      exists i :: 0 <= i < |sections| && sections[i].href == Some(target)
        && FindByHref(sections, target).value == sections[i].title
        && forall j :: 0 <= j < i ==> sections[j].href != Some(target)
  {
    if sections != [] && sections[0].href != Some(target) {
      FindByHrefFirst(sections[1..], target);
      if FindByHref(sections, target).Some? {
        var i :| 0 <= i < |sections[1..]| && sections[1..][i].href == Some(target)
          && FindByHref(sections[1..], target).value == sections[1..][i].title
          && forall j :: 0 <= j < i ==> sections[1..][j].href != Some(target);
        assert sections[i + 1] == sections[1..][i];
        assert forall j :: 1 <= j < i + 1 ==> sections[j] == sections[1..][j - 1];
      }
    }
  }

  /** The section the path effect opens, if any: the first with `href` `/` and the first
      segment. */
  function SectionForPath(sections: seq<Section>, path: string): Option<string>
  {
    var segments := Segments(path);
    if |segments| == 0 then None else FindByHref(sections, "/" + segments[0])
  }

  /** The path effect on the `isDesktop` value it reads. */
  function PathEffect(isDesktopSeen: bool, sections: seq<Section>, path: string, open: Option<string>): Option<string>
  {
    if !isDesktopSeen then open
    else match SectionForPath(sections, path)
      case Some(name) => Some(name)
      case None => open
  }

  /** AS WRITTEN the effect is registered with no dependencies, so it runs once after the
      first render and reads that render's `isDesktop`, which the state initialiser made
      `false`: it returns at its guard whatever the viewport and the path. */
  lemma PathEffectNeverOpens(sections: seq<Section>, path: string, open: Option<string>)
    ensures PathEffect(false, sections, path, open) == open
  {
  }

  /** A concrete case: on a desktop viewport at `/a`, with a section whose `href` is `/a`,
      the menu keeps the home section open instead. */
  lemma PathEffectExample()
    ensures var sections := [Section(HomeSection, Some("/")), Section("a", Some("/a"))];
      && SectionForPath(sections, "/a") == Some("a")
      && PathEffect(false, sections, "/a", Some(HomeSection)) == Some(HomeSection)
  {
    var sections := [Section(HomeSection, Some("/")), Section("a", Some("/a"))];
    var pieces := SplitSlash("/a");
    assert "/a"[1..] == "a" && "a"[1..] == [] && "a"[0] != '/';
    var tail := SplitSlash([]);
    assert tail == [""];
    assert SplitSlash("a") == [['a'] + tail[0]] + tail[1..];
    assert ['a'] + tail[0] == "a";
    assert SplitSlash("a") == ["a"];
    assert pieces == ["", "a"];
    assert NonEmpty(pieces[1..]) == ["a"];
    assert Segments("/a") == ["a"];
    assert "/" + Segments("/a")[0] == "/a";
    assert sections[0].href != Some("/a");
    assert sections[1..][0].href == Some("/a");
    assert FindByHref(sections[1..], "/a") == Some("a");
    assert FindByHref(sections, "/a") == Some("a");
  }

  /** With the component's state, read when the viewport is known. */
  class MenuState {
    var isDesktop: bool
    var openSection: Option<string>

    /** `useState(false)` and `useState(isDesktop ? "fysp.dev" : null)` */
    constructor ()
      ensures !isDesktop && openSection == None
    {
      isDesktop := false;
      openSection := None;
    }

    /** `handleToggle(label)` */
    method Toggle(name: string)
      modifies this
      ensures openSection == Toggled(isDesktop, old(openSection), name)
      ensures isDesktop == old(isDesktop)
    {
      if isDesktop {
        openSection := Some(name);
      } else if openSection == Some(name) {
        openSection := None;
      } else {
        openSection := Some(name);
      }
    }

    /** `handleResize`, run at mount and on every change of the `(min-width: 768px)` query:
        entering desktop with nothing open opens the home section. */
    method Resize(matches: bool)
      modifies this
      ensures isDesktop == matches
      ensures openSection == if matches && old(openSection) == None then Some(HomeSection) else old(openSection)
    {
      isDesktop := matches;
      if matches && openSection == None {
        openSection := Some(HomeSection);
      }
    }

    /** `handleClickOutside`: on a mobile viewport a press outside the menu closes it. */
    method PressOutside(matches: bool, insideMenu: bool)
      modifies this
      ensures openSection == if !matches && !insideMenu then None else old(openSection)
      ensures isDesktop == old(isDesktop)
    {
      if !matches && !insideMenu {
        openSection := None;
      }
    }

    /** The path effect as intended: on desktop, the section of the first path segment
        opens; with no segment or no such section nothing changes. */
    method OpenForPath(sections: seq<Section>, path: string)
      modifies this
      ensures openSection == PathEffect(isDesktop, sections, path, old(openSection))
      ensures isDesktop == old(isDesktop)
    {
      if !isDesktop {
        return;
      }
      var segments := Segments(path);
      if |segments| > 0 {
        var found := FindByHref(sections, "/" + segments[0]);
        if found.Some? {
          openSection := found;
        }
      }
    }
  }

  /** On desktop, after the intended path effect, the open section is the path's when one
      matches, and otherwise the one open before. */
  lemma IntendedPathEffect(sections: seq<Section>, path: string, open: Option<string>)
    ensures SectionForPath(sections, path).Some? ==>
      PathEffect(true, sections, path, open) == SectionForPath(sections, path)
    ensures SectionForPath(sections, path).None? ==> PathEffect(true, sections, path, open) == open
  {
  }

  /** The first mount AS WRITTEN. Both effects run after the first render: the resize
      effect reads the media query itself, but the path effect, registered with no
      dependencies, runs once with the `isDesktop` of that first render, which is the
      constructor's. So the open section is the one the resize effect chose, whatever the
      path and the viewport. */
  method FirstMountAsWritten(sections: seq<Section>, path: string, matches: bool) returns (open: Option<string>)
    ensures open == (if matches then Some(HomeSection) else None)
  {
    var menu := new MenuState();
    var firstRender := menu.isDesktop;
    menu.Resize(matches);
    menu.openSection := PathEffect(firstRender, sections, path, menu.openSection);
    open := menu.openSection;
  }

  /** The first mount as intended: on desktop the path's section opens when one matches,
      and the home section otherwise; on mobile nothing is open. */
  method FirstMount(sections: seq<Section>, path: string, matches: bool) returns (open: Option<string>)
    ensures !matches ==> open == None
    ensures matches && SectionForPath(sections, path).Some? ==> open == SectionForPath(sections, path)
    ensures matches && SectionForPath(sections, path).None? ==> open == Some(HomeSection)
  {
    var menu := new MenuState();
    menu.Resize(matches);
    menu.OpenForPath(sections, path);
    open := menu.openSection;
  }
}
