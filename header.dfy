/** The landing page's navigation bar: its background after scrolling, the section link it
    highlights, and the mobile drop-down menu. */
module Header {
  import opened JsRuntime

  /** A `section[id]` element and its bounding box, in whole pixels from the viewport top. */
  datatype Section = Section(id: string, top: int, bottom: int)

  /** The viewport line a section must straddle to count as the current one. */
  const Probe := 150

  predicate Straddles(s: Section) {
    s.top <= Probe && s.bottom >= Probe
  }

  /** The section id the scroll handler settles on: the last section in document order that
      straddles the probe line, or "home" when none does. */
  function ActiveSection(sections: seq<Section>): (r: string)
    ensures r == "home" || exists i :: 0 <= i < |sections| && sections[i].id == r
  {
    if sections == [] then "home"
    else if Straddles(sections[|sections| - 1]) then sections[|sections| - 1].id
    else ActiveSection(sections[..|sections| - 1])
  }

  /** `ActiveSection` as a statement about positions: with no straddling section it is
      "home", and otherwise it is the id of a straddling section with none after it. */
  lemma {:induction false} ActiveSectionIsLastStraddling(sections: seq<Section>)
    ensures (forall i :: 0 <= i < |sections| ==> !Straddles(sections[i])) ==> ActiveSection(sections) == "home"
    ensures (exists i :: 0 <= i < |sections| && Straddles(sections[i])) ==>
      exists i :: 0 <= i < |sections| && Straddles(sections[i]) && sections[i].id == ActiveSection(sections)
        && forall j :: i < j < |sections| ==> !Straddles(sections[j])
  {
    if sections != [] {
      var init := sections[..|sections| - 1];
      ActiveSectionIsLastStraddling(init);
      if !Straddles(sections[|sections| - 1]) {
        if exists i :: 0 <= i < |sections| && Straddles(sections[i]) {
          var k :| 0 <= k < |sections| && Straddles(sections[k]);
          assert init[k] == sections[k];
          var i :| 0 <= i < |init| && Straddles(init[i]) && init[i].id == ActiveSection(init)
            && forall j :: i < j < |init| ==> !Straddles(init[j]);
          assert sections[i] == init[i];
          forall j | i < j < |sections| ensures !Straddles(sections[j]) {
            if j < |init| {
              assert sections[j] == init[j];
            }
          }
        }
        forall i | 0 <= i < |init| ensures init[i] == sections[i] {
        }
      }
    }
  }

  /** A link of the bar: its `href` and its caption. */
  datatype Link = Link(href: string, caption: string)

  const Links: seq<Link> := [
    Link("#home", "Home"), Link("#about", "About"), Link("#menu", "Menu"),
    Link("#event", "Events"), Link("#testmonial", "Testimonials"), Link("#contact", "Contact")]

  /** The section a link names: its `href` with the first '#' removed. */
  function LinkTarget(href: string): (r: string)
    ensures |href| > 0 && href[0] == '#' ==> r == href[1..]
  {
    RemoveFirst(href, '#')
  }

  class NavBar {
    var scrolled: bool
    var menuOpen: bool
    var activeSection: string

    constructor ()
      ensures !scrolled && !menuOpen && activeSection == "home"
    {
      scrolled := false;
      menuOpen := false;
      activeSection := "home";
    }

    /** `handleScroll`: the bar turns solid past 50 pixels, and the sections are scanned in
        document order, each straddling one overwriting the candidate. */
    method HandleScroll(scrollY: int, sections: seq<Section>)
      modifies this`scrolled, this`activeSection
      ensures scrolled <==> scrollY > 50
      ensures activeSection == ActiveSection(sections)
    {
      scrolled := scrollY > 50;
      var current := "home";
      var k := 0;
      while k < |sections|
        invariant 0 <= k <= |sections|
        invariant current == ActiveSection(sections[..k])
      {
        assert sections[..k + 1][..k] == sections[..k];
        if Straddles(sections[k]) {
          current := sections[k].id;
        }
        k := k + 1;
      }
      assert sections[..k] == sections;
      activeSection := current;
    }

    /** Whether the link with `href` is drawn as the current one. */
    predicate IsHighlighted(href: string)
      reads this
      ensures '#' !in href ==> (IsHighlighted(href) <==> activeSection == href)
      ensures |href| > 0 && href[0] == '#' ==> (IsHighlighted(href) <==> activeSection == href[1..])
    {
      activeSection == LinkTarget(href)
    }

    /** A click on a desktop link. */
    method ClickLink(href: string)
      modifies this`activeSection
      ensures activeSection == LinkTarget(href)
      ensures IsHighlighted(href)
    {
      activeSection := RemoveFirst(href, '#');
    }

    /** A click on a link of the drop-down: it also closes the menu. */
    method ClickMobileLink(href: string)
      modifies this`activeSection, this`menuOpen
      ensures activeSection == LinkTarget(href) && !menuOpen
    {
      activeSection := RemoveFirst(href, '#');
      menuOpen := false;
    }

    /** The burger button. */
    method OpenMenu()
      modifies this`menuOpen
      ensures menuOpen
    {
      menuOpen := true;
    }

    /** The overlay and the X button. */
    method CloseMenu()
      modifies this`menuOpen
      ensures !menuOpen
    {
      menuOpen := false;
    }
  }

  /** The six links name six different sections, so after a click exactly the clicked link
      is highlighted. */
  lemma LinkTargetsDistinct(i: nat, j: nat)
    requires i < |Links| && j < |Links| && i != j
    ensures LinkTarget(Links[i].href) != LinkTarget(Links[j].href)
  {
    var a, b := Links[i].href, Links[j].href;
    assert a[0] == '#' && b[0] == '#';
    assert a != b;
    assert a == [a[0]] + a[1..] && b == [b[0]] + b[1..];
  }
}
