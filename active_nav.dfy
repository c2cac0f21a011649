/** The scroll handler that marks the navigation link of the section being
    read: the last section whose top, less a 200 pixel margin, has been
    scrolled past wins, and exactly the links pointing at it become active. */
module ActiveNav {

  /** A `section[id]` element: its id and its offset from the top of the page. */
  datatype Section = Section(id: string, offsetTop: int)

  /** A `.nav-link` element: its `href` and its class list. */
  datatype NavLink = NavLink(href: string, classes: set<string>)

  /** A section counts as reached this many pixels before its top. */
  const ActivationMargin: int := 200

  const ActiveClass: string := "active"

  predicate Reached(s: Section, scrollY: real)
  {
    scrollY >= (s.offsetTop - ActivationMargin) as real
  }

  /** The id the loop over the sections ends with: that of the last reached
      section, or the empty string when none is reached. */
  function CurrentId(sections: seq<Section>, scrollY: real): string
  {
    if sections == [] then ""
    else if Reached(sections[|sections| - 1], scrollY) then sections[|sections| - 1].id
    else CurrentId(sections[..|sections| - 1], scrollY)
  }

  /** Section k is reached and no later section is. */
  predicate LastReachedAt(sections: seq<Section>, scrollY: real, k: int)
  {
    0 <= k < |sections| && Reached(sections[k], scrollY) &&
    forall m :: k < m < |sections| ==> !Reached(sections[m], scrollY)
  }

  /** CurrentId is the id of the last reached section in document order,
      whatever the order of the offsets. */
  lemma {:induction false} CurrentIdIsLastReached(sections: seq<Section>, scrollY: real, k: int)
    requires LastReachedAt(sections, scrollY, k)
    ensures CurrentId(sections, scrollY) == sections[k].id
  {
    var n := |sections|;
    if k < n - 1 {
      var init := sections[..n - 1];
      assert !Reached(sections[n - 1], scrollY);
      assert LastReachedAt(init, scrollY, k);
      CurrentIdIsLastReached(init, scrollY, k);
    }
  }

  /** With no section reached, no id is current. */
  lemma {:induction false} CurrentIdWhenNoneReached(sections: seq<Section>, scrollY: real)
    requires forall k :: 0 <= k < |sections| ==> !Reached(sections[k], scrollY)
    ensures CurrentId(sections, scrollY) == ""
  {
    if sections != [] {
      var init := sections[..|sections| - 1];
      assert forall k :: 0 <= k < |init| ==> init[k] == sections[k];
      CurrentIdWhenNoneReached(init, scrollY);
    }
  }

  /** The first half of the handler: the loop that reassigns `current`. */
  method CurrentSection(sections: seq<Section>, scrollY: real) returns (current: string)
    ensures current == CurrentId(sections, scrollY)
  {
    current := "";
    for i := 0 to |sections|
      invariant current == CurrentId(sections[..i], scrollY)
    {
      if scrollY >= (sections[i].offsetTop - ActivationMargin) as real {
        current := sections[i].id;
      }
      assert sections[..i + 1][..i] == sections[..i];
    }
    assert sections[..|sections|] == sections;
  }

  /** The class list of a link after the handler: `active` removed, then
      added back when the link points at the current section. */
  function Highlight(link: NavLink, current: string): NavLink
  {
    var cleared := link.classes - {ActiveClass};
    link.(classes := if link.href == "#" + current then cleared + {ActiveClass} else cleared)
  }

  /** The second half of the handler: each link loses `active`, and the ones
      whose href is "#" followed by the current id get it back. */
  method HighlightLinks(links: array<NavLink>, current: string)
    modifies links
    ensures forall k :: 0 <= k < links.Length ==> links[k] == Highlight(old(links[k]), current)
    ensures forall k :: 0 <= k < links.Length ==> links[k].href == old(links[k].href)
    ensures forall k :: 0 <= k < links.Length ==>
      (ActiveClass in links[k].classes <==> links[k].href == "#" + current)
    ensures forall k :: 0 <= k < links.Length ==>
      links[k].classes - {ActiveClass} == old(links[k].classes) - {ActiveClass}
  {
    for i := 0 to links.Length
      invariant forall k :: 0 <= k < i ==> links[k] == Highlight(old(links[k]), current)
      invariant forall k :: i <= k < links.Length ==> links[k] == old(links[k])
    {
      var link := links[i];
      var classes := link.classes - {ActiveClass};
      if link.href == "#" + current {
        classes := classes + {ActiveClass};
      }
      links[i] := link.(classes := classes);
    }
  }

  /** The whole scroll handler. */
  method OnScroll(sections: seq<Section>, links: array<NavLink>, scrollY: real)
    modifies links
    ensures forall k :: 0 <= k < links.Length ==>
      links[k] == Highlight(old(links[k]), CurrentId(sections, scrollY))
    ensures forall k :: 0 <= k < links.Length ==>
      (ActiveClass in links[k].classes <==> links[k].href == "#" + CurrentId(sections, scrollY))
  {
    var current := CurrentSection(sections, scrollY);
    HighlightLinks(links, current);
  }

  /** Above every section, no id is current and the link whose href is the
      bare "#" is the one marked active. */
  lemma TopOfPageMarksBareHash(sections: seq<Section>, scrollY: real, link: NavLink)
    requires forall k :: 0 <= k < |sections| ==> !Reached(sections[k], scrollY)
    ensures ActiveClass in Highlight(link, CurrentId(sections, scrollY)).classes <==> link.href == "#"
  {
    CurrentIdWhenNoneReached(sections, scrollY);
  }
}
