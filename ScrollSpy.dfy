// The scroll handler that highlights the navigation link of the section being read.
// The DOM is reduced to what the handler reads: each section's top offset and id
// attribute, each navigation item's href attribute, and the page's scroll offset.

module ScrollSpy {

  /** An attribute value; `getAttribute` gives `null` (here `None`) when it is absent. */
  datatype Option<T> = None | Some(value: T)

  /** What the handler reads of one section. */
  datatype Section = Section(offsetTop: real, id: Option<string>)

  /** A section counts as reached this many pixels before its top scrolls past. */
  const ActivationMargin: real := 200.0

  predicate Reached(s: Section, pageYOffset: real)
  {
    pageYOffset >= s.offsetTop - ActivationMargin
  }

  /** The index of the last reached section, if any. */
  function LastReached(sections: seq<Section>, pageYOffset: real): (k: Option<nat>)
    ensures k.Some? ==> k.value < |sections| && Reached(sections[k.value], pageYOffset)
    ensures k.Some? ==> forall j :: k.value < j < |sections| ==> !Reached(sections[j], pageYOffset)
    ensures k.None? <==> forall j :: 0 <= j < |sections| ==> !Reached(sections[j], pageYOffset)
  {
    if |sections| == 0 then None
    else if Reached(sections[|sections| - 1], pageYOffset) then Some(|sections| - 1)
    else LastReached(sections[..|sections| - 1], pageYOffset)
  }

  /** The id the handler settles on: the last reached section's, or the empty string when none is reached. */
  function Selected(sections: seq<Section>, pageYOffset: real): Option<string>
  {
    match LastReached(sections, pageYOffset)
    case None => Some("")
    case Some(k) => sections[k].id
  }

  /** The href that marks the active link: `#` and the id, where a missing id prints as `null`. */
  function Anchor(current: Option<string>): string
  {
    "#" + match current { case None => "null" case Some(id) => id }
  }

  /** The `sections.forEach` of the handler: overwrite `current` with every reached section's id. */
  method CurrentSection(sections: seq<Section>, pageYOffset: real) returns (current: Option<string>)
    ensures current == Selected(sections, pageYOffset)
  {
    current := Some("");
    for i := 0 to |sections|
      invariant current == Selected(sections[..i], pageYOffset)
    {
      assert sections[..i + 1][..i] == sections[..i];
      if pageYOffset >= sections[i].offsetTop - ActivationMargin {
        current := sections[i].id;
      }
    }
    assert sections[..|sections|] == sections;
  }

  /** The `navItems.forEach` of the handler: each item is active exactly when its href is the anchor. */
  method MarkActive(hrefs: seq<Option<string>>, current: Option<string>) returns (active: seq<bool>)
    ensures |active| == |hrefs|
    ensures forall i :: 0 <= i < |hrefs| ==> (active[i] <==> hrefs[i] == Some(Anchor(current)))
  {
    var anchor := Anchor(current);
    active := [];
    for i := 0 to |hrefs|
      invariant |active| == i
      invariant forall j :: 0 <= j < i ==> (active[j] <==> hrefs[j] == Some(anchor))
    {
      var isActive := false;
      if hrefs[i] == Some(anchor) {
        isActive := true;
      }
      active := active + [isActive];
    }
  }

  /** The whole scroll handler: which navigation items carry the `active` class afterwards. */
  method OnScroll(sections: seq<Section>, hrefs: seq<Option<string>>, pageYOffset: real) returns (active: seq<bool>)
    ensures |active| == |hrefs|
    ensures forall i :: 0 <= i < |hrefs| ==>
      (active[i] <==> hrefs[i] == Some(Anchor(Selected(sections, pageYOffset))))
  {
    var current := CurrentSection(sections, pageYOffset);
    active := MarkActive(hrefs, current);
  }

  /** `None` before every index. */
  function Rank(k: Option<nat>): int
  {
    match k case None => -1 case Some(i) => i
  }

  /** Scrolling further down never selects an earlier section. */
  lemma {:induction false} ScrollMonotone(sections: seq<Section>, lower: real, upper: real)
    requires lower <= upper
    ensures Rank(LastReached(sections, lower)) <= Rank(LastReached(sections, upper))
  {
    if |sections| > 0 && !Reached(sections[|sections| - 1], upper) {
      ScrollMonotone(sections[..|sections| - 1], lower, upper);
    }
  }

  predicate TopsAscending(sections: seq<Section>)
  {
    forall i, j :: 0 <= i < j < |sections| ==> sections[i].offsetTop <= sections[j].offsetTop
  }

  /**
   * With sections in page order, the reached ones are exactly those up to the
   * selected one, so the selected section is the lowest one reached.
   */
  lemma ReachedPrefix(sections: seq<Section>, pageYOffset: real)
    requires TopsAscending(sections)
    ensures forall j :: 0 <= j < |sections| ==>
      (Reached(sections[j], pageYOffset) <==> j <= Rank(LastReached(sections, pageYOffset)))
  {
    var k := LastReached(sections, pageYOffset);
    if k.Some? {
      forall j | 0 <= j <= k.value
        ensures Reached(sections[j], pageYOffset)
      {
        assert sections[j].offsetTop <= sections[k.value].offsetTop;
      }
    }
  }

  /** With distinct hrefs, at most one navigation item is active. */
  lemma AtMostOneActive(hrefs: seq<Option<string>>, current: Option<string>, i: nat, j: nat)
    requires forall a, b :: 0 <= a < b < |hrefs| ==> hrefs[a] != hrefs[b]
    requires i < |hrefs| && j < |hrefs|
    requires hrefs[i] == Some(Anchor(current)) && hrefs[j] == Some(Anchor(current))
    ensures i == j
  {
  }
}
