/**
 * The fleet view: the list of packages, the one `showOnlyVulnerable` flag,
 * and everything derived from them (the vulnerable count, the displayed
 * list, the header, and the filter controls or the "All secure" pill).
 */
module PackageList {
  import opened Wrappers
  import opened Text
  import opened Packages
  import opened PackageCard

  /** `packages.filter(isVulnerable)`: the vulnerable packages, in their original order. */
  function Vulnerable(ps: seq<PackageInfo>): (r: seq<PackageInfo>)
    ensures |r| <= |ps|
    ensures forall k :: 0 <= k < |r| ==> IsVulnerable(r[k]) && r[k] in ps
    decreases |ps|
  {
    if ps == [] then []
    else if IsVulnerable(ps[0]) then [ps[0]] + Vulnerable(ps[1..])
    else Vulnerable(ps[1..])
  }

  /**
   * The positions `i` with `lo <= i < |ps|` whose package is vulnerable, in
   * increasing order: an independent account of which packages the filter keeps.
   */
  function VulnerablePositions(ps: seq<PackageInfo>, lo: nat): (idx: seq<nat>)
    requires lo <= |ps|
    ensures forall k :: 0 <= k < |idx| ==> lo <= idx[k] < |ps| && IsVulnerable(ps[idx[k]])
    ensures forall k, l :: 0 <= k < l < |idx| ==> idx[k] < idx[l]
    ensures forall i :: lo <= i < |ps| && IsVulnerable(ps[i]) ==> i in idx
    decreases |ps| - lo
  {
    if lo == |ps| then []
    else if IsVulnerable(ps[lo]) then [lo] + VulnerablePositions(ps, lo + 1)
    else VulnerablePositions(ps, lo + 1)
  }

  lemma {:induction false} VulnerableSelects(ps: seq<PackageInfo>, lo: nat)
    requires lo <= |ps|
    ensures |Vulnerable(ps[lo..])| == |VulnerablePositions(ps, lo)|
    ensures forall k :: 0 <= k < |Vulnerable(ps[lo..])| ==>
      Vulnerable(ps[lo..])[k] == ps[VulnerablePositions(ps, lo)[k]]
    decreases |ps| - lo
  {
    if lo < |ps| {
      var t, rest, idx := ps[lo..], Vulnerable(ps[lo + 1..]), VulnerablePositions(ps, lo + 1);
      assert t[0] == ps[lo] && t[1..] == ps[lo + 1..];
      VulnerableSelects(ps, lo + 1);
      if IsVulnerable(ps[lo]) {
        assert Vulnerable(t) == [ps[lo]] + rest;
        assert VulnerablePositions(ps, lo) == [lo] + idx;
        forall k | 0 <= k < |Vulnerable(t)|
          ensures Vulnerable(t)[k] == ps[VulnerablePositions(ps, lo)[k]]
        {
          if k > 0 {
            assert Vulnerable(t)[k] == rest[k - 1];
          }
        }
      } else {
        assert Vulnerable(t) == rest;
      }
    }
  }

  /**
   * The filtered list is the order-preserving selection of the vulnerable
   * packages: its k-th element is the package at the k-th vulnerable position.
   */
  lemma VulnerableIsOrderedSelection(ps: seq<PackageInfo>)
    ensures var idx := VulnerablePositions(ps, 0);
      |Vulnerable(ps)| == |idx| &&
      (forall k :: 0 <= k < |idx| ==> idx[k] < |ps| && Vulnerable(ps)[k] == ps[idx[k]]) &&
      (forall k, l :: 0 <= k < l < |idx| ==> idx[k] < idx[l]) &&
      (forall i :: 0 <= i < |ps| ==> (i in idx <==> IsVulnerable(ps[i])))
  {
    assert ps[0..] == ps;
    VulnerableSelects(ps, 0);
  }

  /** `vulnerableCount`: the length of the filtered list. */
  function VulnerableCount(ps: seq<PackageInfo>): (n: nat)
    ensures n <= |ps|
    ensures n == 0 <==> forall i :: 0 <= i < |ps| ==> !IsVulnerable(ps[i])
    ensures n == |ps| <==> forall i :: 0 <= i < |ps| ==> IsVulnerable(ps[i])
  {
    NoneVulnerable(ps);
    AllVulnerable(ps);
    |Vulnerable(ps)|
  }

  lemma {:induction false} NoneVulnerable(ps: seq<PackageInfo>)
    ensures |Vulnerable(ps)| == 0 <==> forall i :: 0 <= i < |ps| ==> !IsVulnerable(ps[i])
    decreases |ps|
  {
    if ps != [] {
      NoneVulnerable(ps[1..]);
      if forall i :: 0 <= i < |ps| ==> !IsVulnerable(ps[i]) {
        assert forall i :: 0 <= i < |ps[1..]| ==> ps[1..][i] == ps[i + 1];
      }
      if !IsVulnerable(ps[0]) && |Vulnerable(ps[1..])| == 0 {
        forall i | 0 <= i < |ps| ensures !IsVulnerable(ps[i]) {
          if i > 0 { assert ps[i] == ps[1..][i - 1]; }
        }
      }
    }
  }

  lemma {:induction false} AllVulnerable(ps: seq<PackageInfo>)
    ensures |Vulnerable(ps)| == |ps| <==> forall i :: 0 <= i < |ps| ==> IsVulnerable(ps[i])
    decreases |ps|
  {
    if ps != [] {
      AllVulnerable(ps[1..]);
      if forall i :: 0 <= i < |ps| ==> IsVulnerable(ps[i]) {
        assert forall i :: 0 <= i < |ps[1..]| ==> ps[1..][i] == ps[i + 1];
      }
      if IsVulnerable(ps[0]) && |Vulnerable(ps[1..])| == |ps| - 1 {
        forall i | 0 <= i < |ps| ensures IsVulnerable(ps[i]) {
          if i > 0 { assert ps[i] == ps[1..][i - 1]; }
        }
      }
    }
  }

  /** `filteredPackages`: the list the component renders, one card per element. */
  function Displayed(ps: seq<PackageInfo>, onlyVulnerable: bool): (r: seq<PackageInfo>)
    ensures !onlyVulnerable ==> r == ps
    ensures onlyVulnerable ==> |r| == VulnerableCount(ps)
    ensures |r| <= |ps|
    ensures forall k :: 0 <= k < |r| ==> r[k] in ps && (onlyVulnerable ==> IsVulnerable(r[k]))
  {
    if onlyVulnerable then Vulnerable(ps) else ps
  }

  /** With the filter on, every card rendered offers the upgrade button, whatever its state. */
  lemma FilteredCardsOfferUpgrade(ps: seq<PackageInfo>, s: CardState)
    ensures forall k :: 0 <= k < |Displayed(ps, true)| ==> UpgradeButton(Displayed(ps, true)[k], s).Some?
  {
  }

  /** The header's plural ending. */
  function PluralSuffix(n: nat): (r: string)
    ensures r == "s" <==> n != 1
    ensures r == "" <==> n == 1
  {
    if n != 1 then "s" else ""
  }

  /** "Found N package(s)". */
  function Title(ps: seq<PackageInfo>): (t: string)
    ensures (t == "Found 1 package") <==> |ps| == 1
    ensures |ps| != 1 ==> |t| > 0 && t[|t| - 1] == 's'
    ensures t == "Found " + Decimal(|ps|) + " package" + PluralSuffix(|ps|)
  {
    var t := "Found " + Decimal(|ps|) + " package" + PluralSuffix(|ps|);
    assert |ps| != 1 ==> t[|t| - 1] == 's';
    assert |ps| == 1 ==> Decimal(|ps|) == "1";
    t
  }

  /** The "(showing N)" note after the header. */
  function ShowingNote(ps: seq<PackageInfo>, onlyVulnerable: bool): (r: Option<string>)
    ensures r.Some? <==> onlyVulnerable && exists i :: 0 <= i < |ps| && !IsVulnerable(ps[i])
    ensures r.Some? ==> r.value == "(showing " + Decimal(VulnerableCount(ps)) + ")"
  {
    var shown := Displayed(ps, onlyVulnerable);
    assert onlyVulnerable ==> |shown| == VulnerableCount(ps);
    if onlyVulnerable && |shown| != |ps| then Some("(showing " + Decimal(|shown|) + ")") else None
  }

  datatype ToggleIcon = Filter | FilterX

  /**
   * The right-hand side of the header: the filter toggle with the "N
   * vulnerable" pill, or the "All secure" pill alone.
   */
  datatype Controls =
    | FilterControls(caption: string, icon: ToggleIcon, highlighted: bool, pill: string)
    | AllSecure

  function ControlsFor(ps: seq<PackageInfo>, onlyVulnerable: bool): (c: Controls)
    ensures c.AllSecure? <==> forall i :: 0 <= i < |ps| ==> !IsVulnerable(ps[i])
    ensures c.FilterControls? ==> c.caption == (if onlyVulnerable then "Show All" else "Vulnerable Only")
    ensures c.FilterControls? ==> (c.icon == FilterX <==> onlyVulnerable) && c.highlighted == onlyVulnerable
    ensures c.FilterControls? ==> c.pill == Decimal(VulnerableCount(ps)) + " vulnerable"
  {
    var count := VulnerableCount(ps);
    if count > 0 then
      FilterControls(if onlyVulnerable then "Show All" else "Vulnerable Only",
                     if onlyVulnerable then FilterX else Filter,
                     onlyVulnerable,
                     Decimal(count) + " vulnerable")
    else
      AllSecure
  }

  /**
   * The flag outlives the list it was set for: when a refreshed list has no
   * vulnerable package left while the filter is on, no card is rendered, the
   * header says "(showing 0)", and the toggle that would turn the filter off
   * is not rendered.
   */
  lemma FilterOutlivesVulnerablePackages(ps: seq<PackageInfo>)
    requires |ps| > 0
    requires forall i :: 0 <= i < |ps| ==> !IsVulnerable(ps[i])
    ensures Displayed(ps, true) == []
    ensures ShowingNote(ps, true) == Some("(showing 0)")
    ensures ControlsFor(ps, true) == AllSecure
  {
    NoneVulnerable(ps);
    assert !IsVulnerable(ps[0]);
    assert VulnerableCount(ps) == 0 && Decimal(0) == "0";
    assert "(showing " + Decimal(0) + ")" == "(showing 0)";
  }

  // ---- The component's state, updated in place --------------------------------

  class FleetView {
    const packages: seq<PackageInfo>
    var showOnlyVulnerable: bool

    constructor (packages: seq<PackageInfo>)
      ensures this.packages == packages && !showOnlyVulnerable
    {
      this.packages := packages;
      showOnlyVulnerable := false;
    }

    /** The list the component currently renders. */
    function Shown(): (r: seq<PackageInfo>)
      reads this
      ensures !showOnlyVulnerable ==> r == packages
      ensures showOnlyVulnerable ==> |r| == VulnerableCount(packages)
      ensures forall k :: 0 <= k < |r| ==> r[k] in packages && (showOnlyVulnerable ==> IsVulnerable(r[k]))
    {
      Displayed(packages, showOnlyVulnerable)
    }

    /** The toggle button's click handler. */
    method Toggle()
      modifies this
      ensures showOnlyVulnerable == !old(showOnlyVulnerable)
    {
      showOnlyVulnerable := !showOnlyVulnerable;
    }

    /** Two clicks on the toggle bring back the list that was rendered before them. */
    method ToggleTwice()
      modifies this
      ensures showOnlyVulnerable == old(showOnlyVulnerable) && Shown() == old(Shown())
    {
      Toggle();
      Toggle();
    }
  }
}
