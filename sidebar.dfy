/**
 * The sidebar: four groups of checkboxes, each turned into the list of values it accepts by
 * appending, in a fixed order, the value of every ticked box to an empty list.
 */
module Sidebar {
  import opened Sequences

  /** The boxes of each group, in the order the lists are built. */
  const SurvivalLabels: seq<string> := ["Survived", "Did not Survive"]
  const PassengerClasses: seq<int> := [1, 2, 3]
  const Sexes: seq<string> := ["male", "female"]
  const Ports: seq<string> := ["C", "Q", "S"]

  /** The state of the ten checkboxes. */
  datatype Checkboxes = Checkboxes(
    survived: bool, didNotSurvive: bool,
    one: bool, two: bool, three: bool,
    male: bool, female: bool,
    cherbourg: bool, queenstown: bool, southampton: bool)

  /** Every box starts ticked (`value=True`). */
  const Defaults: Checkboxes := Checkboxes(true, true, true, true, true, true, true, true, true, true)

  /** The four accepted lists the filter query reads. */
  datatype Accepted = Accepted(
    survival: seq<string>,
    pclass: seq<int>,
    gender: seq<string>,
    embarked: seq<string>)

  /** The values of `domain` whose box in `ticks` is ticked, in the order of `domain`. */
  function Ticked<T>(domain: seq<T>, ticks: seq<bool>): (r: seq<T>)
    requires |ticks| == |domain|
    ensures |r| <= |domain|
    ensures forall k :: 0 <= k < |r| ==> r[k] in domain
  {
    if domain == [] then []
    else (if ticks[0] then [domain[0]] else []) + Ticked(domain[1..], ticks[1..])
  }

  /** A group of two boxes, one append per ticked box. */
  lemma TickedPair<T>(x: T, y: T, a: bool, b: bool)
    ensures Ticked([x, y], [a, b]) == (if a then [x] else []) + (if b then [y] else [])
  {
    assert Ticked([y], [b]) == (if b then [y] else []) + Ticked([], []);
  }

  /** A group of three boxes, one append per ticked box. */
  lemma TickedTriple<T>(x: T, y: T, z: T, a: bool, b: bool, c: bool)
    ensures Ticked([x, y, z], [a, b, c])
            == (if a then [x] else []) + (if b then [y] else []) + (if c then [z] else [])
  {
    TickedPair(y, z, b, c);
    assert [x, y, z][1..] == [y, z] && [a, b, c][1..] == [b, c];
  }

  /** The lists the sidebar yields for a state of its boxes. */
  function AcceptedFor(cb: Checkboxes): (acc: Accepted)
    ensures forall k :: 0 <= k < |acc.survival| ==> acc.survival[k] in SurvivalLabels
    ensures forall k :: 0 <= k < |acc.pclass| ==> acc.pclass[k] in PassengerClasses
    ensures forall k :: 0 <= k < |acc.gender| ==> acc.gender[k] in Sexes
    ensures forall k :: 0 <= k < |acc.embarked| ==> acc.embarked[k] in Ports
  {
    Accepted(
      Ticked(SurvivalLabels, [cb.survived, cb.didNotSurvive]),
      Ticked(PassengerClasses, [cb.one, cb.two, cb.three]),
      Ticked(Sexes, [cb.male, cb.female]),
      Ticked(Ports, [cb.cherbourg, cb.queenstown, cb.southampton]))
  }

  /** The `survival` list. */
  method SurvivalList(survived: bool, didNotSurvive: bool) returns (survival: seq<string>)
    ensures survival == Ticked(SurvivalLabels, [survived, didNotSurvive])
  {
    TickedPair("Survived", "Did not Survive", survived, didNotSurvive);
    survival := [];
    if survived {
      survival := survival + ["Survived"];
    }
    if didNotSurvive {
      survival := survival + ["Did not Survive"];
    }
  }

  /** The `pclass` list. */
  method PclassList(one: bool, two: bool, three: bool) returns (pclass: seq<int>)
    ensures pclass == Ticked(PassengerClasses, [one, two, three])
  {
    TickedTriple(1, 2, 3, one, two, three);
    pclass := [];
    if one {
      pclass := pclass + [1];
    }
    if two {
      pclass := pclass + [2];
    }
    if three {
      pclass := pclass + [3];
    }
  }

  /** The `gender` list. */
  method GenderList(male: bool, female: bool) returns (gender: seq<string>)
    ensures gender == Ticked(Sexes, [male, female])
  {
    TickedPair("male", "female", male, female);
    gender := [];
    if male {
      gender := gender + ["male"];
    }
    if female {
      gender := gender + ["female"];
    }
  }

  /** The `embarked` list. */
  method EmbarkedList(c: bool, q: bool, s: bool) returns (embarked: seq<string>)
    ensures embarked == Ticked(Ports, [c, q, s])
  {
    TickedTriple("C", "Q", "S", c, q, s);
    embarked := [];
    if c {
      embarked := embarked + ["C"];
    }
    if q {
      embarked := embarked + ["Q"];
    }
    if s {
      embarked := embarked + ["S"];
    }
  }

  /** All four lists, built one group after the other. */
  method ReadSidebar(cb: Checkboxes) returns (acc: Accepted)
    ensures acc == AcceptedFor(cb)
  {
    var survival := SurvivalList(cb.survived, cb.didNotSurvive);
    var pclass := PclassList(cb.one, cb.two, cb.three);
    var gender := GenderList(cb.male, cb.female);
    var embarked := EmbarkedList(cb.cherbourg, cb.queenstown, cb.southampton);
    acc := Accepted(survival, pclass, gender, embarked);
  }

  /** A ticked list keeps the order of its group. */
  lemma {:induction false} TickedIsSubsequence<T>(domain: seq<T>, ticks: seq<bool>)
    requires |ticks| == |domain|
    ensures IsSubsequence(Ticked(domain, ticks), domain)
    decreases |domain|
  {
    if domain != [] {
      TickedIsSubsequence(domain[1..], ticks[1..]);
      if !ticks[0] {
        assert Ticked(domain, ticks) == Ticked(domain[1..], ticks[1..]);
      }
    }
  }

  /** A value that occurs once in its group is in the list exactly when its box is ticked. */
  lemma {:induction false} TickedHasBox<T>(domain: seq<T>, ticks: seq<bool>, k: nat)
    requires |ticks| == |domain|
    requires Distinct(domain)
    requires k < |domain|
    ensures domain[k] in Ticked(domain, ticks) <==> ticks[k]
    decreases |domain|
  {
    var rest := Ticked(domain[1..], ticks[1..]);
    assert Distinct(domain[1..]);
    if k > 0 {
      TickedHasBox(domain[1..], ticks[1..], k - 1);
      assert domain[k] != domain[0];
    } else {
      TickedIsSubsequence(domain[1..], ticks[1..]);
      if domain[0] in rest {
        SubsequenceMembers(rest, domain[1..], domain[0]);
        assert false;
      }
    }
  }

  /** A ticked list holds no value twice when its group does not. */
  lemma {:induction false} TickedDistinct<T>(domain: seq<T>, ticks: seq<bool>)
    requires |ticks| == |domain|
    requires Distinct(domain)
    ensures Distinct(Ticked(domain, ticks))
    decreases |domain|
  {
    if domain != [] {
      var rest := Ticked(domain[1..], ticks[1..]);
      assert Distinct(domain[1..]);
      TickedDistinct(domain[1..], ticks[1..]);
      if ticks[0] {
        TickedIsSubsequence(domain[1..], ticks[1..]);
        if domain[0] in rest {
          SubsequenceMembers(rest, domain[1..], domain[0]);
          assert false;
        }
        var r := [domain[0]] + rest;
        forall i, j | 0 <= i < j < |r| ensures r[i] != r[j] {
          if i == 0 {
            assert r[j] == rest[j - 1];
          } else {
            assert r[i] == rest[i - 1] && r[j] == rest[j - 1];
          }
        }
      }
    }
  }

  /** With every box ticked the list is the whole group. */
  lemma {:induction false} AllTicked<T>(domain: seq<T>, ticks: seq<bool>)
    requires |ticks| == |domain|
    requires forall k :: 0 <= k < |ticks| ==> ticks[k]
    ensures Ticked(domain, ticks) == domain
    decreases |domain|
  {
    if domain != [] {
      AllTicked(domain[1..], ticks[1..]);
    }
  }

  /** With no box ticked the list is empty. */
  lemma {:induction false} NoneTicked<T>(domain: seq<T>, ticks: seq<bool>)
    requires |ticks| == |domain|
    requires forall k :: 0 <= k < |ticks| ==> !ticks[k]
    ensures Ticked(domain, ticks) == []
    decreases |domain|
  {
    if domain != [] {
      NoneTicked(domain[1..], ticks[1..]);
    }
  }

  /**
   * Each of the ten values is accepted exactly when its box is ticked; every list holds only
   * values of its group, none twice, in the group's order.
   */
  lemma AcceptedMembers(cb: Checkboxes)
    ensures var acc := AcceptedFor(cb);
      && ("Survived" in acc.survival <==> cb.survived)
      && ("Did not Survive" in acc.survival <==> cb.didNotSurvive)
      && (1 in acc.pclass <==> cb.one)
      && (2 in acc.pclass <==> cb.two)
      && (3 in acc.pclass <==> cb.three)
      && ("male" in acc.gender <==> cb.male)
      && ("female" in acc.gender <==> cb.female)
      && ("C" in acc.embarked <==> cb.cherbourg)
      && ("Q" in acc.embarked <==> cb.queenstown)
      && ("S" in acc.embarked <==> cb.southampton)
  {
    var s, p, g, e := [cb.survived, cb.didNotSurvive], [cb.one, cb.two, cb.three],
                      [cb.male, cb.female], [cb.cherbourg, cb.queenstown, cb.southampton];
    TickedHasBox(SurvivalLabels, s, 0);
    TickedHasBox(SurvivalLabels, s, 1);
    TickedHasBox(PassengerClasses, p, 0);
    TickedHasBox(PassengerClasses, p, 1);
    TickedHasBox(PassengerClasses, p, 2);
    TickedHasBox(Sexes, g, 0);
    TickedHasBox(Sexes, g, 1);
    TickedHasBox(Ports, e, 0);
    TickedHasBox(Ports, e, 1);
    TickedHasBox(Ports, e, 2);
  }

  /** Every list is an order-preserving selection of its group without duplicates. */
  lemma AcceptedWellFormed(cb: Checkboxes)
    ensures var acc := AcceptedFor(cb);
      && IsSubsequence(acc.survival, SurvivalLabels) && Distinct(acc.survival)
      && IsSubsequence(acc.pclass, PassengerClasses) && Distinct(acc.pclass)
      && IsSubsequence(acc.gender, Sexes) && Distinct(acc.gender)
      && IsSubsequence(acc.embarked, Ports) && Distinct(acc.embarked)
  {
    var s, p, g, e := [cb.survived, cb.didNotSurvive], [cb.one, cb.two, cb.three],
                      [cb.male, cb.female], [cb.cherbourg, cb.queenstown, cb.southampton];
    TickedIsSubsequence(SurvivalLabels, s);
    TickedIsSubsequence(PassengerClasses, p);
    TickedIsSubsequence(Sexes, g);
    TickedIsSubsequence(Ports, e);
    TickedDistinct(SurvivalLabels, s);
    TickedDistinct(PassengerClasses, p);
    TickedDistinct(Sexes, g);
    TickedDistinct(Ports, e);
  }

  /** With the default boxes every list is its whole group. */
  lemma DefaultsAcceptEverything()
    ensures AcceptedFor(Defaults) == Accepted(SurvivalLabels, PassengerClasses, Sexes, Ports)
  {
    AllTicked(SurvivalLabels, [true, true]);
    AllTicked(PassengerClasses, [true, true, true]);
    AllTicked(Sexes, [true, true]);
    AllTicked(Ports, [true, true, true]);
  }

  /** Unticking every box of a group leaves that group's list empty. */
  lemma UntickedGroupIsEmpty(cb: Checkboxes)
    ensures !cb.survived && !cb.didNotSurvive ==> AcceptedFor(cb).survival == []
    ensures !cb.one && !cb.two && !cb.three ==> AcceptedFor(cb).pclass == []
    ensures !cb.male && !cb.female ==> AcceptedFor(cb).gender == []
    ensures !cb.cherbourg && !cb.queenstown && !cb.southampton ==> AcceptedFor(cb).embarked == []
  {
    var s, p, g, e := [cb.survived, cb.didNotSurvive], [cb.one, cb.two, cb.three],
                      [cb.male, cb.female], [cb.cherbourg, cb.queenstown, cb.southampton];
    if !cb.survived && !cb.didNotSurvive { NoneTicked(SurvivalLabels, s); }
    if !cb.one && !cb.two && !cb.three { NoneTicked(PassengerClasses, p); }
    if !cb.male && !cb.female { NoneTicked(Sexes, g); }
    if !cb.cherbourg && !cb.queenstown && !cb.southampton { NoneTicked(Ports, e); }
  }
}
