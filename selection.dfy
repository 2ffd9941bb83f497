/**
 * The dashboard's selection: the loaded rows whose Survival label, Pclass, Sex and Embarked
 * are each in the matching accepted list, all four conditions joined by `and`.
 */
module Selection {
  import opened Wrappers
  import opened Sequences
  import opened Loader
  import opened Sidebar

  /** `column in @list` for one cell: a missing cell is in no list. */
  predicate InList<T(==)>(cell: Option<T>, accepted: seq<T>)
  {
    cell.Some? && cell.value in accepted
  }

  /** The query's condition for one row: the four memberships joined by `and`. */
  predicate Keeps(acc: Accepted, p: Passenger): (b: bool)
    ensures b ==> p.survival.Some? && p.raw.pclass.Some? && p.raw.sex.Some? && p.raw.embarked.Some?
    ensures acc.survival == [] || acc.pclass == [] || acc.gender == [] || acc.embarked == [] ==> !b
  {
    && InList(p.survival, acc.survival)
    && InList(p.raw.pclass, acc.pclass)
    && InList(p.raw.sex, acc.gender)
    && InList(p.raw.embarked, acc.embarked)
  }

  /** `df_selection`: the rows that satisfy the query, in their original order. */
  function Select(rows: seq<Passenger>, acc: Accepted): (sel: seq<Passenger>)
    ensures |sel| <= |rows|
    ensures forall k :: 0 <= k < |sel| ==> Keeps(acc, sel[k])
  {
    if rows == [] then []
    else (if Keeps(acc, rows[0]) then [rows[0]] else []) + Select(rows[1..], acc)
  }

  /** A row is selected exactly when it is one of the rows and satisfies all four memberships. */
  lemma {:induction false} SelectMembers(rows: seq<Passenger>, acc: Accepted, p: Passenger)
    ensures p in Select(rows, acc) <==>
            && p in rows
            && p.survival.Some? && p.survival.value in acc.survival
            && p.raw.pclass.Some? && p.raw.pclass.value in acc.pclass
            && p.raw.sex.Some? && p.raw.sex.value in acc.gender
            && p.raw.embarked.Some? && p.raw.embarked.value in acc.embarked
  {
    if rows != [] {
      SelectMembers(rows[1..], acc, p);
      assert rows == [rows[0]] + rows[1..];
    }
  }

  /** The query runs row by row: the selection of a concatenation is the concatenation of the selections. */
  lemma {:induction false} SelectConcat(a: seq<Passenger>, b: seq<Passenger>, acc: Accepted)
    ensures Select(a + b, acc) == Select(a, acc) + Select(b, acc)
  {
    if a != [] {
      assert (a + b)[1..] == a[1..] + b;
      SelectConcat(a[1..], b, acc);
    } else {
      assert a + b == b;
    }
  }

  /** A selected row value is kept as many times as it occurs in the table; a rejected one never. */
  lemma {:induction false} SelectMultiplicity(rows: seq<Passenger>, acc: Accepted, p: Passenger)
    ensures multiset(Select(rows, acc))[p] == if Keeps(acc, p) then multiset(rows)[p] else 0
  {
    if rows != [] {
      SelectMultiplicity(rows[1..], acc, p);
      assert rows == [rows[0]] + rows[1..];
    }
  }

  /** A row with a missing Survival, Pclass, Sex or Embarked cell is never selected. */
  lemma MissingCellNeverSelected(rows: seq<Passenger>, acc: Accepted, p: Passenger)
    requires p.survival.None? || p.raw.pclass.None? || p.raw.sex.None? || p.raw.embarked.None?
    ensures p !in Select(rows, acc)
  {
    SelectMembers(rows, acc, p);
  }

  /** The selection keeps the rows' order: it is a subsequence of them. */
  lemma {:induction false} SelectIsSubsequence(rows: seq<Passenger>, acc: Accepted)
    ensures IsSubsequence(Select(rows, acc), rows)
  {
    if rows != [] {
      SelectIsSubsequence(rows[1..], acc);
      var rest := Select(rows[1..], acc);
      if Keeps(acc, rows[0]) {
        assert Select(rows, acc) == [rows[0]] + rest;
        assert ([rows[0]] + rest)[1..] == rest;
      } else {
        assert Select(rows, acc) == rest;
      }
    }
  }

  /** When every row satisfies the query the selection is all of them. */
  lemma {:induction false} SelectAllKept(rows: seq<Passenger>, acc: Accepted)
    requires forall k :: 0 <= k < |rows| ==> Keeps(acc, rows[k])
    ensures Select(rows, acc) == rows
  {
    if rows != [] {
      SelectAllKept(rows[1..], acc);
    }
  }

  /** Selecting again with the same lists changes nothing. */
  lemma SelectIdempotent(rows: seq<Passenger>, acc: Accepted)
    ensures Select(Select(rows, acc), acc) == Select(rows, acc)
  {
    SelectAllKept(Select(rows, acc), acc);
  }

  /** Every value `small` accepts in each column, `large` accepts too. */
  ghost predicate AcceptsLess(small: Accepted, large: Accepted)
  {
    && (forall v :: v in small.survival ==> v in large.survival)
    && (forall c: int :: c in small.pclass ==> c in large.pclass)
    && (forall v :: v in small.gender ==> v in large.gender)
    && (forall v :: v in small.embarked ==> v in large.embarked)
  }

  /** A row that satisfies the query for `small` satisfies it for `large`. */
  lemma KeepsMonotone(small: Accepted, large: Accepted, p: Passenger)
    requires AcceptsLess(small, large)
    requires Keeps(small, p)
    ensures Keeps(large, p)
  {
    assert p.survival.value in large.survival;
    var c: int := p.raw.pclass.value;
    assert c in small.pclass;
    assert c in large.pclass;
    assert p.raw.sex.value in large.gender;
    assert p.raw.embarked.value in large.embarked;
  }

  /** Enlarging accepted lists removes no row: the smaller selection is a subsequence of the larger. */
  lemma {:induction false} SelectMonotone(rows: seq<Passenger>, small: Accepted, large: Accepted)
    requires AcceptsLess(small, large)
    ensures IsSubsequence(Select(rows, small), Select(rows, large))
  {
    if rows != [] {
      SelectMonotone(rows[1..], small, large);
      var s, l := Select(rows[1..], small), Select(rows[1..], large);
      if Keeps(small, rows[0]) {
        KeepsMonotone(small, large, rows[0]);
        assert Select(rows, small) == [rows[0]] + s;
        assert Select(rows, large) == [rows[0]] + l;
        assert ([rows[0]] + s)[1..] == s && ([rows[0]] + l)[1..] == l;
      } else if Keeps(large, rows[0]) {
        assert Select(rows, large) == [rows[0]] + l;
        assert ([rows[0]] + l)[1..] == l;
        assert Select(rows, small) == s;
      } else {
        assert Select(rows, large) == l;
        assert Select(rows, small) == s;
      }
    }
  }

  /** An empty accepted list selects nothing (strict `and`, not "no constraint"). */
  lemma {:induction false} EmptyListSelectsNothing(rows: seq<Passenger>, acc: Accepted)
    requires acc.survival == [] || acc.pclass == [] || acc.gender == [] || acc.embarked == []
    ensures Select(rows, acc) == []
  {
    if rows != [] {
      EmptyListSelectsNothing(rows[1..], acc);
    }
  }

  /** Unticking every box of any one sidebar group empties the selection. */
  lemma UntickedGroupSelectsNothing(rows: seq<Passenger>, cb: Checkboxes)
    requires || (!cb.survived && !cb.didNotSurvive)
             || (!cb.one && !cb.two && !cb.three)
             || (!cb.male && !cb.female)
             || (!cb.cherbourg && !cb.queenstown && !cb.southampton)
    ensures Select(rows, AcceptedFor(cb)) == []
  {
    UntickedGroupIsEmpty(cb);
    EmptyListSelectsNothing(rows, AcceptedFor(cb));
  }

  /** A loaded row whose `Survived` is neither 0 nor 1 has no label and is never selected. */
  lemma UnlabelledNeverSelected(rows: seq<Passenger>, acc: Accepted, p: Passenger)
    requires IsDerived(p)
    requires p.raw.survived != 0 && p.raw.survived != 1
    ensures p !in Select(rows, acc)
  {
    MissingCellNeverSelected(rows, acc, p);
  }
}
