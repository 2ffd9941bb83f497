/**
 * The `Title` column: the first group captured by the pattern ` ([A-Za-z]+)\.` when it is
 * searched for in a passenger's name (pandas `str.extract`, which uses a leftmost search).
 */
module Titles {
  import opened Wrappers

  /** The character class `[A-Za-z]`: ASCII letters only. */
  predicate IsLetter(c: char)
  {
    'A' <= c <= 'Z' || 'a' <= c <= 'z'
  }

  predicate AllLetters(t: string)
  {
    forall k :: 0 <= k < |t| ==> IsLetter(t[k])
  }

  /**
   * The pattern matches `name` starting at index `i` with captured group `t`:
   * a space at `i`, then the letters of `t` (at least one), then a period.
   */
  ghost predicate TitleAt(name: string, i: int, t: string)
  {
    && 0 <= i
    && i + |t| + 1 < |name|
    && name[i] == ' '
    && |t| > 0
    && AllLetters(t)
    && name[i + 1 .. i + 1 + |t|] == t
    && name[i + 1 + |t|] == '.'
  }

  /** Some match of the pattern starts at index `i`. */
  ghost predicate MatchesAt(name: string, i: int)
  {
    exists t :: TitleAt(name, i, t)
  }

  /** The end of the longest run of letters that starts at `k` (what the greedy `+` consumes). */
  function RunEnd(s: string, k: nat): (j: nat)
    requires k <= |s|
    ensures k <= j <= |s|
    ensures AllLetters(s[k..j])
    ensures j == |s| || !IsLetter(s[j])
    decreases |s| - k
  {
    if k < |s| && IsLetter(s[k]) then RunEnd(s, k + 1) else k
  }

  /** A run of letters from `k` that stops at a non-letter at `e` ends at `e`. */
  lemma {:induction false} RunEndAt(s: string, k: nat, e: nat)
    requires k <= e < |s|
    requires forall m :: k <= m < e ==> IsLetter(s[m])
    requires !IsLetter(s[e])
    ensures RunEnd(s, k) == e
    decreases e - k
  {
    if k < e {
      RunEndAt(s, k + 1, e);
    }
  }

  /** The match attempt at index `i`: greedy letters after a space, then a period. */
  function MatchAt(name: string, i: nat): (r: Option<string>)
    requires i < |name|
    ensures r.Some? ==> TitleAt(name, i, r.value)
  {
    if name[i] != ' ' then None
    else
      var j := RunEnd(name, i + 1);
      if i + 1 < j < |name| && name[j] == '.' then Some(name[i + 1 .. j]) else None
  }

  /** The leftmost match at or after index `i`. */
  function TitleFrom(name: string, i: nat): (r: Option<string>)
    requires i <= |name|
    ensures r.Some? ==> |r.value| > 0 && AllLetters(r.value)
    decreases |name| - i
  {
    if i == |name| then None
    else
      match MatchAt(name, i)
      case Some(t) => Some(t)
      case None => TitleFrom(name, i + 1)
  }

  /** The `Title` of a passenger called `name`; `None` stands for the NaN of a failed match. */
  function ExtractTitle(name: string): (r: Option<string>)
    ensures r.Some? ==> |r.value| > 0 && AllLetters(r.value)
  {
    TitleFrom(name, 0)
  }

  /** The match attempt at `i` succeeds with `t` exactly when the pattern matches there with group `t`. */
  lemma MatchAtIff(name: string, i: nat, t: string)
    requires i < |name|
    ensures MatchAt(name, i) == Some(t) <==> TitleAt(name, i, t)
  {
    if TitleAt(name, i, t) {
      var e := i + 1 + |t|;
      forall m | i + 1 <= m < e ensures IsLetter(name[m]) {
        assert name[m] == t[m - i - 1];
      }
      RunEndAt(name, i + 1, e);
    }
  }

  /** At most one group can be captured by a match starting at a given index. */
  lemma TitleAtUnique(name: string, i: nat, t: string, t': string)
    requires TitleAt(name, i, t) && TitleAt(name, i, t')
    ensures t == t'
  {
    MatchAtIff(name, i, t);
    MatchAtIff(name, i, t');
  }

  /** No match starts in `[i, k)`. */
  ghost predicate NoMatchBetween(name: string, i: int, k: int)
  {
    forall m :: i <= m < k ==> !MatchesAt(name, m)
  }

  lemma {:induction false} TitleFromIff(name: string, i: nat, t: string)
    requires i <= |name|
    ensures TitleFrom(name, i) == Some(t) <==>
            exists k :: i <= k && TitleAt(name, k, t) && NoMatchBetween(name, i, k)
    decreases |name| - i
  {
    if i == |name| {
      forall k | i <= k ensures !TitleAt(name, k, t) { }
    } else {
      match MatchAt(name, i)
      case Some(t0) =>
        MatchAtIff(name, i, t0);
        if TitleFrom(name, i) == Some(t) {
          assert TitleAt(name, i, t) && NoMatchBetween(name, i, i);
        }
        if k :| i <= k && TitleAt(name, k, t) && NoMatchBetween(name, i, k) {
          if k > i {
            assert MatchesAt(name, i);
            assert false;
          }
          MatchAtIff(name, i, t);
        }
      case None =>
        forall t' ensures !TitleAt(name, i, t') {
          MatchAtIff(name, i, t');
        }
        assert !MatchesAt(name, i);
        TitleFromIff(name, i + 1, t);
        if k :| i <= k && TitleAt(name, k, t) && NoMatchBetween(name, i, k) {
          assert k != i;
          assert NoMatchBetween(name, i + 1, k);
        }
        if k :| i + 1 <= k && TitleAt(name, k, t) && NoMatchBetween(name, i + 1, k) {
          assert NoMatchBetween(name, i, k);
        }
    }
  }

  /**
   * The title is `t` exactly when the pattern matches at some index `i` with group `t`
   * and no match starts before `i`: the first match wins.
   */
  lemma ExtractTitleIsFirstMatch(name: string, t: string)
    ensures ExtractTitle(name) == Some(t) <==>
            exists i :: TitleAt(name, i, t) && NoMatchBetween(name, 0, i)
  {
    TitleFromIff(name, 0, t);
  }

  lemma {:induction false} TitleFromNoneIff(name: string, i: nat)
    requires i <= |name|
    ensures TitleFrom(name, i).None? <==> forall k :: i <= k ==> !MatchesAt(name, k)
    decreases |name| - i
  {
    if i < |name| {
      match MatchAt(name, i)
      case Some(t0) =>
        MatchAtIff(name, i, t0);
        assert MatchesAt(name, i);
      case None =>
        forall t' ensures !TitleAt(name, i, t') {
          MatchAtIff(name, i, t');
        }
        TitleFromNoneIff(name, i + 1);
    }
  }

  /** The title is absent exactly when the pattern matches nowhere in the name. */
  lemma ExtractTitleAbsent(name: string)
    ensures ExtractTitle(name).None? <==> forall i :: !MatchesAt(name, i)
  {
    TitleFromNoneIff(name, 0);
  }

  /** The first passenger of the sheet: "Braund, Mr. Owen Harris" has the title "Mr". */
  lemma BraundIsMr()
    ensures ExtractTitle("Braund, Mr. Owen Harris") == Some("Mr")
  {
    var name := "Braund, Mr. Owen Harris";
    assert TitleAt(name, 7, "Mr");
    forall m | 0 <= m < 7 ensures !MatchesAt(name, m) {
      assert name[m] != ' ';
    }
    ExtractTitleIsFirstMatch(name, "Mr");
  }

  /** A name without a period has no title. */
  lemma NoPeriodNoTitle(name: string)
    requires forall k :: 0 <= k < |name| ==> name[k] != '.'
    ensures ExtractTitle(name).None?
  {
    forall i ensures !MatchesAt(name, i) {
      if t :| TitleAt(name, i, t) {
        assert name[i + 1 + |t|] == '.';
      }
    }
    ExtractTitleAbsent(name);
  }

  /** A word ending in a period at the very start of the name is not a title: the space is required. */
  lemma LeadingWordIsNoTitle()
    ensures ExtractTitle("Mr.").None?
  {
    NoSpaceNoTitle("Mr.");
  }

  lemma NoSpaceNoTitle(name: string)
    requires forall k :: 0 <= k < |name| ==> name[k] != ' '
    ensures ExtractTitle(name).None?
  {
    forall i ensures !MatchesAt(name, i) {
      if t :| TitleAt(name, i, t) {
        assert name[i] == ' ';
      }
    }
    ExtractTitleAbsent(name);
  }
}
