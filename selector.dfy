/** The recipient selector of the message composer: the traveler search and
    destination filter, the list of destinations offered by the filter, the
    selection toggle and the guards that enable the two send buttons. */
module Selector {
  import opened Records
  import opened Text

  /** `a` is `b` with some elements dropped, the rest kept in order. */
  ghost predicate IsSubsequence<T>(a: seq<T>, b: seq<T>)
    decreases |b|
  {
    if a == [] then true
    else if b == [] then false
    else if a[0] == b[0] then IsSubsequence(a[1..], b[1..])
    else IsSubsequence(a, b[1..])
  }

  ghost predicate NoDuplicates<T>(s: seq<T>) {
    forall i, j :: 0 <= i < j < |s| ==> s[i] != s[j]
  }

  lemma {:induction false} SubsequenceExtendRight<T>(a: seq<T>, b: seq<T>, x: T)
    requires IsSubsequence(a, b)
    ensures IsSubsequence(a, b + [x])
    decreases |b|
  {
    if a == [] {
    } else {
      assert (b + [x])[0] == b[0] && (b + [x])[1..] == b[1..] + [x];
      if a[0] == b[0] {
        SubsequenceExtendRight(a[1..], b[1..], x);
      } else {
        SubsequenceExtendRight(a, b[1..], x);
      }
    }
  }

  lemma {:induction false} SubsequenceExtendBoth<T>(a: seq<T>, b: seq<T>, x: T)
    requires IsSubsequence(a, b)
    ensures IsSubsequence(a + [x], b + [x])
    decreases |b|
  {
    if a == [] {
      assert a + [x] == [x];
      if b == [] {
        assert IsSubsequence([x][1..], ([] + [x])[1..]);
      } else {
        assert (b + [x])[1..] == b[1..] + [x];
        assert [x] != [] && (b + [x])[0] == b[0];
        if b[0] == x {
          return;
        }
        SubsequenceExtendBoth(a, b[1..], x);
      }
    } else {
      assert b != [];
      assert (a + [x])[0] == a[0] && (a + [x])[1..] == a[1..] + [x];
      assert (b + [x])[0] == b[0] && (b + [x])[1..] == b[1..] + [x];
      if a[0] == b[0] {
        SubsequenceExtendBoth(a[1..], b[1..], x);
      } else {
        SubsequenceExtendBoth(a, b[1..], x);
      }
    }
  }

  // ---------------------------------------------------------------------
  // Search and destination filter

  /** Case-insensitive substring match of the search term on name or email:
      the lower-cased term occurs somewhere in the lower-cased name or email. */
  predicate MatchesSearch(t: Traveler, searchTerm: string): (r: bool)
    ensures r <==> Occurs(Lower(t.name), Lower(searchTerm)) || Occurs(Lower(t.email), Lower(searchTerm))
  {
    var name, email, term := Lower(t.name), Lower(t.email), Lower(searchTerm);
    IncludesIff(name, term);
    IncludesIff(email, term);
    var inName, inEmail := Includes(name, term), Includes(email, term);
    inName || inEmail
  }

  /** Exact destination match; the value "all" matches every traveler. */
  predicate MatchesDestination(t: Traveler, filterDestination: string): (r: bool)
    ensures filterDestination == "all" ==> r
    ensures filterDestination != "all" ==> (r <==> t.destination == filterDestination)
  {
    filterDestination == "all" || t.destination == filterDestination
  }

  predicate Kept(t: Traveler, searchTerm: string, filterDestination: string) {
    MatchesSearch(t, searchTerm) && MatchesDestination(t, filterDestination)
  }

  /** `travelers.filter(...)`: exactly the travelers passing both tests, each
      as often as in the input, in the input's order. */
  function FilterTravelers(ts: seq<Traveler>, searchTerm: string, filterDestination: string): (r: seq<Traveler>)
    ensures forall t :: t in r <==> t in ts && Kept(t, searchTerm, filterDestination)
    ensures forall t :: multiset(r)[t] == if Kept(t, searchTerm, filterDestination) then multiset(ts)[t] else 0
    ensures IsSubsequence(r, ts)
  {
    if ts == [] then []
    else
      var rest := FilterTravelers(ts[1..], searchTerm, filterDestination);
      assert ts == [ts[0]] + ts[1..];
      if Kept(ts[0], searchTerm, filterDestination) then
        assert ([ts[0]] + rest)[1..] == rest;
        [ts[0]] + rest
      else
        rest
  }

  /** With the composer's initial filters (empty search, destination "all")
      every traveler is listed, in order. */
  lemma {:induction false} InitialFilterKeepsAll(ts: seq<Traveler>)
    ensures FilterTravelers(ts, "", "all") == ts
  {
    if ts != [] {
      assert Lower("") == "";
      InitialFilterKeepsAll(ts[1..]);
      assert ts == [ts[0]] + ts[1..];
    }
  }

  /** Lower-casing the search term first changes nothing: the search is
      case-insensitive in the term. */
  lemma {:induction false} SearchIgnoresTermCase(ts: seq<Traveler>, searchTerm: string, filterDestination: string)
    ensures FilterTravelers(ts, Lower(searchTerm), filterDestination) == FilterTravelers(ts, searchTerm, filterDestination)
  {
    LowerIdempotent(searchTerm);
    if ts != [] {
      SearchIgnoresTermCase(ts[1..], searchTerm, filterDestination);
    }
  }

  // ---------------------------------------------------------------------
  // Destinations offered by the filter

  function DestinationsOf(ts: seq<Traveler>): (r: seq<string>)
    ensures |r| == |ts|
    ensures forall i :: 0 <= i < |ts| ==> r[i] == ts[i].destination
  {
    if ts == [] then [] else [ts[0].destination] + DestinationsOf(ts[1..])
  }

  /** `[...new Set(s)]`: each value once, in order of first occurrence. */
  function Distinct(s: seq<string>): (r: seq<string>)
    ensures NoDuplicates(r)
    ensures forall x :: x in r <==> x in s
    ensures IsSubsequence(r, s)
  {
    if s == [] then []
    else
      var init := s[..|s| - 1];
      var last := s[|s| - 1];
      var r := Distinct(init);
      assert s == init + [last];
      if last in r then
        SubsequenceExtendRight(r, init, last);
        r
      else
        SubsequenceExtendBoth(r, init, last);
        AppendFreshNoDuplicates(r, last);
        r + [last]
  }

  lemma AppendFreshNoDuplicates<T>(s: seq<T>, x: T)
    requires NoDuplicates(s) && x !in s
    ensures NoDuplicates(s + [x])
  {
    var t := s + [x];
    forall i, j | 0 <= i < j < |t|
      ensures t[i] != t[j]
    {
      if j < |s| {
        assert t[i] == s[i] && t[j] == s[j];
      } else {
        assert t[i] == s[i] && t[j] == x;
      }
    }
  }

  /** The index of the first occurrence of `x` in `s`. */
  ghost function FirstIndex<T>(s: seq<T>, x: T): (i: nat)
    requires x in s
    ensures i < |s| && s[i] == x && x !in s[..i]
  {
    if s[0] == x then 0 else 1 + FirstIndex(s[1..], x)
  }

  /** Appending to a list does not move the first occurrence of a value it
      already holds. */
  lemma {:induction false} FirstIndexOfPrefix<T>(s: seq<T>, t: seq<T>, x: T)
    requires x in s
    ensures FirstIndex(s + t, x) == FirstIndex(s, x)
    decreases |s|
  {
    assert (s + t)[0] == s[0];
    if s[0] != x {
      assert s == [s[0]] + s[1..];
      assert (s + t)[1..] == s[1..] + t;
      FirstIndexOfPrefix(s[1..], t, x);
    }
  }

  /** `Distinct` lists the values in the order of their first occurrence in
      `s`. With the contract of `Distinct` this fixes its result: the
      distinct values of `s`, sorted by where each first appears. */
  lemma {:induction false} DistinctInFirstOccurrenceOrder(s: seq<string>)
    ensures forall i, j :: 0 <= i < j < |Distinct(s)| ==>
      FirstIndex(s, Distinct(s)[i]) < FirstIndex(s, Distinct(s)[j])
  {
    if s != [] {
      var init, last := s[..|s| - 1], s[|s| - 1];
      assert s == init + [last];
      var r := Distinct(init);
      DistinctInFirstOccurrenceOrder(init);
      var d := Distinct(s);
      forall i, j | 0 <= i < j < |d|
        ensures FirstIndex(s, d[i]) < FirstIndex(s, d[j])
      {
        assert d[i] == r[i] && d[i] in init;
        FirstIndexOfPrefix(init, [last], d[i]);
        if j < |r| {
          assert d[j] == r[j] && d[j] in init;
          FirstIndexOfPrefix(init, [last], d[j]);
        } else {
          assert d[j] == last && last !in init;
          assert forall m | 0 <= m < |init| :: s[m] == init[m] != last;
        }
      }
    }
  }

  /** The three-element case: `["a", "b", "a"]` gives `["a", "b"]`. */
  lemma DistinctKeepsFirstOccurrences()
    ensures Distinct(["a", "b", "a"]) == ["a", "b"]
  {
    assert ["a", "b", "a"][..2] == ["a", "b"];
    assert ["a", "b"][..1] == ["a"];
    assert ["a"][..0] == [];
  }

  /** The destination choices: every traveler's destination, no value twice,
      and nothing that is not some traveler's destination. */
  function Destinations(ts: seq<Traveler>): (r: seq<string>)
    ensures NoDuplicates(r)
    ensures forall i :: 0 <= i < |ts| ==> ts[i].destination in r
    ensures forall d :: d in r ==> exists i :: 0 <= i < |ts| && ts[i].destination == d
    ensures IsSubsequence(r, DestinationsOf(ts))
  {
    var all := DestinationsOf(ts);
    var r := Distinct(all);
    assert forall d :: d in r ==> exists i :: 0 <= i < |all| && all[i] == d;
    r
  }

  // ---------------------------------------------------------------------
  // Selection toggle

  /** `prev.filter(x => x !== id)`. */
  function Without(sel: seq<string>, id: string): (r: seq<string>)
    ensures forall x :: x in r <==> x in sel && x != id
    ensures forall x :: x != id ==> multiset(r)[x] == multiset(sel)[x]
    ensures id !in sel ==> r == sel
    ensures IsSubsequence(r, sel)
  {
    if sel == [] then []
    else
      var rest := Without(sel[1..], id);
      assert sel == [sel[0]] + sel[1..];
      if sel[0] == id then rest
      else
        assert ([sel[0]] + rest)[1..] == rest;
        [sel[0]] + rest
  }

  /** A click on a traveler: drop the id when it is selected, otherwise
      append it at the end. */
  function Toggled(sel: seq<string>, id: string): (r: seq<string>)
    ensures id in r <==> id !in sel
    ensures forall x :: x != id ==> (x in r <==> x in sel)
    ensures id !in sel ==> r == sel + [id]
    ensures id in sel ==> r == Without(sel, id)
    ensures id in sel ==> IsSubsequence(r, sel) && |r| < |sel|
  {
    if id in sel then
      var r := Without(sel, id);
      assert multiset(r)[id] == 0 < multiset(sel)[id];
      assert |r| < |sel| by {
        assert multiset(r) <= multiset(sel);
        assert multiset(r) != multiset(sel);
        SubmultisetSize(multiset(r), multiset(sel));
      }
      r
    else sel + [id]
  }

  lemma SubmultisetSize<T>(a: multiset<T>, b: multiset<T>)
    requires a <= b && a != b
    ensures |a| < |b|
  {
    var d := b - a;
    assert b == a + d;
    assert d != multiset{};
  }

  lemma NoDuplicatesCount(s: seq<string>, x: string)
    requires NoDuplicates(s)
    ensures multiset(s)[x] <= 1
    decreases |s|
  {
    if s != [] {
      assert s == [s[0]] + s[1..];
      NoDuplicatesCount(s[1..], x);
      if s[0] == x {
        assert x !in s[1..];
      }
    }
  }

  lemma {:induction false} WithoutKeepsNoDuplicates(sel: seq<string>, id: string)
    requires NoDuplicates(sel)
    ensures NoDuplicates(Without(sel, id))
    decreases |sel|
  {
    if sel != [] {
      var rest := Without(sel[1..], id);
      WithoutKeepsNoDuplicates(sel[1..], id);
      assert sel[0] !in sel[1..];
    }
  }

  /** A selection built by toggles never lists an id twice. */
  lemma ToggleKeepsNoDuplicates(sel: seq<string>, id: string)
    requires NoDuplicates(sel)
    ensures NoDuplicates(Toggled(sel, id))
  {
    if id in sel {
      WithoutKeepsNoDuplicates(sel, id);
    }
  }

  /** Toggling an unselected id twice restores the selection exactly. */
  lemma ToggleTwiceAbsent(sel: seq<string>, id: string)
    requires id !in sel
    ensures Toggled(Toggled(sel, id), id) == sel
  {
    var once := sel + [id];
    var twice := Without(once, id);
    assert twice == Without(sel, id) by { WithoutAppend(sel, id); }
  }

  lemma {:induction false} WithoutAppend(sel: seq<string>, id: string)
    ensures Without(sel + [id], id) == Without(sel, id)
    decreases |sel|
  {
    if sel == [] {
      assert Without([id], id) == Without([id][1..], id);
    } else {
      assert (sel + [id])[0] == sel[0] && (sel + [id])[1..] == sel[1..] + [id];
      WithoutAppend(sel[1..], id);
    }
  }

  /** Toggling a selected id twice gives back the same selection up to order:
      the id is re-appended at the end. */
  lemma ToggleTwicePresent(sel: seq<string>, id: string)
    requires NoDuplicates(sel) && id in sel
    ensures multiset(Toggled(Toggled(sel, id), id)) == multiset(sel)
    ensures Toggled(Toggled(sel, id), id) == Without(sel, id) + [id]
  {
    var once := Without(sel, id);
    NoDuplicatesCount(sel, id);
    assert multiset(sel)[id] == 1;
    var twice := once + [id];
    forall x ensures multiset(twice)[x] == multiset(sel)[x] {
      if x != id {
        assert multiset(once)[x] == multiset(sel)[x];
      }
    }
    assert multiset(twice) == multiset(sel);
  }

  /** The order change is real: selecting "1" then "2" and clicking "1"
      twice leaves "1" last. */
  lemma ToggleTwiceReorders()
    ensures Toggled(Toggled(["1", "2"], "1"), "1") == ["2", "1"]
  {
  }

  // ---------------------------------------------------------------------
  // Send-button guards

  /** The manual send button is enabled (`!(!content.trim() || !recipient)`)
      exactly when the body has a non-whitespace character and a traveler is
      chosen. */
  function ManualSendEnabled(messageContent: string, manualRecipient: string): (r: bool)
    ensures r <==> !IsBlank(messageContent) && manualRecipient != ""
  {
    TrimEmptyIffBlank(messageContent);
    Trim(messageContent) != "" && manualRecipient != ""
  }

  /** The bulk send button is enabled exactly when the body has a
      non-whitespace character and the selection is not empty. */
  function BulkSendEnabled(messageContent: string, selectedTravelers: seq<string>): (r: bool)
    ensures r <==> !IsBlank(messageContent) && selectedTravelers != []
  {
    TrimEmptyIffBlank(messageContent);
    Trim(messageContent) != "" && |selectedTravelers| != 0
  }
}
