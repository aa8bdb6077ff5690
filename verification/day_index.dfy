/** The portfolio's date index: the order-preserving selection of the
    holdings dated one day, the `date -> holdings` map built once from the
    holding list, and the first-match search used by buy, sell and weight. */
module DayIndex {
  import opened Wrappers
  import opened Holdings

  /** The holdings of `s` dated `day`, in their order in `s`. This is the
      reference meaning of "the holdings on a day". */
  function OnDay(s: seq<QuantifiedAsset>, day: int): (r: seq<QuantifiedAsset>)
    ensures |r| <= |s|
    ensures forall k | 0 <= k < |r| :: r[k].date == day
  {
    if s == [] then []
    else if s[0].date == day then [s[0]] + OnDay(s[1..], day)
    else OnDay(s[1..], day)
  }

  /** The selection holds exactly the holdings of `s` that are dated `day`. */
  lemma {:induction false} OnDayMembers(s: seq<QuantifiedAsset>, day: int, x: QuantifiedAsset)
    ensures x in OnDay(s, day) <==> x in s && x.date == day
  {
    if s != [] {
      OnDayMembers(s[1..], day, x);
      assert s == [s[0]] + s[1..];
    }
  }

  /** Selecting a day distributes over concatenation. */
  lemma {:induction false} OnDayConcat(a: seq<QuantifiedAsset>, b: seq<QuantifiedAsset>, day: int)
    ensures OnDay(a + b, day) == OnDay(a, day) + OnDay(b, day)
  {
    if a == [] {
      assert a + b == b;
    } else {
      assert (a + b)[1..] == a[1..] + b;
      OnDayConcat(a[1..], b, day);
    }
  }

  /** The holding at position `i` of `s` sits in its day's list right
      after the holdings of that day that precede it. */
  lemma {:induction false} OnDayAt(s: seq<QuantifiedAsset>, i: nat)
    requires i < |s|
    ensures |OnDay(s[..i], s[i].date)| < |OnDay(s, s[i].date)|
    ensures OnDay(s, s[i].date)[|OnDay(s[..i], s[i].date)|] == s[i]
  {
    var day := s[i].date;
    assert s == s[..i] + s[i..];
    OnDayConcat(s[..i], s[i..], day);
    assert s[i..][0] == s[i];
  }

  /** The index entry for `day`, or the empty list when the index has no
      entry for it. */
  function Lookup(index: map<int, seq<QuantifiedAsset>>, day: int): seq<QuantifiedAsset>
  {
    if day in index then index[day] else []
  }

  /** The date index built by one pass over `s` that appends every holding
      to its day's list; a day gets an entry only when a holding has it. */
  function BuildIndex(s: seq<QuantifiedAsset>): (index: map<int, seq<QuantifiedAsset>>)
    ensures forall day :: Lookup(index, day) == OnDay(s, day)
    ensures forall day :: day in index <==> OnDay(s, day) != []
    decreases |s|
  {
    if s == [] then map[]
    else
      var prior := BuildIndex(s[..|s| - 1]);
      var last := s[|s| - 1];
      OnDaySnoc(s);
      prior[last.date := Lookup(prior, last.date) + [last]]
  }

  /** Selecting a day from a non-empty list: the prefix's selection, then
      the last holding when it has that day. */
  lemma {:induction false} OnDaySnoc(s: seq<QuantifiedAsset>)
    requires s != []
    ensures forall day :: OnDay(s, day) == OnDay(s[..|s| - 1], day) + OnDay([s[|s| - 1]], day)
  {
    forall day
      ensures OnDay(s, day) == OnDay(s[..|s| - 1], day) + OnDay([s[|s| - 1]], day)
    {
      assert s == s[..|s| - 1] + [s[|s| - 1]];
      OnDayConcat(s[..|s| - 1], [s[|s| - 1]], day);
    }
  }

  /** Position of the first holding of `s` whose id is `id`; on one day's
      list this is the holding the portfolio acts on. */
  function FirstWithId(s: seq<QuantifiedAsset>, id: string): (r: Option<nat>)
    ensures r.Some? ==> r.value < |s| && s[r.value].id == id
    ensures r.Some? ==> forall k | 0 <= k < r.value :: s[k].id != id
    ensures r.None? ==> forall k | 0 <= k < |s| :: s[k].id != id
  {
    if s == [] then None
    else if s[0].id == id then Some(0)
    else match FirstWithId(s[1..], id)
      case None => None
      case Some(k) => Some(k + 1)
  }

  /** Whether holding `h` is asset `id` on `day`. */
  predicate Matches(h: QuantifiedAsset, id: string, day: int)
  {
    h.id == id && h.date == day
  }

  /** Position in the whole holding list of the first holding of asset
      `id` dated `day`. */
  function FirstMatch(s: seq<QuantifiedAsset>, id: string, day: int): (r: Option<nat>)
    ensures r.Some? ==> r.value < |s| && Matches(s[r.value], id, day)
    ensures r.Some? ==> forall k | 0 <= k < r.value :: !Matches(s[k], id, day)
    ensures r.None? ==> forall k | 0 <= k < |s| :: !Matches(s[k], id, day)
  {
    if s == [] then None
    else if Matches(s[0], id, day) then Some(0)
    else match FirstMatch(s[1..], id, day)
      case None => None
      case Some(k) => Some(k + 1)
  }

  /** Searching past a first element that does not carry `id` finds the
      rest's match, one position later. */
  lemma FirstWithIdSkip(h: QuantifiedAsset, rest: seq<QuantifiedAsset>, id: string)
    requires h.id != id
    ensures FirstWithId([h] + rest, id) ==
      match FirstWithId(rest, id) case None => None case Some(k) => Some(k + 1)
  {
    assert ([h] + rest)[1..] == rest;
  }

  /** Counting the day's holdings in a non-empty prefix: the first holding,
      if it has the day, then those of the rest of the prefix. */
  lemma OnDayPrefixCount(s: seq<QuantifiedAsset>, i: nat, day: int)
    requires i < |s|
    ensures |OnDay(s[..i + 1], day)| == (if s[0].date == day then 1 else 0) + |OnDay(s[1..][..i], day)|
  {
    assert s[..i + 1][1..] == s[1..][..i];
  }

  /** Searching the day's list for the first holding with `id` finds the
      same holding as searching the whole list for the first one with
      `id` and `day`: found at the day-list position that counts the
      holdings of that day before it, and absent exactly when absent. */
  lemma {:induction false} FirstMatchOnDay(s: seq<QuantifiedAsset>, id: string, day: int)
    ensures FirstMatch(s, id, day).None? <==> FirstWithId(OnDay(s, day), id).None?
    ensures FirstMatch(s, id, day).Some? ==>
      FirstWithId(OnDay(s, day), id) == Some(|OnDay(s[..FirstMatch(s, id, day).value], day)|)
  {
    if s == [] {
    } else if Matches(s[0], id, day) {
      assert s[..0] == [];
    } else {
      var t := s[1..];
      FirstMatchOnDay(t, id, day);
      if s[0].date == day {
        FirstWithIdSkip(s[0], OnDay(t, day), id);
      }
      if FirstMatch(t, id, day).Some? {
        OnDayPrefixCount(s, FirstMatch(t, id, day).value, day);
      }
    }
  }

  /** Replacing one holding by one with the same date replaces it in its
      day's list and leaves every other day's list as it was. */
  lemma {:induction false} UpdateOnDay(s: seq<QuantifiedAsset>, i: nat, x: QuantifiedAsset, day: int)
    requires i < |s| && x.date == s[i].date
    ensures day == x.date ==> |OnDay(s[..i], day)| < |OnDay(s, day)|
    ensures OnDay(s[i := x], day) ==
      if day == x.date then OnDay(s, day)[|OnDay(s[..i], day)| := x] else OnDay(s, day)
  {
    OnDayAt(s, i);
    var a, b := s[..i], s[i + 1..];
    assert s == a + [s[i]] + b;
    assert s[i := x] == a + [x] + b;
    OnDayConcat(a + [s[i]], b, day);
    OnDayConcat(a, [s[i]], day);
    OnDayConcat(a + [x], b, day);
    OnDayConcat(a, [x], day);
  }

  /** `index` maps exactly the days that have holdings in `s` to their
      holdings, in order. */
  ghost predicate Indexes(index: map<int, seq<QuantifiedAsset>>, s: seq<QuantifiedAsset>)
  {
    forall day :: (day in index <==> OnDay(s, day) != []) && Lookup(index, day) == OnDay(s, day)
  }

  /** The index built from `s` indexes `s`. */
  lemma BuildIndexIndexes(s: seq<QuantifiedAsset>)
    ensures Indexes(BuildIndex(s), s)
  {
  }

  /** Replacing holding `i` by `x` (same date) in an indexed list: the
      index of the new list is the old index with `x` in place of the old
      holding in its day's entry. */
  lemma {:induction false} IndexesAfterUpdate(m: map<int, seq<QuantifiedAsset>>, m': map<int, seq<QuantifiedAsset>>,
                                              s: seq<QuantifiedAsset>, i: nat, x: QuantifiedAsset)
    requires i < |s| && x.date == s[i].date
    requires Indexes(m, s) && Indexes(m', s[i := x])
    ensures |OnDay(s[..i], x.date)| < |Lookup(m, x.date)|
    ensures m' == m[x.date := Lookup(m, x.date)[|OnDay(s[..i], x.date)| := x]]
  {
    OnDayAt(s, i);
    var n := m[x.date := Lookup(m, x.date)[|OnDay(s[..i], x.date)| := x]];
    forall day
      ensures day in m' <==> day in n
      ensures day in n ==> m'[day] == n[day]
    {
      UpdateOnDay(s, i, x, day);
      assert Lookup(m', day) == OnDay(s[i := x], day);
      assert Lookup(m, day) == OnDay(s, day);
    }
    assert m'.Keys == n.Keys;
  }

  /** Updating a holding in place through the index, where the index
      shares the holding objects with the list, leaves the index equal to
      one rebuilt from the updated holding list. */
  lemma IndexAfterUpdate(s: seq<QuantifiedAsset>, i: nat, x: QuantifiedAsset)
    requires i < |s| && x.date == s[i].date
    ensures |OnDay(s[..i], x.date)| < |Lookup(BuildIndex(s), x.date)|
    ensures BuildIndex(s[i := x]) ==
      BuildIndex(s)[x.date := Lookup(BuildIndex(s), x.date)[|OnDay(s[..i], x.date)| := x]]
  {
    BuildIndexIndexes(s);
    BuildIndexIndexes(s[i := x]);
    IndexesAfterUpdate(BuildIndex(s), BuildIndex(s[i := x]), s, i, x);
  }
}
