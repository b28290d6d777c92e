/** Counting the names of a table that is written as a union of groups,
    each holding names of one length: groups of different lengths never
    share a name, so their sizes add up.  This module models no part of
    the system; it only supports counting the COCO table's names. */
module NameGroups {

  /** Every name in `m` has length `l`. */
  predicate AllOfLength<V>(m: map<string, V>, l: nat)
  {
    forall k :: k in m ==> |k| == l
  }

  /** Every name in `m` is shorter than `l`. */
  predicate Shorter<V>(m: map<string, V>, l: nat)
  {
    forall k :: k in m ==> |k| < l
  }

  /** Every name in `m` has length `l` or more. */
  predicate AtLeast<V>(m: map<string, V>, l: nat)
  {
    forall k :: k in m ==> |k| >= l
  }

  /** Short names and long names never collide, so the union of a map of
      short names and a map of long names has all the names of both. */
  lemma AddLonger<V>(a: map<string, V>, b: map<string, V>, l: nat)
    requires Shorter(a, l) && AtLeast(b, l)
    ensures |(a + b).Keys| == |a.Keys| + |b.Keys|
  {
    assert (a + b).Keys == a.Keys + b.Keys;
    assert a.Keys * b.Keys == {};
  }

  /** Adding a group of length `l` to names shorter than `l` gives names
      shorter than `l + 1`, with the group's names added to the count. */
  lemma AddLongerGroup<V>(a: map<string, V>, b: map<string, V>, l: nat)
    requires Shorter(a, l) && AllOfLength(b, l)
    ensures |(a + b).Keys| == |a.Keys| + |b.Keys|
    ensures Shorter(a + b, l + 1)
  {
    AddLonger(a, b, l);
  }

  /** Groups of lengths 2 to 5 with 1, 8, 12 and 15 names: 36 names, all
      shorter than 6. */
  lemma ShortGroupsAddUp<V>(g2: map<string, V>, g3: map<string, V>, g4: map<string, V>, g5: map<string, V>)
    requires AllOfLength(g2, 2) && |g2.Keys| == 1
    requires AllOfLength(g3, 3) && |g3.Keys| == 8
    requires AllOfLength(g4, 4) && |g4.Keys| == 12
    requires AllOfLength(g5, 5) && |g5.Keys| == 15
    ensures |(g2 + g3 + g4 + g5).Keys| == 36
    ensures Shorter(g2 + g3 + g4 + g5, 6)
  {
    assert Shorter(g2, 3);
    AddLongerGroup(g2, g3, 3);
    AddLongerGroup(g2 + g3, g4, 4);
    AddLongerGroup(g2 + g3 + g4, g5, 5);
  }

  /** Names of length at least `l` stay so when a group of longer names
      is added. */
  lemma AtLeastUnion<V>(a: map<string, V>, b: map<string, V>, l: nat, m: nat)
    requires AtLeast(a, l) && AllOfLength(b, m) && l <= m
    ensures AtLeast(a + b, l)
  {
  }

  /** Groups of lengths 7 to 14 with 6, 9, 4, 7, 1, 5, 3 and 1 names: 36
      names, none shorter than 7. */
  lemma LongGroupsAddUp<V>(
      g7: map<string, V>, g8: map<string, V>, g9: map<string, V>, g10: map<string, V>,
      g11: map<string, V>, g12: map<string, V>, g13: map<string, V>, g14: map<string, V>)
    requires AllOfLength(g7, 7) && |g7.Keys| == 6
    requires AllOfLength(g8, 8) && |g8.Keys| == 9
    requires AllOfLength(g9, 9) && |g9.Keys| == 4
    requires AllOfLength(g10, 10) && |g10.Keys| == 7
    requires AllOfLength(g11, 11) && |g11.Keys| == 1
    requires AllOfLength(g12, 12) && |g12.Keys| == 5
    requires AllOfLength(g13, 13) && |g13.Keys| == 3
    requires AllOfLength(g14, 14) && |g14.Keys| == 1
    ensures |(g7 + g8 + g9 + g10 + g11 + g12 + g13 + g14).Keys| == 36
    ensures AtLeast(g7 + g8 + g9 + g10 + g11 + g12 + g13 + g14, 7)
  {
    assert Shorter(g7, 8);
    AddLongerGroup(g7, g8, 8);
    AddLongerGroup(g7 + g8, g9, 9);
    AddLongerGroup(g7 + g8 + g9, g10, 10);
    AddLongerGroup(g7 + g8 + g9 + g10, g11, 11);
    AddLongerGroup(g7 + g8 + g9 + g10 + g11, g12, 12);
    AddLongerGroup(g7 + g8 + g9 + g10 + g11 + g12, g13, 13);
    AddLongerGroup(g7 + g8 + g9 + g10 + g11 + g12 + g13, g14, 14);
    assert AtLeast(g7, 7);
    AtLeastUnion(g7, g8, 7, 8);
    AtLeastUnion(g7 + g8, g9, 7, 9);
    AtLeastUnion(g7 + g8 + g9, g10, 7, 10);
    AtLeastUnion(g7 + g8 + g9 + g10, g11, 7, 11);
    AtLeastUnion(g7 + g8 + g9 + g10 + g11, g12, 7, 12);
    AtLeastUnion(g7 + g8 + g9 + g10 + g11 + g12, g13, 7, 13);
    AtLeastUnion(g7 + g8 + g9 + g10 + g11 + g12 + g13, g14, 7, 14);
  }

  /** A table made of short names, a group of length `l` and long names
      has as many names as the three together. */
  lemma BandCount<V>(s: map<string, V>, g: map<string, V>, t: map<string, V>, l: nat)
    requires Shorter(s, l) && AllOfLength(g, l) && AtLeast(t, l + 1)
    ensures |(s + g + t).Keys| == |s.Keys| + |g.Keys| + |t.Keys|
  {
    AddLongerGroup(s, g, l);
    AddLonger(s + g, t, l + 1);
  }

  /** A name of length `l` is found in such a table exactly when it is in
      the middle group, and then with the group's value. */
  lemma MiddleBand<V>(s: map<string, V>, g: map<string, V>, t: map<string, V>, l: nat, name: string)
    requires Shorter(s, l) && AllOfLength(g, l) && AtLeast(t, l + 1)
    requires |name| == l
    ensures name in s + g + t <==> name in g
    ensures name in g ==> (s + g + t)[name] == g[name]
  {
  }

  /** Bands of 36 short names, 8 names of length 6 and 36 longer names
      make 80 names. */
  lemma SumOfBands<V>(s: map<string, V>, g: map<string, V>, t: map<string, V>)
    requires Shorter(s, 6) && AllOfLength(g, 6) && AtLeast(t, 7)
    requires |s.Keys| == 36 && |g.Keys| == 8 && |t.Keys| == 36
    ensures |(s + g + t).Keys| == 80
  {
    BandCount(s, g, t, 6);
  }

  /** Groups of lengths 2 to 5 hold only names shorter than 6. */
  lemma ShortBand<V>(g2: map<string, V>, g3: map<string, V>, g4: map<string, V>, g5: map<string, V>)
    requires AllOfLength(g2, 2) && AllOfLength(g3, 3) && AllOfLength(g4, 4) && AllOfLength(g5, 5)
    ensures Shorter(g2 + g3 + g4 + g5, 6)
  {
  }

  /** Groups of lengths 7 to 14 hold only names of length 7 or more. */
  lemma LongBand<V>(
      g7: map<string, V>, g8: map<string, V>, g9: map<string, V>, g10: map<string, V>,
      g11: map<string, V>, g12: map<string, V>, g13: map<string, V>, g14: map<string, V>)
    requires AllOfLength(g7, 7) && AllOfLength(g8, 8) && AllOfLength(g9, 9) && AllOfLength(g10, 10)
    requires AllOfLength(g11, 11) && AllOfLength(g12, 12) && AllOfLength(g13, 13) && AllOfLength(g14, 14)
    ensures AtLeast(g7 + g8 + g9 + g10 + g11 + g12 + g13 + g14, 7)
  {
  }
}
