/** The search filter every list screen applies: `collection.filter(r => f1.includes(t) || ...)`
    where t is the lower-cased search term and f1, f2, ... are the record's searchable fields
    as the screen prepares them (its "haystacks"). */
module Filtering {
  import opened Text

  /** A record is kept when the lower-cased term occurs in at least one of its haystacks. */
  predicate Matches<T>(x: T, term: string, haystacks: T -> seq<string>)
    ensures Matches(x, term, haystacks) ==>
      exists i :: 0 <= i < |haystacks(x)| && |term| <= |haystacks(x)[i]|
    ensures term == "" ==> (Matches(x, term, haystacks) <==> |haystacks(x)| > 0)
  {
    var needle := Lower(term);
    assert term == "" && |haystacks(x)| > 0 ==> Contains(haystacks(x)[0], needle);
    exists i :: 0 <= i < |haystacks(x)| && Contains(haystacks(x)[i], needle)
  }

  /** a can be obtained from b by deleting elements: the order of what is kept is preserved. */
  predicate IsSubsequence<T(==)>(a: seq<T>, b: seq<T>)
    decreases |b|
  {
    if a == [] then true
    else if b == [] then false
    else (a[0] == b[0] && IsSubsequence(a[1..], b[1..])) || IsSubsequence(a, b[1..])
  }

  lemma {:induction false} SubsequenceReflexive<T>(s: seq<T>)
    ensures IsSubsequence(s, s)
    decreases |s|
  {
    if s != [] {
      SubsequenceReflexive(s[1..]);
    }
  }

  /** `collection.filter(...)`: the matching records, in their original order. */
  function Filter<T(==)>(s: seq<T>, term: string, haystacks: T -> seq<string>): (r: seq<T>)
    ensures |r| <= |s|
    ensures forall k :: 0 <= k < |r| ==> r[k] in s && Matches(r[k], term, haystacks)
    ensures forall k :: 0 <= k < |s| && Matches(s[k], term, haystacks) ==> s[k] in r
    ensures IsSubsequence(r, s)
  {
    if s == [] then []
    else
      var rest := Filter(s[1..], term, haystacks);
      assert s == [s[0]] + s[1..];
      if Matches(s[0], term, haystacks) then
        assert ([s[0]] + rest)[1..] == rest;
        [s[0]] + rest
      else
        SkipHead(rest, s);
        rest
  }

  /** A subsequence of the tail is a subsequence of the whole. */
  lemma SkipHead<T>(a: seq<T>, s: seq<T>)
    requires s != [] && IsSubsequence(a, s[1..])
    ensures IsSubsequence(a, s)
  {
  }

  /** Filtering a concatenation filters each part: together with the one-record case this
      pins Filter down completely. */
  lemma {:induction false} FilterAppend<T>(a: seq<T>, b: seq<T>, term: string, haystacks: T -> seq<string>)
    ensures Filter(a + b, term, haystacks) == Filter(a, term, haystacks) + Filter(b, term, haystacks)
    decreases |a|
  {
    if a == [] {
      assert a + b == b;
    } else {
      assert (a + b)[1..] == a[1..] + b;
      FilterAppend(a[1..], b, term, haystacks);
    }
  }

  /** A single record is kept exactly when it matches. */
  lemma FilterSingle<T>(x: T, term: string, haystacks: T -> seq<string>)
    ensures Filter([x], term, haystacks) == if Matches(x, term, haystacks) then [x] else []
  {
    assert [x][1..] == [];
  }

  /** Filtering the filtered list again with the same term changes nothing. */
  lemma {:induction false} FilterIdempotent<T>(s: seq<T>, term: string, haystacks: T -> seq<string>)
    ensures Filter(Filter(s, term, haystacks), term, haystacks) == Filter(s, term, haystacks)
    decreases |s|
  {
    if s != [] {
      FilterIdempotent(s[1..], term, haystacks);
      var rest := Filter(s[1..], term, haystacks);
      if Matches(s[0], term, haystacks) {
        assert ([s[0]] + rest)[1..] == rest;
      }
    }
  }

  /** The case of the term does not matter: the term is lower-cased before comparing. */
  lemma {:induction false} FilterIgnoresTermCase<T>(s: seq<T>, term: string, haystacks: T -> seq<string>)
    ensures Filter(s, term, haystacks) == Filter(s, Lower(term), haystacks)
    decreases |s|
  {
    LowerIdempotent(term);
    if s != [] {
      FilterIgnoresTermCase(s[1..], term, haystacks);
    }
  }

  /** The empty term keeps every record that has at least one searchable field. */
  lemma {:induction false} FilterEmptyTermKeepsAll<T>(s: seq<T>, haystacks: T -> seq<string>)
    requires forall k :: 0 <= k < |s| ==> |haystacks(s[k])| > 0
    ensures Filter(s, "", haystacks) == s
    decreases |s|
  {
    if s != [] {
      EmptyIsContained(haystacks(s[0])[0]);
      assert Lower("") == "";
      assert Matches(s[0], "", haystacks);
      FilterEmptyTermKeepsAll(s[1..], haystacks);
      assert s == [s[0]] + s[1..];
    }
  }

  /** The filtered list is empty exactly when no record of the collection matches. */
  lemma FilterEmptyIff<T>(s: seq<T>, term: string, haystacks: T -> seq<string>)
    ensures Filter(s, term, haystacks) == [] <==> forall k :: 0 <= k < |s| ==> !Matches(s[k], term, haystacks)
  {
    var r := Filter(s, term, haystacks);
    if r != [] {
      var j :| 0 <= j < |s| && s[j] == r[0];
      assert Matches(s[j], term, haystacks);
    }
  }

  /** A record of the collection is in the filtered list exactly when it matches. */
  lemma KeptIffMatches<T>(s: seq<T>, term: string, haystacks: T -> seq<string>, k: nat)
    requires k < |s|
    ensures s[k] in Filter(s, term, haystacks) <==> Matches(s[k], term, haystacks)
  {
    var r := Filter(s, term, haystacks);
    if s[k] in r {
      var j :| 0 <= j < |r| && r[j] == s[k];
      assert Matches(r[j], term, haystacks);
    }
  }
}
