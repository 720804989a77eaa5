/** `boost::container::flat_set<account_uid_type>`: a set of account ids
    stored as a strictly increasing vector. The content header's authority
    methods receive one by reference and call `insert` on it; this module
    models that container and its `insert`. */
module FlatSets {
  import opened ProtocolTypes

  /** The flat_set invariant: elements in increasing order, no duplicates. */
  ghost predicate StrictlySorted(s: seq<Uid>) {
    forall j, k :: 0 <= j < k < |s| ==> s[j] < s[k]
  }

  /** The mathematical set a vector holds. */
  function Elements(s: seq<Uid>): set<Uid> {
    set x | x in s
  }

  /** In a strictly sorted vector no element occurs twice, so the vector is
      exactly as long as the set it holds. */
  lemma {:induction false} CardinalityOfElements(s: seq<Uid>)
    requires StrictlySorted(s)
    ensures |Elements(s)| == |s|
  {
    if s != [] {
      var tail := s[1..];
      assert StrictlySorted(tail);
      CardinalityOfElements(tail);
      assert Elements(s) == {s[0]} + Elements(tail);
      assert s[0] !in Elements(tail);
    }
  }

  /** A strictly sorted vector is determined by its set of elements: the
      set-level postconditions below therefore pin down the whole vector. */
  lemma {:induction false} SortedDeterminedByElements(s: seq<Uid>, t: seq<Uid>)
    requires StrictlySorted(s) && StrictlySorted(t)
    requires Elements(s) == Elements(t)
    ensures s == t
  {
    if s == [] || t == [] {
      CardinalityOfElements(s);
      CardinalityOfElements(t);
    } else {
      assert s[0] == t[0] by {
        assert s[0] in Elements(t);
        assert t[0] in Elements(s);
        var j :| 0 <= j < |t| && t[j] == s[0];
        var k :| 0 <= k < |s| && s[k] == t[0];
        assert t[0] <= t[j];
        assert s[0] <= s[k];
      }
      var s', t' := s[1..], t[1..];
      assert StrictlySorted(s') && StrictlySorted(t');
      assert Elements(s') == Elements(s) - {s[0]} by {
        assert Elements(s) == {s[0]} + Elements(s');
        assert s[0] !in Elements(s');
      }
      assert Elements(t') == Elements(t) - {t[0]} by {
        assert Elements(t) == {t[0]} + Elements(t');
        assert t[0] !in Elements(t');
      }
      SortedDeterminedByElements(s', t');
      assert s == [s[0]] + s';
      assert t == [t[0]] + t';
    }
  }

  /** `lower_bound`: binary search for the first position whose element is
      not below `x`. */
  method LowerBound(s: seq<Uid>, x: Uid) returns (i: nat)
    requires StrictlySorted(s)
    ensures i <= |s|
    ensures forall k :: 0 <= k < i ==> s[k] < x
    ensures forall k :: i <= k < |s| ==> x <= s[k]
  {
    var lo, hi := 0, |s|;
    while lo < hi
      invariant 0 <= lo <= hi <= |s|
      invariant forall k :: 0 <= k < lo ==> s[k] < x
      invariant forall k :: hi <= k < |s| ==> x <= s[k]
    {
      var mid := lo + (hi - lo) / 2;
      if s[mid] < x {
        lo := mid + 1;
      } else {
        hi := mid;
      }
    }
    i := lo;
  }

  /** Vector insertion of a new element at its lower bound keeps the vector
      strictly sorted and adds exactly that element. */
  function InsertAt(s: seq<Uid>, i: nat, x: Uid): (r: seq<Uid>)
    requires StrictlySorted(s) && i <= |s|
    requires forall k :: 0 <= k < i ==> s[k] < x
    requires forall k :: i <= k < |s| ==> x < s[k]
    ensures StrictlySorted(r)
    ensures Elements(r) == Elements(s) + {x}
    ensures |r| == |s| + 1
  {
    var r := s[..i] + [x] + s[i..];
    assert forall k :: 0 <= k < |r| ==> r[k] == if k < i then s[k] else if k == i then x else s[k - 1];
    assert Elements(r) == Elements(s) + {x} by {
      assert s == s[..i] + s[i..];
    }
    r
  }

  /** The caller-supplied `flat_set<account_uid_type>& a`. */
  class FlatSet {
    var items: seq<Uid>

    ghost predicate Valid()
      reads this
    {
      StrictlySorted(items)
    }

    /** The set the container currently represents. */
    function Contents(): set<Uid>
      reads this
    {
      Elements(items)
    }

    /** A default-constructed, empty flat_set. */
    constructor ()
      ensures Valid() && items == []
    {
      items := [];
    }

    /** `insert(x)`: adds `x` unless it is already present; reports whether
        it was added, as the `bool` of flat_set's `pair<iterator, bool>`. */
    method Insert(x: Uid) returns (inserted: bool)
      requires Valid()
      modifies this
      ensures Valid()
      ensures Contents() == old(Contents()) + {x}
      ensures inserted <==> x !in old(Contents())
      ensures !inserted ==> items == old(items)
      ensures |items| == old(|items|) + (if inserted then 1 else 0)
    {
      var i := LowerBound(items, x);
      if i < |items| && items[i] == x {
        inserted := false;
      } else {
        assert x !in Elements(items);
        items := InsertAt(items, i, x);
        inserted := true;
      }
    }
  }
}
