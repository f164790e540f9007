/** The Array and Object operations the graph store is built from:
    `Array.prototype.indexOf`, `splice(i, 1)`, and the agreement between an
    insertion-ordered list and the dictionary that indexes it by key. */
module Collections {

  /** `s.indexOf(x)`: the first position holding `x`, or -1. */
  function IndexOf<T(==)>(s: seq<T>, x: T): (r: int)
    ensures -1 <= r < |s|
    ensures r == -1 <==> x !in s
    ensures r >= 0 ==> s[r] == x && x !in s[..r]
  {
    if |s| == 0 then -1
    else if s[0] == x then 0
    else
      var r := IndexOf(s[1..], x);
      if r == -1 then -1 else r + 1
  }

  /** `s.splice(start, 1)` on a copy: a negative start counts from the end
      (and is clamped to 0); a start at or past the end removes nothing. When
      `start` names a position, that one element is taken out, the elements
      before it stay and those after it move down one place. */
  function Splice<T>(s: seq<T>, start: int): (r: seq<T>)
    ensures var at := SpliceAt(|s|, start);
            && (at < |s| ==> && |r| == |s| - 1
                             && multiset(r) + multiset{s[at]} == multiset(s)
                             && forall j :: 0 <= j < |r| ==> r[j] == if j < at then s[j] else s[j + 1])
            && (at == |s| ==> r == s)
  {
    var at := SpliceAt(|s|, start);
    if at < |s| then
      DropOne(s, at);
      s[..at] + s[at + 1..]
    else s
  }

  /** The position `splice(start, 1)` removes from an array of length `len`,
      where `len` means nothing is removed. An element goes exactly when the
      start is short of the end of a non-empty array. A start in range is that
      position, a negative one counts `-start` places back from the end, and one
      further back than the whole array is clamped to the first element. */
  function SpliceAt(len: nat, start: int): (at: nat)
    ensures at <= len
    ensures at < len <==> start < len && 0 < len
    ensures 0 <= start < len ==> at == start
    ensures start < 0 <= start + len ==> at - start == len
    ensures start + len < 0 ==> at == 0
  {
    if start >= 0 then (if start < len then start else len)
    else if len + start >= 0 then len + start else 0
  }

  /** `list.splice(list.indexOf(x), 1)`, the removal every `remove*` does. */
  function RemoveFirst<T(==)>(list: seq<T>, x: T): seq<T>
  {
    Splice(list, IndexOf(list, x))
  }

  /** Removing an element that is present deletes its first occurrence and
      nothing else. */
  lemma RemovePresent<T>(list: seq<T>, x: T)
    requires x in list
    ensures var i := IndexOf(list, x);
            && RemoveFirst(list, x) == list[..i] + list[i + 1..]
            && multiset(RemoveFirst(list, x)) == multiset(list) - multiset{x}
  {
    var i := IndexOf(list, x);
    assert SpliceAt(|list|, i) == i;
    DropOne(list, i);
  }

  /** Dropping position `i` takes one copy of `list[i]` out of the multiset. */
  lemma DropOne<T>(list: seq<T>, i: nat)
    requires i < |list|
    ensures multiset(list[..i] + list[i + 1..]) == multiset(list) - multiset{list[i]}
  {
    assert list == list[..i] + [list[i]] + list[i + 1..];
    assert multiset(list) == multiset(list[..i]) + multiset{list[i]} + multiset(list[i + 1..]);
  }

  /** After the removal, position `j` holds what position `j` or `j + 1`
      held before. */
  lemma RemoveShifts<T>(list: seq<T>, x: T)
    requires x in list
    ensures var i, list' := IndexOf(list, x), RemoveFirst(list, x);
            && |list'| == |list| - 1
            && forall j :: 0 <= j < |list'| ==> list'[j] == list[if j < i then j else j + 1]
  {
    var i := IndexOf(list, x);
    assert SpliceAt(|list|, i) == i;
  }

  /** Removing an element that is absent deletes the LAST element instead,
      because `indexOf` answers -1 and `splice(-1, 1)` counts from the end. */
  lemma RemoveAbsent<T>(list: seq<T>, x: T)
    requires x !in list
    ensures list != [] ==> RemoveFirst(list, x) == list[..|list| - 1]
    ensures list == [] ==> RemoveFirst(list, x) == []
  {
  }

  /** The list and its index agree: keys are unique in the list, the index
      holds every element of the list under its key, and nothing else. */
  ghost predicate Agrees<T>(list: seq<T>, index: map<string, T>, key: T -> string)
  {
    DistinctKeys(list, key) && Indexed(list, index, key) && Listed(list, index, key)
  }

  ghost predicate DistinctKeys<T>(list: seq<T>, key: T -> string)
  {
    forall i, j :: 0 <= i < j < |list| ==> key(list[i]) != key(list[j])
  }

  ghost predicate Indexed<T>(list: seq<T>, index: map<string, T>, key: T -> string)
  {
    forall i :: 0 <= i < |list| ==> key(list[i]) in index && index[key(list[i])] == list[i]
  }

  ghost predicate Listed<T>(list: seq<T>, index: map<string, T>, key: T -> string)
  {
    forall k :: k in index ==> index[k] in list && key(index[k]) == k
  }

  /** Every entry of the index is filed under its own key: what
      `index[key(x)] = x` guarantees whatever else happens to the list. */
  ghost predicate Keyed<T>(index: map<string, T>, key: T -> string)
  {
    forall k :: k in index ==> key(index[k]) == k
  }

  /** An add (`list.push(x); index[key(x)] = x`) keeps the two in agreement
      when the key is new. */
  lemma AgreesAfterAdd<T>(list: seq<T>, index: map<string, T>, key: T -> string, x: T)
    requires Agrees(list, index, key)
    requires key(x) !in index
    ensures Agrees(list + [x], index[key(x) := x], key)
  {
    var list', index' := list + [x], index[key(x) := x];
    forall i, j | 0 <= i < j < |list'| ensures key(list'[i]) != key(list'[j]) {
      if j == |list| { assert list'[i] == list[i]; }
    }
    forall j | 0 <= j < |list'| ensures key(list'[j]) in index' && index'[key(list'[j])] == list'[j] {
      if j < |list| {
        assert list'[j] == list[j];
      }
    }
  }

  /** An add under a key already in use breaks the agreement: the element
      the index held before stays in the list but is no longer indexed. */
  lemma DuplicateAddOrphans<T>(list: seq<T>, index: map<string, T>, key: T -> string, x: T)
    requires Agrees(list, index, key)
    requires key(x) in index && index[key(x)] != x
    ensures var previous := index[key(x)];
            previous in list + [x] && previous !in index[key(x) := x].Values
            && !Agrees(list + [x], index[key(x) := x], key)
  {
    var previous := index[key(x)];
    var index' := index[key(x) := x];
    assert previous in list;
  }

  /** A remove of a listed element (`list.splice(list.indexOf(x), 1);
      delete index[key(x)]`) keeps the two in agreement. */
  lemma AgreesAfterRemove<T>(list: seq<T>, index: map<string, T>, key: T -> string, x: T)
    requires Agrees(list, index, key)
    requires x in list
    ensures Agrees(RemoveFirst(list, x), index - {key(x)}, key)
  {
    RemoveShifts(list, x);
    RemoveKeepsDistinct(list, key, x);
    RemoveKeepsIndexed(list, index, key, x);
    RemoveKeepsListed(list, index, key, x);
  }

  lemma RemoveKeepsDistinct<T>(list: seq<T>, key: T -> string, x: T)
    requires DistinctKeys(list, key) && x in list
    ensures DistinctKeys(RemoveFirst(list, x), key)
  {
    var i, list' := IndexOf(list, x), RemoveFirst(list, x);
    RemoveShifts(list, x);
    forall a, b | 0 <= a < b < |list'| ensures key(list'[a]) != key(list'[b]) {
      var a', b' := (if a < i then a else a + 1), (if b < i then b else b + 1);
      assert list'[a] == list[a'] && list'[b] == list[b'];
    }
  }

  lemma RemoveKeepsIndexed<T>(list: seq<T>, index: map<string, T>, key: T -> string, x: T)
    requires DistinctKeys(list, key) && Indexed(list, index, key) && x in list
    ensures Indexed(RemoveFirst(list, x), index - {key(x)}, key)
  {
    var i, list' := IndexOf(list, x), RemoveFirst(list, x);
    RemoveShifts(list, x);
    forall j | 0 <= j < |list'| ensures key(list'[j]) in index - {key(x)} && (index - {key(x)})[key(list'[j])] == list'[j] {
      var j' := if j < i then j else j + 1;
      assert list'[j] == list[j'] && j' != i;
      if j' < i { assert key(list[j']) != key(list[i]); }
      else { assert key(list[i]) != key(list[j']); }
    }
  }

  lemma RemoveKeepsListed<T>(list: seq<T>, index: map<string, T>, key: T -> string, x: T)
    requires Indexed(list, index, key) && Listed(list, index, key) && x in list
    ensures Listed(RemoveFirst(list, x), index - {key(x)}, key)
  {
    var i := IndexOf(list, x);
    RemovePresent(list, x);
    forall k | k in index - {key(x)} ensures (index - {key(x)})[k] in RemoveFirst(list, x) {
      var y := index[k];
      assert index[key(list[i])] == x;
      assert y != x;
      assert multiset(RemoveFirst(list, x))[y] == multiset(list)[y];
    }
  }
}
