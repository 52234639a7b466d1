/** Arrays of subdocuments (experience and education entries), and the delete loop
    the profile handlers run over them:

        list.map(item => { if (item._id == id) list.splice(item._id, 1); })

    Array.prototype.map fixes the number of visits n at the start, then for each index
    k below n visits the CURRENT element at k if the array is still that long. The
    splice start is the matching ObjectId itself, coerced to a number. */
module Subdocs {
  import opened JsArray

  /** A subdocument: its generated id (the hex string of its ObjectId) and its fields. */
  datatype Sub<T> = Sub(id: string, val: T)

  function Ids<T>(s: seq<Sub<T>>): (r: seq<string>)
    ensures |r| == |s| && forall i :: 0 <= i < |s| ==> r[i] == s[i].id
  {
    if s == [] then [] else [s[0].id] + Ids(s[1..])
  }

  /** No two entries share an id, as generated ObjectIds guarantee. */
  predicate UniqueIds<T>(s: seq<Sub<T>>) {
    forall i, j :: 0 <= i < j < |s| ==> s[i].id != s[j].id
  }

  /** Every entry's id is the string form of an ObjectId, which is the only alphabet the
      splice start is coerced over. */
  predicate StoredIds<T>(s: seq<Sub<T>>) {
    forall i :: 0 <= i < |s| ==> IsStoredId(s[i].id)
  }

  /** The array after the visits k..n-1 of the delete loop, starting from `cur`.
      The loop only ever removes entries: it never adds or duplicates one. */
  function DeleteScanFrom<T>(cur: seq<Sub<T>>, k: nat, n: nat, id: string): (r: seq<Sub<T>>)
    ensures |r| <= |cur|
    ensures multiset(r) <= multiset(cur)
    decreases n - k
  {
    if k >= n then cur
    else if k < |cur| && cur[k].id == id then DeleteScanFrom(SpliceOne(cur, NumericIndex(cur[k].id)), k + 1, n, id)
    else DeleteScanFrom(cur, k + 1, n, id)
  }

  /** The array after the whole delete loop. */
  function DeleteScan<T>(s: seq<Sub<T>>, id: string): seq<Sub<T>> {
    DeleteScanFrom(s, 0, |s|, id)
  }

  /** The delete loop as the handlers run it, on the array it mutates. With unique ids it
      removes one entry when some entry has the id, and that entry is the one at the
      position the id coerces to, not the one that matched. */
  method DeleteMatching<T>(list: seq<Sub<T>>, id: string) returns (r: seq<Sub<T>>)
    ensures r == DeleteScan(list, id)
    ensures UniqueIds(list) ==> r == (if id in Ids(list) then SpliceOne(list, NumericIndex(id)) else list)
  {
    var n := |list|;
    r := list;
    var k := 0;
    while k < n
      invariant k <= n
      invariant DeleteScanFrom(r, k, n, id) == DeleteScan(list, id)
    {
      if k < |r| && r[k].id == id {
        var removeIndex := r[k].id;
        r := SpliceOne(r, NumericIndex(removeIndex));
      }
      k := k + 1;
    }
    if UniqueIds(list) {
      DeleteScanUnique(list, id);
    }
  }

  /** Visits over entries that do not carry the id change nothing. */
  lemma {:induction false} ScanWithoutMatch<T>(cur: seq<Sub<T>>, k: nat, n: nat, id: string)
    requires forall j :: k <= j < |cur| ==> cur[j].id != id
    ensures DeleteScanFrom(cur, k, n, id) == cur
    decreases n - k
  {
    if k < n {
      ScanWithoutMatch(cur, k + 1, n, id);
    }
  }

  /** The entry at position i is the only one carrying `id`. */
  predicate OnlyMatchAt<T>(cur: seq<Sub<T>>, i: nat, id: string) {
    i < |cur| && cur[i].id == id && forall j :: 0 <= j < |cur| && j != i ==> cur[j].id != id
  }

  /** Visits before the match at position i change nothing. */
  lemma {:induction false} ScanToMatch<T>(cur: seq<Sub<T>>, k: nat, i: nat, n: nat, id: string)
    requires k <= i <= n && i <= |cur|
    requires forall j :: k <= j < i ==> cur[j].id != id
    ensures DeleteScanFrom(cur, k, n, id) == DeleteScanFrom(cur, i, n, id)
    decreases i - k
  {
    if k < i {
      SkipVisit(cur, k, n, id);
      ScanToMatch(cur, k + 1, i, n, id);
    }
  }

  /** A visit to an entry that does not carry the id changes nothing. */
  lemma SkipVisit<T>(cur: seq<Sub<T>>, k: nat, n: nat, id: string)
    requires k < n && k < |cur| && cur[k].id != id
    ensures DeleteScanFrom(cur, k, n, id) == DeleteScanFrom(cur, k + 1, n, id)
  {
  }

  /** The visit that finds the only match splices once; no later visit finds it again. */
  lemma MatchVisit<T>(cur: seq<Sub<T>>, i: nat, n: nat, id: string)
    requires OnlyMatchAt(cur, i, id) && i < n
    ensures DeleteScanFrom(cur, i, n, id) == SpliceOne(cur, NumericIndex(id))
  {
    var next := SpliceOne(cur, NumericIndex(id));
    assert DeleteScanFrom(cur, i, n, id) == DeleteScanFrom(next, i + 1, n, id);
    NoMatchAfterSplice(cur, i, NumericIndex(id), id);
    ScanWithoutMatch(next, i + 1, n, id);
  }

  /** After any one splice no entry past position i carries the id that only position i had. */
  lemma NoMatchAfterSplice<T>(cur: seq<Sub<T>>, i: nat, p: nat, id: string)
    requires OnlyMatchAt(cur, i, id)
    ensures forall j :: i + 1 <= j < |SpliceOne(cur, p)| ==> SpliceOne(cur, p)[j].id != id
  {
    var next := SpliceOne(cur, p);
    SpliceOneEffect(cur, p);
    forall j | i + 1 <= j < |next| ensures next[j].id != id {
      if j < p { assert next[j] == cur[j]; } else { assert next[j] == cur[j + 1]; }
    }
  }

  /** The delete loop, for unique ids: unchanged when no entry has the id; otherwise
      spliced once at the position the id coerces to. */
  lemma DeleteScanUnique<T>(s: seq<Sub<T>>, id: string)
    requires UniqueIds(s)
    ensures DeleteScan(s, id) == (if id in Ids(s) then SpliceOne(s, NumericIndex(id)) else s)
  {
    if id in Ids(s) {
      var i :| 0 <= i < |s| && Ids(s)[i] == id;
      assert OnlyMatchAt(s, i, id);
      ScanToMatch(s, 0, i, |s|, id);
      MatchVisit(s, i, |s|, id);
    } else {
      ScanWithoutMatch(s, 0, |s|, id);
    }
  }

  /** For an id that is NaN as a number (any string that is not a decimal, exponent or
      "0b" binary literal, including every ObjectId with a letter other than "e" that is
      not a "0b" literal), deleting an id that is present removes exactly one entry, the first one, whichever
      entry matched; deleting an id that is absent changes nothing. */
  lemma DeleteRemovesFirst<T>(s: seq<Sub<T>>, id: string)
    requires UniqueIds(s) && NumericIndex(id) == 0
    ensures id in Ids(s) ==> DeleteScan(s, id) == s[1..]
    ensures id !in Ids(s) ==> DeleteScan(s, id) == s
  {
    DeleteScanUnique(s, id);
  }

  /** Putting an entry with a fresh id in front keeps ids unique. */
  lemma UnshiftKeepsUnique<T>(s: seq<Sub<T>>, x: Sub<T>)
    requires UniqueIds(s) && x.id !in Ids(s)
    ensures UniqueIds([x] + s)
  {
    forall i, j | 0 <= i < j < |[x] + s| ensures ([x] + s)[i].id != ([x] + s)[j].id {
      if i == 0 { assert s[j - 1].id == Ids(s)[j - 1]; }
    }
  }

  /** A splice keeps every id in its stored form, as it only removes an entry. */
  lemma SpliceKeepsStored<T>(s: seq<Sub<T>>, p: nat)
    requires StoredIds(s)
    ensures StoredIds(SpliceOne(s, p))
  {
    SpliceOneEffect(s, p);
  }

  /** The delete loop keeps every id in its stored form. */
  lemma {:induction false} DeleteKeepsStored<T>(cur: seq<Sub<T>>, k: nat, n: nat, id: string)
    requires StoredIds(cur)
    ensures StoredIds(DeleteScanFrom(cur, k, n, id))
    decreases n - k
  {
    if k < n {
      if k < |cur| && cur[k].id == id {
        SpliceKeepsStored(cur, NumericIndex(cur[k].id));
        DeleteKeepsStored(SpliceOne(cur, NumericIndex(cur[k].id)), k + 1, n, id);
      } else {
        DeleteKeepsStored(cur, k + 1, n, id);
      }
    }
  }

  /** Removing an entry keeps ids unique. */
  lemma SpliceKeepsUnique<T>(s: seq<Sub<T>>, p: nat)
    requires UniqueIds(s)
    ensures UniqueIds(SpliceOne(s, p))
  {
    SpliceOneEffect(s, p);
  }
}
