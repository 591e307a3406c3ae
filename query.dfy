/** The `where` / `orderBy` / `skip` / `take` parts of every list query:
    rows are filtered by a predicate, ordered by one column, ascending or
    descending, and then a window of them is taken. The database leaves the order of rows with equal keys
    open; the model fixes one (insertion order of an insertion sort), and
    every property stated about it holds for any ordering by the key. */
module Query {
  import opened Common

  /** A column value: numbers (money, stock, timestamps) or text. */
  datatype Key = Num(n: real) | Text(s: string)

  datatype Direction = Asc | Desc

  /** Character-code lexicographic order on strings. */
  predicate TextLe(a: string, b: string)
    decreases |a|
  {
    |a| == 0 || (|b| > 0 && (a[0] < b[0] || (a[0] == b[0] && TextLe(a[1..], b[1..]))))
  }

  predicate KeyLe(a: Key, b: Key) {
    match (a, b)
    case (Num(x), Num(y)) => x <= y
    case (Text(x), Text(y)) => TextLe(x, y)
    case (Num(_), Text(_)) => true
    case (Text(_), Num(_)) => false
  }

  /** `a` may come before `b` in a listing ordered in direction `d`. */
  predicate InOrder(a: Key, b: Key, d: Direction) {
    if d == Asc then KeyLe(a, b) else KeyLe(b, a)
  }

  lemma {:induction false} TextLeTotal(a: string, b: string)
    ensures TextLe(a, b) || TextLe(b, a)
  {
    if |a| > 0 && |b| > 0 && a[0] == b[0] {
      TextLeTotal(a[1..], b[1..]);
    }
  }

  lemma {:induction false} TextLeTrans(a: string, b: string, c: string)
    requires TextLe(a, b) && TextLe(b, c)
    ensures TextLe(a, c)
  {
    if |a| > 0 && |b| > 0 && |c| > 0 && a[0] == b[0] && b[0] == c[0] {
      TextLeTrans(a[1..], b[1..], c[1..]);
    }
  }

  lemma InOrderTotal(a: Key, b: Key, d: Direction)
    ensures InOrder(a, b, d) || InOrder(b, a, d)
  {
    if a.Text? && b.Text? {
      TextLeTotal(a.s, b.s);
    }
  }

  lemma InOrderTrans(a: Key, b: Key, c: Key, d: Direction)
    requires InOrder(a, b, d) && InOrder(b, c, d)
    ensures InOrder(a, c, d)
  {
    if a.Text? && b.Text? && c.Text? {
      if d == Asc {
        TextLeTrans(a.s, b.s, c.s);
      } else {
        TextLeTrans(c.s, b.s, a.s);
      }
    }
  }

  /** Every earlier row may precede every later one. */
  predicate SortedBy<T>(s: seq<T>, key: T -> Key, d: Direction) {
    forall i, j :: 0 <= i < j < |s| ==> InOrder(key(s[i]), key(s[j]), d)
  }

  function Insert<T>(x: T, s: seq<T>, key: T -> Key, d: Direction): seq<T> {
    if s == [] then [x]
    else if InOrder(key(x), key(s[0]), d) then [x] + s
    else [s[0]] + Insert(x, s[1..], key, d)
  }

  /** The rows of `s` ordered by `key` in direction `d`. */
  function SortBy<T>(s: seq<T>, key: T -> Key, d: Direction): seq<T> {
    if s == [] then [] else Insert(s[0], SortBy(s[1..], key, d), key, d)
  }

  lemma {:induction false} InsertSorted<T>(x: T, s: seq<T>, key: T -> Key, d: Direction)
    requires SortedBy(s, key, d)
    ensures SortedBy(Insert(x, s, key, d), key, d)
    ensures multiset(Insert(x, s, key, d)) == multiset(s) + multiset{x}
  {
    if s == [] {
    } else if InOrder(key(x), key(s[0]), d) {
      var r := [x] + s;
      forall i, j | 0 <= i < j < |r|
        ensures InOrder(key(r[i]), key(r[j]), d)
      {
        if i == 0 && j > 1 {
          InOrderTrans(key(x), key(s[0]), key(s[j - 1]), d);
        }
      }
    } else {
      InOrderTotal(key(x), key(s[0]), d);
      var tail := s[1..];
      assert s == [s[0]] + tail;
      assert SortedBy(tail, key, d) by {
        forall i, j | 0 <= i < j < |tail|
          ensures InOrder(key(tail[i]), key(tail[j]), d)
        {
          assert tail[i] == s[i + 1] && tail[j] == s[j + 1];
        }
      }
      InsertSorted(x, tail, key, d);
      var t := Insert(x, tail, key, d);
      var r := [s[0]] + t;
      forall i, j | 0 <= i < j < |r|
        ensures InOrder(key(r[i]), key(r[j]), d)
      {
        if i == 0 {
          var y := t[j - 1];
          assert y in multiset(t);
          if y != x {
            assert y in multiset(tail);
            var k :| 0 <= k < |tail| && tail[k] == y;
            assert s[k + 1] == y;
          }
        }
      }
    }
  }

  /** Sorting orders the rows by the key and neither adds nor drops any. */
  lemma {:induction false} SortBySpec<T>(s: seq<T>, key: T -> Key, d: Direction)
    ensures SortedBy(SortBy(s, key, d), key, d)
    ensures multiset(SortBy(s, key, d)) == multiset(s)
  {
    if s != [] {
      SortBySpec(s[1..], key, d);
      InsertSorted(s[0], SortBy(s[1..], key, d), key, d);
      assert s == [s[0]] + s[1..];
    }
  }

  lemma SortByLength<T>(s: seq<T>, key: T -> Key, d: Direction)
    ensures |SortBy(s, key, d)| == |s|
  {
    SortBySpec(s, key, d);
    assert |multiset(SortBy(s, key, d))| == |multiset(s)|;
  }

  /** The rows of `s` that satisfy `p`, in their table order. */
  function Where<T(!new)>(s: seq<T>, p: T -> bool): (r: seq<T>)
    ensures forall x :: x in r <==> x in s && p(x)
    ensures |r| <= |s|
  {
    if s == [] then []
    else (if p(s[0]) then [s[0]] else []) + Where(s[1..], p)
  }

  /** `take: n` with no skip. */
  function Take<T>(s: seq<T>, n: nat): (r: seq<T>)
    ensures |r| <= n && |r| <= |s|
    ensures |r| == Min(n, |s|)
    ensures r == s[..|r|]
  {
    s[..Min(n, |s|)]
  }

  /** `skip` then `take`: the window of rows shown on one page. */
  function Window<T>(s: seq<T>, skip: nat, take: nat): (r: seq<T>)
    ensures |r| <= take
    ensures skip <= |s| ==> |r| == Min(take, |s| - skip)
    ensures forall k :: 0 <= k < |r| ==> skip + k < |s| && r[k] == s[skip + k]
  {
    if skip >= |s| then [] else s[skip..Min(skip + take, |s|)]
  }

  /** `Math.ceil(count / size)` for a positive page size. */
  function CeilDiv(count: nat, size: int): (r: nat)
    requires size > 0
    ensures r * size >= count
    ensures count > 0 ==> (r - 1) * size < count
    ensures count == 0 ==> r == 0
  {
    (count + size - 1) / size
  }

  /** One page of an ordered listing, or the way the paging parameters
      leave the modelled range: a negative `skip` (which the database
      rejects, so the handler answers 500) or a page size below one. */
  datatype PageOutcome<T> =
    | PageOf(rows: seq<T>, page: int, limit: int, totalCount: nat, totalPages: nat)
    | NegativeSkip
    | NonPositiveLimit

  /** `skip = (page - 1) * limit`, `take: limit`, the count of all
      matching rows and `totalPages = Math.ceil(totalCount / limit)`. */
  function Paginate<T>(rows: seq<T>, page: int, limit: int): (r: PageOutcome<T>)
    ensures r.PageOf? <==> page >= 1 && limit >= 1
    ensures r.NegativeSkip? <==> (page - 1) * limit < 0
    ensures r.PageOf? ==> r.page == page && r.limit == limit && r.totalCount == |rows|
    ensures r.PageOf? ==> |r.rows| <= limit
    ensures r.PageOf? ==> (page - 1) * limit >= 0 && r.rows == Window(rows, (page - 1) * limit, limit)
    ensures r.PageOf? ==> (r.totalPages - 1) * limit < |rows| <= r.totalPages * limit || (|rows| == 0 && r.totalPages == 0)
  {
    var skip := (page - 1) * limit;
    if skip < 0 then NegativeSkip
    else if limit <= 0 then NonPositiveLimit
    else
      PageOf(Window(rows, skip, limit), page, limit, |rows|, CeilDiv(|rows|, limit))
  }

  /** Every row on a page is a row of the listing. */
  lemma WindowRowsFrom<T>(s: seq<T>, skip: nat, take: nat)
    ensures forall x :: x in Window(s, skip, take) ==> x in s
  {
    forall x | x in Window(s, skip, take)
      ensures x in s
    {
      var k :| 0 <= k < |Window(s, skip, take)| && Window(s, skip, take)[k] == x;
      assert x == s[skip + k];
    }
  }

  /** A window of an ordered listing is itself ordered. */
  lemma WindowOfSorted<T>(s: seq<T>, skip: nat, take: nat, key: T -> Key, d: Direction)
    requires SortedBy(s, key, d)
    ensures SortedBy(Window(s, skip, take), key, d)
  {
    var r := Window(s, skip, take);
    forall i, j | 0 <= i < j < |r|
      ensures InOrder(key(r[i]), key(r[j]), d)
    {
      assert r[i] == s[skip + i] && r[j] == s[skip + j];
    }
  }
}
