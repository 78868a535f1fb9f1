/** The in-memory rating table `rates` built by `readIntoMemory`: user id to
    (item id to score), both levels insertion-ordered. */
module RatingTable {
  import opened Common
  import opened Ratings
  import opened LinkedMaps

  /** One user's ratings: item id to score. */
  type Row = LinkedMap<int, real>

  /** User id to that user's row. */
  type Table = LinkedMap<int, Row>

  /** One pass of the reading loop for line `r`: a known user's row gets the
      item put into it and is put back; an unknown user gets a fresh row
      holding only this item. */
  function Insert(t: Table, r: Rating): (t': Table)
    ensures forall u, i :: Lookup(t', u, i) == if u == r.user && i == r.item then Some(r.score) else Lookup(t, u, i)
    ensures Keys(t') == if r.user in Keys(t) then Keys(t) else Keys(t) + [r.user]
    ensures ItemOrder(t', r.user) ==
              if r.item in ItemOrder(t, r.user) then ItemOrder(t, r.user) else ItemOrder(t, r.user) + [r.item]
    ensures forall u :: u != r.user ==> ItemOrder(t', u) == ItemOrder(t, u)
  {
    match Get(t, r.user)
    case Some(row) => Put(t, r.user, Put(row, r.item, r.score))
    case None => Put(t, r.user, Put([], r.item, r.score))
  }

  /** The table after reading every training line, in file order. */
  function BuildTable(rs: seq<Rating>): (t: Table)
    ensures forall u :: u in Keys(t) <==> u in UserIds(rs)
    decreases |rs|
  {
    if |rs| == 0 then []
    else
      UserIdsFront(rs);
      Insert(BuildTable(rs[..|rs| - 1]), rs[|rs| - 1])
  }

  /** `rates.get(u).get(i)`, absent when either key is. */
  function Lookup(t: Table, u: int, i: int): Option<real> {
    match Get(t, u)
    case None => None
    case Some(row) => Get(row, i)
  }

  /** The iteration order of the items in `u`'s row (empty for no row). */
  function ItemOrder(t: Table, u: int): seq<int> {
    match Get(t, u)
    case None => []
    case Some(row) => Keys(row)
  }

  /** Both levels of the table have distinct keys. */
  ghost predicate WellFormed(t: Table) {
    && Distinct(Keys(t))
    && forall k :: 0 <= k < |t| ==> Distinct(Keys(t[k].1))
  }

  /** The entries of one row as (user, item, score) triples, in row order. */
  function RowEntries(u: int, row: Row): seq<Rating> {
    seq(|row|, j requires 0 <= j < |row| => Rating(u, row[j].0, row[j].1))
  }

  /** Every entry of the table, in the order of the nested iteration over
      `rates.entrySet()` and each row's `entrySet()`. */
  function Entries(t: Table): seq<Rating>
    decreases |t|
  {
    if |t| == 0 then [] else RowEntries(t[0].0, t[0].1) + Entries(t[1..])
  }

  // ---------------------------------------------------------------------
  // Reference definitions in terms of the input lines alone

  /** The user id of every line, in file order. */
  function UserIds(rs: seq<Rating>): seq<int> {
    seq(|rs|, j requires 0 <= j < |rs| => rs[j].user)
  }

  /** The item ids of `u`'s lines, in file order, repeats included. */
  function ItemsOfUser(rs: seq<Rating>, u: int): seq<int>
    decreases |rs|
  {
    if |rs| == 0 then []
    else if rs[|rs| - 1].user == u then ItemsOfUser(rs[..|rs| - 1], u) + [rs[|rs| - 1].item]
    else ItemsOfUser(rs[..|rs| - 1], u)
  }

  /** The distinct elements of `xs`, each kept where it first appears. */
  function Dedup(xs: seq<int>): (d: seq<int>)
    ensures Distinct(d)
    ensures forall x :: x in d <==> x in xs
    decreases |xs|
  {
    if |xs| == 0 then []
    else
      var p := xs[..|xs| - 1];
      assert xs == p + [xs[|xs| - 1]];
      var dp := Dedup(p);
      if xs[|xs| - 1] in dp then dp else dp + [xs[|xs| - 1]]
  }

  /** The position of the first occurrence of `x` in `xs`. */
  function FirstIndex<T(==)>(xs: seq<T>, x: T): (n: nat)
    requires x in xs
    ensures n < |xs| && xs[n] == x
    ensures forall j :: 0 <= j < n ==> xs[j] != x
  {
    if xs[0] == x then 0 else 1 + FirstIndex(xs[1..], x)
  }

  predicate SamePair(r: Rating, u: int, i: int) {
    r.user == u && r.item == i
  }

  /** The score on the last line rating item `i` for user `u`, if any. */
  function LastScore(rs: seq<Rating>, u: int, i: int): (r: Option<real>)
    ensures r.None? <==> forall j :: 0 <= j < |rs| ==> !SamePair(rs[j], u, i)
    ensures r.Some? ==>
              exists j :: 0 <= j < |rs| && rs[j] == Rating(u, i, r.value)
                          && forall j' :: j < j' < |rs| ==> !SamePair(rs[j'], u, i)
    decreases |rs|
  {
    if |rs| == 0 then None
    else if SamePair(rs[|rs| - 1], u, i) then Some(rs[|rs| - 1].score)
    else
      var p := rs[..|rs| - 1];
      assert forall j :: 0 <= j < |p| ==> p[j] == rs[j];
      LastScore(p, u, i)
  }

  // ---------------------------------------------------------------------
  // Properties of Dedup

  lemma {:induction false} FirstIndexPrefix<T>(xs: seq<T>, n: nat, y: T)
    requires n <= |xs| && y in xs[..n]
    ensures FirstIndex(xs, y) == FirstIndex(xs[..n], y)
  {
    var a := FirstIndex(xs, y);
    var b := FirstIndex(xs[..n], y);
    assert xs[..n][b] == xs[b] == y;
    assert a <= b;
    assert xs[..n][a] == y;
  }

  /** The elements of `Dedup(xs)` appear in the order of their first
      occurrences in `xs`. */
  lemma {:induction false} DedupOrder(xs: seq<int>)
    ensures forall a, b :: 0 <= a < b < |Dedup(xs)| ==>
              FirstIndex(xs, Dedup(xs)[a]) < FirstIndex(xs, Dedup(xs)[b])
    decreases |xs|
  {
    if |xs| > 0 {
      var n := |xs| - 1;
      var p := xs[..n];
      var x := xs[n];
      var dp := Dedup(p);
      var d := Dedup(xs);
      DedupOrder(p);
      assert xs[..n] == p;
      forall y | y in dp
        ensures FirstIndex(xs, y) == FirstIndex(p, y)
      {
        FirstIndexPrefix(xs, n, y);
      }
      forall a, b | 0 <= a < b < |d|
        ensures FirstIndex(xs, d[a]) < FirstIndex(xs, d[b])
      {
        if b < |dp| {
          assert d[a] == dp[a] && d[b] == dp[b];
        } else {
          assert x !in dp && d == dp + [x] && d[b] == x && d[a] == dp[a];
          assert x !in p;
          assert FirstIndex(xs, x) == n;
        }
      }
    }
  }

  // ---------------------------------------------------------------------
  // The table built from the lines

  lemma UserIdsFront(rs: seq<Rating>)
    requires |rs| > 0
    ensures UserIds(rs) == UserIds(rs[..|rs| - 1]) + [rs[|rs| - 1].user]
  {
  }

  /** Users are iterated in the order of their first line. */
  lemma {:induction false} TableUserOrder(rs: seq<Rating>)
    ensures Keys(BuildTable(rs)) == Dedup(UserIds(rs))
    decreases |rs|
  {
    if |rs| > 0 {
      var p := rs[..|rs| - 1];
      TableUserOrder(p);
      UserIdsFront(rs);
      assert UserIds(rs)[..|rs| - 1] == UserIds(p);
    }
  }

  /** Within a user's row, items are iterated in the order of their first
      line for that user. */
  lemma {:induction false} TableItemOrder(rs: seq<Rating>)
    ensures forall u :: ItemOrder(BuildTable(rs), u) == Dedup(ItemsOfUser(rs, u))
    decreases |rs|
  {
    if |rs| > 0 {
      var p := rs[..|rs| - 1];
      var r := rs[|rs| - 1];
      TableItemOrder(p);
      var t := BuildTable(p);
      forall u ensures ItemOrder(BuildTable(rs), u) == Dedup(ItemsOfUser(rs, u)) {
        if u == r.user {
          var xs := ItemsOfUser(rs, u);
          assert xs == ItemsOfUser(p, u) + [r.item];
          assert xs[..|xs| - 1] == ItemsOfUser(p, u);
        }
      }
    }
  }

  /** `rates[u][i]` holds the score of the last line for (u, i), and is
      present exactly for the pairs that occur on some line. */
  lemma {:induction false} TableLookup(rs: seq<Rating>)
    ensures forall u, i :: Lookup(BuildTable(rs), u, i) == LastScore(rs, u, i)
    decreases |rs|
  {
    if |rs| > 0 {
      var p := rs[..|rs| - 1];
      TableLookup(p);
    }
  }

  lemma {:induction false} TableWellFormed(rs: seq<Rating>)
    ensures WellFormed(BuildTable(rs))
  {
    var t := BuildTable(rs);
    TableUserOrder(rs);
    TableItemOrder(rs);
    forall k | 0 <= k < |t|
      ensures Distinct(Keys(t[k].1))
    {
      assert t[k] in t;
      GetIffBinding(t, t[k].0, t[k].1);
      assert ItemOrder(t, t[k].0) == Keys(t[k].1);
    }
  }

  lemma {:induction false} EntriesMembership(t: Table, e: Rating)
    ensures e in Entries(t) <==> exists k :: 0 <= k < |t| && t[k].0 == e.user && (e.item, e.score) in t[k].1
    decreases |t|
  {
    if |t| > 0 {
      EntriesMembership(t[1..], e);
      var row := t[0].1;
      assert e in RowEntries(t[0].0, row) <==> t[0].0 == e.user && (e.item, e.score) in row by {
        if t[0].0 == e.user && (e.item, e.score) in row {
          var j :| 0 <= j < |row| && row[j] == (e.item, e.score);
          assert RowEntries(t[0].0, row)[j] == e;
        }
      }
      if exists k :: 0 <= k < |t| && t[k].0 == e.user && (e.item, e.score) in t[k].1 {
        var k :| 0 <= k < |t| && t[k].0 == e.user && (e.item, e.score) in t[k].1;
        if k > 0 {
          assert t[1..][k - 1] == t[k];
        }
      }
    }
  }

  /** The entries of the table are exactly the lines that carry the last
      score given to their (user, item) pair: later lines for a pair
      overwrite earlier ones, and no pair is lost. */
  lemma {:induction false} TableEntries(rs: seq<Rating>)
    ensures forall e :: e in Entries(BuildTable(rs)) <==> e in rs && LastScore(rs, e.user, e.item) == Some(e.score)
  {
    var t := BuildTable(rs);
    TableWellFormed(rs);
    TableLookup(rs);
    forall e
      ensures e in Entries(t) <==> e in rs && LastScore(rs, e.user, e.item) == Some(e.score)
    {
      EntriesMembership(t, e);
      if e in Entries(t) {
        var k :| 0 <= k < |t| && t[k].0 == e.user && (e.item, e.score) in t[k].1;
        assert t[k] in t;
        GetIffBinding(t, t[k].0, t[k].1);
        GetIffBinding(t[k].1, e.item, e.score);
        assert Lookup(t, e.user, e.item) == Some(e.score);
      }
      if e in rs && LastScore(rs, e.user, e.item) == Some(e.score) {
        assert Lookup(t, e.user, e.item) == Some(e.score);
        var row := Get(t, e.user).value;
        assert (e.user, row) in t;
        var k :| 0 <= k < |t| && t[k] == (e.user, row);
        assert (e.item, e.score) in t[k].1;
      }
    }
  }

  /** Ids valid for the lines are valid for the table entries. */
  lemma TableInRange(rs: seq<Rating>, userNumber: int, itemNumber: int)
    requires InRange(rs, userNumber, itemNumber)
    ensures InRange(Entries(BuildTable(rs)), userNumber, itemNumber)
  {
    TableEntries(rs);
  }

  /** A repeated (user, item) line keeps only its last score in the table. */
  lemma DuplicateExample()
    ensures Entries(BuildTable([Rating(0, 0, 5.0), Rating(0, 0, 3.0)])) == [Rating(0, 0, 3.0)]
  {
    var rs := [Rating(0, 0, 5.0), Rating(0, 0, 3.0)];
    assert rs[..1] == [Rating(0, 0, 5.0)];
    assert rs[..1][..0] == [];
  }
}
