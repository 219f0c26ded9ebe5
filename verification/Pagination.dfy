/** Reading the account's trades page by page (engine/execution/binance.py) while new ones keep coming in. */
module Pagination {
  import opened Common

  datatype Trade = Trade(id: int, time: int)

  /** The exchange lists trades by id, and a later id is not an earlier time. */
  ghost predicate Ordered(book: seq<Trade>) {
    forall i, j | 0 <= i < j < |book| :: book[i].id < book[j].id && book[i].time <= book[j].time
  }

  function FromTime(book: seq<Trade>, since: int): seq<Trade> {
    if book == [] then []
    else (if book[0].time >= since then [book[0]] else []) + FromTime(book[1..], since)
  }

  function FromId(book: seq<Trade>, id: int): seq<Trade> {
    if book == [] then []
    else (if book[0].id >= id then [book[0]] else []) + FromId(book[1..], id)
  }

  function Page(trades: seq<Trade>, limit: nat): seq<Trade> {
    if |trades| <= limit then trades else trades[..limit]
  }

  // ------------------------------------------------------------------ the filters are suffixes

  lemma {:induction false} AllFromTime(book: seq<Trade>, since: int)
    requires forall k | 0 <= k < |book| :: book[k].time >= since
    ensures FromTime(book, since) == book
  {
    if book != [] {
      AllFromTime(book[1..], since);
    }
  }

  lemma {:induction false} TimeSuffix(book: seq<Trade>, since: int) returns (first: nat)
    requires Ordered(book)
    ensures first <= |book| && FromTime(book, since) == book[first..]
    ensures forall k | 0 <= k < first :: book[k].time < since
    ensures forall k | first <= k < |book| :: book[k].time >= since
  {
    first := 0;
    if book != [] {
      if book[0].time >= since {
        AllFromTime(book, since);
      } else {
        var rest := TimeSuffix(book[1..], since);
        first := rest + 1;
        assert book[1..][rest..] == book[first..];
        forall k | 0 <= k < first
          ensures book[k].time < since
        {
          assert k > 0 ==> book[k] == book[1..][k - 1];
        }
        forall k | first <= k < |book|
          ensures book[k].time >= since
        {
          assert book[k] == book[1..][k - 1];
        }
      }
    }
  }

  lemma {:induction false} AllFromId(book: seq<Trade>, id: int)
    requires forall k | 0 <= k < |book| :: book[k].id >= id
    ensures FromId(book, id) == book
  {
    if book != [] {
      AllFromId(book[1..], id);
    }
  }

  lemma {:induction false} IdSuffix(book: seq<Trade>, k: nat)
    requires Ordered(book) && k < |book|
    ensures FromId(book, book[k].id + 1) == book[k + 1..]
  {
    if k == 0 {
      AllFromId(book[1..], book[0].id + 1);
    } else {
      IdSuffix(book[1..], k - 1);
      assert book[1..][k..] == book[k + 1..];
    }
  }

  /** Later books only add at the end, so what is due by time only grows at the end. */
  lemma GrowsAtEnd(book: seq<Trade>, more: seq<Trade>, since: int)
    requires Ordered(book) && Ordered(more) && book <= more
    ensures FromTime(book, since) <= FromTime(more, since)
  {
  }

  /** Asking behind the last trade of what was read gives exactly the rest. */
  lemma NextPage(book: seq<Trade>, since: int, m: nat)
    requires Ordered(book) && 0 < m <= |FromTime(book, since)|
    ensures FromId(book, FromTime(book, since)[m - 1].id + 1) == FromTime(book, since)[m..]
  {
    var first := TimeSuffix(book, since);
    assert FromTime(book, since)[m - 1] == book[first + m - 1];
    IdSuffix(book, first + m - 1);
    assert book[first + m..] == book[first..][m..];
  }

  // ------------------------------------------------------------------ the loop

  /** `books[p]` is what the exchange holds when page p is asked for. */
  ghost predicate Growing(books: seq<seq<Trade>>) {
    && (forall p | 0 <= p < |books| :: Ordered(books[p]))
    && (forall p, q | 0 <= p <= q < |books| :: books[p] <= books[q])
  }

  /** What so many full pages hold. */
  function Capacity(pages: nat, limit: nat): nat {
    if pages == 0 then 0 else Capacity(pages - 1, limit) + limit
  }

  /** So many trades are due that pages 0..p are all full. */
  predicate Overflows(book: seq<Trade>, since: int, limit: nat, p: nat) {
    |FromTime(book, since)| >= Capacity(p + 1, limit)
  }

  lemma PageOf(due: seq<Trade>, out: seq<Trade>, limit: nat)
    requires out <= due
    ensures var rows := Page(due[|out|..], limit);
            && out + rows <= due && |rows| <= limit
            && (|rows| < limit ==> out + rows == due)
  {
  }

  /** One more page behind full ones. */
  lemma OnePage(book: seq<Trade>, more: seq<Trade>, since: int, limit: nat, out: seq<Trade>)
    requires Ordered(book) && Ordered(more) && book <= more && out != [] && out <= FromTime(book, since)
    ensures var rows := Page(FromId(more, out[|out| - 1].id + 1), limit);
            && out + rows <= FromTime(more, since) && |rows| <= limit
            && (|rows| < limit ==> out + rows == FromTime(more, since))
  {
    hide Page, FromTime, FromId, Ordered;
    GrowsAtEnd(book, more, since);
    NextPage(more, since, |out|);
    PageOf(FromTime(more, since), out, limit);
  }

  /** Every trade since the given time and no other, in order and once, as of the page that was not full; or,
      exactly when every page is full, an error. */
  method RecentFills(books: seq<seq<Trade>>, since: int, limit: nat, maxPages: nat) returns (res: Option<seq<Trade>>)
    requires limit > 0 && 0 < maxPages <= |books| && Growing(books)
    ensures res.None? <==> forall p | 0 <= p < maxPages :: Overflows(books[p], since, limit, p)
    ensures res.Some? ==> exists p | 0 <= p < maxPages :: res.value == FromTime(books[p], since)
  {
    var rows := Page(FromTime(books[0], since), limit);
    var out := rows;
    var pages := 1;
    while |rows| >= limit
      invariant 1 <= pages <= maxPages
      invariant |out| == Capacity(pages - 1, limit) + |rows| && |rows| <= limit
      invariant rows == out[|out| - |rows|..]
      invariant |rows| == limit ==> out <= FromTime(books[pages - 1], since)
      invariant |rows| < limit ==> out == FromTime(books[pages - 1], since)
      invariant forall p | 0 <= p < pages - 1 :: Overflows(books[p], since, limit, p)
      decreases maxPages - pages, |rows|
    {
      assert |out| == Capacity(pages, limit);
      assert Overflows(books[pages - 1], since, limit, pages - 1);
      if pages >= maxPages {
        return None;
      }
      OnePage(books[pages - 1], books[pages], since, limit, out);
      rows := Page(FromId(books[pages], rows[|rows| - 1].id + 1), limit);
      out := out + rows;
      pages := pages + 1;
    }
    assert !Overflows(books[pages - 1], since, limit, pages - 1);
    return Some(out);
  }

  lemma {:induction false} CapacityGrows(p: nat, q: nat, limit: nat)
    requires p <= q
    ensures Capacity(p, limit) <= Capacity(q, limit)
    decreases q
  {
    if p < q {
      CapacityGrows(p, q - 1, limit);
    }
  }

  /** When no trade comes in meanwhile, the answer is an error exactly when the trades fill all the pages. */
  lemma OneBook(book: seq<Trade>, since: int, limit: nat, maxPages: nat)
    requires maxPages > 0
    ensures (forall p | 0 <= p < maxPages :: Overflows(book, since, limit, p)) <==> |FromTime(book, since)| >= Capacity(maxPages, limit)
  {
    if forall p | 0 <= p < maxPages :: Overflows(book, since, limit, p) {
      assert Overflows(book, since, limit, maxPages - 1);
    } else {
      var p :| 0 <= p < maxPages && !Overflows(book, since, limit, p);
      CapacityGrows(p + 1, maxPages, limit);
    }
  }
}
