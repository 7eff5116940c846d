/** Listing a project's jobs page by page while other jobs are being created. */
module Pagination {
  import opened Order
  import opened Wrappers

  datatype Job = Job(createdAt: int, id: string, project: string)

  datatype Cursor = Cursor(project: string, createdAt: int, id: string)

  /** Newest first, and by identifier among jobs of the same instant. */
  predicate Before(a: Job, b: Job) {
    a.createdAt > b.createdAt || (a.createdAt == b.createdAt && Less(b.id, a.id))
  }

  lemma BeforeIsTransitive(a: Job, b: Job, c: Job)
    requires Before(a, b) && Before(b, c)
    ensures Before(a, c)
  {
    if a.createdAt == c.createdAt {
      LessIsTransitive(c.id, b.id, a.id);
    }
  }

  lemma BeforeIsStrict(a: Job, b: Job)
    ensures !Before(a, a)
    ensures (a.createdAt == b.createdAt && a.id == b.id) || Before(a, b) || Before(b, a)
  {
    LessIsTotal(a.id, b.id);
  }

  /** The job table as an ordered scan yields it; the order is strict because
      identifiers are unique. */
  ghost predicate Descending(t: seq<Job>) {
    forall i, j :: 0 <= i < j < |t| ==> Before(t[i], t[j])
  }

  predicate Selected(j: Job, project: string, cursor: Option<Cursor>) {
    && j.project == project
    && (cursor.Some? ==>
      j.createdAt < cursor.value.createdAt || (j.createdAt == cursor.value.createdAt && Less(j.id, cursor.value.id)))
  }

  function Select(t: seq<Job>, project: string, cursor: Option<Cursor>): (r: seq<Job>)
    ensures forall x :: x in r <==> x in t && Selected(x, project, cursor)
  {
    if t == [] then []
    else Select(t[..|t| - 1], project, cursor) +
         (if Selected(t[|t| - 1], project, cursor) then [t[|t| - 1]] else [])
  }

  lemma {:induction false} SelectDescends(t: seq<Job>, project: string, cursor: Option<Cursor>)
    requires Descending(t)
    ensures Descending(Select(t, project, cursor))
  {
    if t != [] {
      var front, last := t[..|t| - 1], t[|t| - 1];
      SelectDescends(front, project, cursor);
      forall x | x in Select(front, project, cursor) ensures Before(x, last) {
        var i :| 0 <= i < |front| && front[i] == x;
        assert t[i] == x;
      }
    }
  }

  /** A cursor with its signature. The key, and with it the signature of every
      cursor, is the store's. */
  datatype Token = Token(cursor: Cursor, signature: string)

  type Signer = Cursor -> string

  function Encode(sign: Signer, project: string, j: Job): Token {
    var cursor := Cursor(project, j.createdAt, j.id);
    Token(cursor, sign(cursor))
  }

  /** Decoding refuses what the store did not sign, other projects' cursors, and
      cursors that name no job. */
  function Decode(sign: Signer, project: string, token: Token): Option<Cursor> {
    var cursor := token.cursor;
    if token.signature != sign(cursor) then None
    else if cursor.project != project || cursor.createdAt <= 0 || cursor.id == "" then None
    else Some(cursor)
  }

  predicate Listable(j: Job) {
    j.createdAt > 0 && j.id != ""
  }

  /** A page's token resumes the listing exactly in its own project and when its
      last job has a positive creation time and an identifier; any other token
      that is accepted is one that the store has signed for such a place. */
  lemma TokenRoundTrip(sign: Signer, project: string, other: string, j: Job, token: Token)
    ensures Decode(sign, other, Encode(sign, project, j)) ==
              (if other == project && Listable(j) then Some(Cursor(project, j.createdAt, j.id)) else None)
    ensures Decode(sign, other, token).Some? ==>
              exists last: Job :: Listable(last) && token == Encode(sign, other, last)
  {
    if Decode(sign, other, token).Some? {
      var last := Job(token.cursor.createdAt, token.cursor.id, other);
      assert token == Encode(sign, other, last);
    }
  }

  datatype Page = Page(jobs: seq<Job>, next: Option<Token>)

  /** Where a token points. */
  function Place(token: Option<Token>): Option<Cursor> {
    if token.Some? then Some(token.value.cursor) else None
  }

  function ListJobs(sign: Signer, t: seq<Job>, project: string, pageSize: int, token: Option<Token>): Option<Page> {
    if pageSize < 1 || pageSize > 100 then None
    else if token.Some? && Decode(sign, project, token.value).None? then None
    else
      var rows := Limited(Select(t, project, Place(token)), pageSize + 1);
      if |rows| > pageSize then Some(Page(rows[..pageSize], Some(Encode(sign, project, rows[pageSize - 1]))))
      else Some(Page(rows, None))
  }

  /** A listing is refused exactly for a page size out of range or a token that
      does not decode. */
  lemma RefusedListing(sign: Signer, t: seq<Job>, project: string, pageSize: int, token: Option<Token>)
    ensures ListJobs(sign, t, project, pageSize, token).None? <==>
            !(1 <= pageSize <= 100) || (token.Some? && Decode(sign, project, token.value).None?)
  {
  }

  function Limited(rows: seq<Job>, limit: nat): seq<Job> {
    if |rows| <= limit then rows else rows[..limit]
  }

  /** What one page promises: the next rows in order, and a token exactly when
      rows are left, from which the next page continues. */
  lemma PageIsNext(sign: Signer, t: seq<Job>, project: string, pageSize: int, token: Option<Token>)
    requires 1 <= pageSize <= 100 && Descending(t) && (token.Some? ==> Decode(sign, project, token.value).Some?)
    ensures var rows, page := Select(t, project, Place(token)), ListJobs(sign, t, project, pageSize, token);
            && page.Some? && page.value.jobs <= rows && |page.value.jobs| <= pageSize
            && Descending(page.value.jobs)
            && (page.value.next.None? <==> page.value.jobs == rows)
            && (page.value.next.Some? ==>
              && |page.value.jobs| == pageSize && page.value.next.value == Encode(sign, project, page.value.jobs[pageSize - 1])
              && forall x :: x in rows ==> x in page.value.jobs || Selected(x, project, Place(page.value.next)))
  {
    var rows := Select(t, project, Place(token));
    SelectDescends(t, project, Place(token));
    if |rows| > pageSize {
      assert Limited(rows, pageSize + 1)[..pageSize] == rows[..pageSize];
      forall x | x in rows && x !in rows[..pageSize] ensures Selected(x, project, Place(Some(Encode(sign, project, rows[pageSize - 1])))) {
        var i :| 0 <= i < |rows| && rows[i] == x;
        assert i >= pageSize;
        assert Before(rows[pageSize - 1], rows[i]);
      }
    }
  }

  /** Jobs are only ever added between pages, never removed or reordered. */
  ghost predicate Growing(tables: seq<seq<Job>>) {
    && (forall k :: 0 <= k < |tables| ==> Descending(tables[k]))
    && (forall k, l, x :: 0 <= k < l < |tables| && x in tables[k] ==> x in tables[l])
  }

  ghost predicate AllListable(tables: seq<seq<Job>>) {
    forall k, x :: 0 <= k < |tables| && x in tables[k] ==> Listable(x)
  }

  /** Every job added while paging is newer than the project's jobs on the first page's table. */
  ghost predicate OnlyNewer(tables: seq<seq<Job>>, project: string) {
    forall k, x, y :: 0 <= k < |tables| && x in tables[k] && x !in tables[0] && y in tables[0] && y.project == project ==> Before(x, y)
  }

  lemma DescendingJoins(a: seq<Job>, b: seq<Job>)
    requires Descending(a) && Descending(b)
    requires a != [] ==> forall x :: x in b ==> Before(a[|a| - 1], x)
    ensures Descending(a + b)
  {
    var c := a + b;
    forall i, j | 0 <= i < j < |c| ensures Before(c[i], c[j]) {
      if i < |a| <= j {
        assert c[j] == b[j - |a|] && b[j - |a|] in b;
        if i < |a| - 1 {
          BeforeIsTransitive(a[i], a[|a| - 1], c[j]);
        }
      } else if i >= |a| {
        assert c[i] == b[i - |a|] && c[j] == b[j - |a|];
      }
    }
  }

  lemma NotTwice(t: seq<Job>, i: nat, j: nat)
    requires Descending(t) && i < |t| && j < |t| && t[i] == t[j]
    ensures i == j
  {
    BeforeIsStrict(t[i], t[j]);
  }

  /** Two strictly ordered lists of the same jobs are the same list. */
  lemma {:induction false} SameJobsSameList(a: seq<Job>, b: seq<Job>)
    requires Descending(a) && Descending(b) && forall x :: x in a <==> x in b
    ensures a == b
  {
    if a != [] {
      assert a[0] in a && a[0] in b;
      var j :| 0 <= j < |b| && b[j] == a[0];
      assert b[0] in b && b[0] in a;
      var i :| 0 <= i < |a| && a[i] == b[0];
      if j > 0 {
        assert Before(b[0], b[j]);
        if i > 0 {
          assert Before(a[0], a[i]);
          BeforeIsTransitive(b[0], a[0], b[0]);
        }
        BeforeIsStrict(b[0], b[0]);
      }
      assert a[0] == b[0];
      TailKeeps(a, b);
      SameJobsSameList(a[1..], b[1..]);
      assert a == [a[0]] + a[1..] && b == [b[0]] + b[1..];
    } else {
      NoLonger(b, a);
    }
  }

  lemma TailKeeps(a: seq<Job>, b: seq<Job>)
    requires Descending(a) && Descending(b) && (forall x :: x in a <==> x in b) && a != [] && b != [] && a[0] == b[0]
    ensures forall x :: x in a[1..] <==> x in b[1..]
  {
    forall x ensures x in a[1..] <==> x in b[1..] {
      InTail(a, x);
      InTail(b, x);
    }
  }

  lemma InTail(a: seq<Job>, x: Job)
    requires Descending(a) && a != []
    ensures x in a[1..] <==> x in a && x != a[0]
  {
    if x in a[1..] {
      var i :| 0 <= i < |a[1..]| && a[1..][i] == x;
      assert a[i + 1] == x;
      if x == a[0] {
        NotTwice(a, 0, i + 1);
      }
    }
  }

  /** A strictly ordered selection of a strictly ordered list is no longer than it. */
  lemma {:induction false} NoLonger(a: seq<Job>, b: seq<Job>)
    requires Descending(a) && Descending(b) && forall x :: x in a ==> x in b
    ensures |a| <= |b|
  {
    if a != [] {
      var last := a[|a| - 1];
      assert last in b;
      var j :| 0 <= j < |b| && b[j] == last;
      forall x | x in a[..|a| - 1] ensures x in b[..j] {
        var i :| 0 <= i < |a| - 1 && a[i] == x;
        assert Before(x, last) && a[i] in b;
        var k :| 0 <= k < |b| && b[k] == x;
        if k >= j {
          BeforeIsStrict(x, last);
          if k > j {
            BeforeIsTransitive(x, last, x);
          }
          BeforeIsStrict(x, x);
        }
        assert b[..j][k] == x;
      }
      NoLonger(a[..|a| - 1], b[..j]);
    }
  }

  /** Where the walk stands after `k` pages. */
  ghost predicate Walked(sign: Signer, tables: seq<seq<Job>>, project: string, k: nat, jobs: seq<Job>, token: Option<Token>, done: bool) {
    && 0 < |tables| && k <= |tables| && (k > 0 || !done)
    && Descending(jobs)
    && (forall x :: x in jobs ==> x.project == project && 0 < k && x in tables[k - 1])
    && (forall x :: x in tables[0] && x.project == project ==> x in jobs || (!done && Selected(x, project, Place(token))))
    && (OnlyNewer(tables, project) ==> forall x :: x in jobs ==> x in tables[0])
    && (!done ==> At(sign, project, k, jobs, token))
  }

  ghost predicate At(sign: Signer, project: string, k: nat, jobs: seq<Job>, token: Option<Token>) {
    if k == 0 then jobs == [] && token == None
    else |jobs| >= k && token == Some(Encode(sign, project, jobs[|jobs| - 1])) && Listable(jobs[|jobs| - 1])
  }

  /** What a page adds: jobs of the project below the cursor, and all of them up to its own. */
  ghost predicate Adds(sign: Signer, t: seq<Job>, project: string, token: Option<Token>, page: Page) {
    && Descending(page.jobs)
    && (forall x :: x in page.jobs ==> x in t && Selected(x, project, Place(token)))
    && (forall x :: x in t && Selected(x, project, Place(token)) ==> x in page.jobs || (page.next.Some? && Selected(x, project, Place(page.next))))
    && (page.next.Some? ==> page.jobs != [] && page.next.value == Encode(sign, project, page.jobs[|page.jobs| - 1]))
  }

  lemma PageAdds(sign: Signer, t: seq<Job>, project: string, pageSize: int, token: Option<Token>)
    requires 1 <= pageSize <= 100 && Descending(t) && (token.Some? ==> Decode(sign, project, token.value).Some?)
    ensures var page := ListJobs(sign, t, project, pageSize, token); page.Some? && Adds(sign, t, project, token, page.value)
  {
    PageIsNext(sign, t, project, pageSize, token);
    var rows, page := Select(t, project, Place(token)), ListJobs(sign, t, project, pageSize, token).value;
    forall x | x in page.jobs ensures x in rows {
      var i :| 0 <= i < |page.jobs| && page.jobs[i] == x;
      assert rows[i] == x;
    }
  }

  lemma NextPage(sign: Signer, tables: seq<seq<Job>>, project: string, k: nat, jobs: seq<Job>, token: Option<Token>, page: Page)
    requires Growing(tables) && AllListable(tables) && k < |tables|
    requires Walked(sign, tables, project, k, jobs, token, false) && Adds(sign, tables[k], project, token, page)
    ensures Walked(sign, tables, project, k + 1, jobs + page.jobs, page.next, page.next.None?)
  {
    var all := jobs + page.jobs;
    assert Descending(all) by {
      assert jobs != [] ==> forall x :: x in page.jobs ==> Before(jobs[|jobs| - 1], x);
      DescendingJoins(jobs, page.jobs);
    }
    NoneLost(sign, tables, project, k, jobs, token, page);
    if OnlyNewer(tables, project) && k > 0 {
      NoneSlipsIn(tables, project, k, jobs[|jobs| - 1], page.jobs);
    }
    if page.next.Some? {
      assert all[|all| - 1] == page.jobs[|page.jobs| - 1] && page.jobs[|page.jobs| - 1] in page.jobs;
    }
  }

  lemma NoneLost(sign: Signer, tables: seq<seq<Job>>, project: string, k: nat, jobs: seq<Job>, token: Option<Token>, page: Page)
    requires Growing(tables) && k < |tables| && Adds(sign, tables[k], project, token, page)
    requires forall x :: x in tables[0] && x.project == project ==> x in jobs || Selected(x, project, Place(token))
    requires forall x :: x in jobs ==> x.project == project && 0 < k && x in tables[k - 1]
    ensures forall x :: x in tables[0] && x.project == project ==> x in jobs + page.jobs || (page.next.Some? && Selected(x, project, Place(page.next)))
    ensures forall x :: x in jobs + page.jobs ==> x.project == project && x in tables[k]
  {
  }

  /** Below a job of the first table, only jobs of the first table are found. */
  lemma NoneSlipsIn(tables: seq<seq<Job>>, project: string, k: nat, last: Job, found: seq<Job>)
    requires k < |tables| && OnlyNewer(tables, project) && last in tables[0] && last.project == project
    requires forall x :: x in found ==> x in tables[k] && Before(last, x)
    ensures forall x :: x in found ==> x in tables[0]
  {
    forall x | x in found ensures x in tables[0] {
      if x !in tables[0] {
        assert Before(x, last);
        BeforeIsTransitive(x, last, x);
        BeforeIsStrict(x, x);
      }
    }
  }

  /** Following the tokens from the first page: no job is listed twice or out of
      order, every job that was there at the first page is listed, only jobs of
      the project are; and when the jobs created meanwhile are all newer, the
      pages are exactly the first page's listing, in no more pages than jobs plus one. */
  method WalkPages(sign: Signer, tables: seq<seq<Job>>, project: string, pageSize: int) returns (jobs: seq<Job>, done: bool)
    requires 1 <= pageSize <= 100 && |tables| > 0 && Growing(tables) && AllListable(tables)
    ensures Descending(jobs)
    ensures done ==> forall x :: x in Select(tables[0], project, None) ==> x in jobs
    ensures forall x :: x in jobs ==> x in Select(tables[|tables| - 1], project, None)
    ensures done && OnlyNewer(tables, project) ==> jobs == Select(tables[0], project, None)
    ensures OnlyNewer(tables, project) && |tables| > |Select(tables[0], project, None)| ==> done
  {
    var token: Option<Token> := None;
    jobs, done := [], false;
    var k := 0;
    while k < |tables| && !done
      invariant 0 <= k <= |tables| && Walked(sign, tables, project, k, jobs, token, done)
    {
      PageAdds(sign, tables[k], project, pageSize, token);
      var page := ListJobs(sign, tables[k], project, pageSize, token).value;
      NextPage(sign, tables, project, k, jobs, token, page);
      jobs, token, done := jobs + page.jobs, page.next, page.next.None?;
      k := k + 1;
    }
    WalkEnds(sign, tables, project, k, jobs, token, done);
  }

  lemma WalkEnds(sign: Signer, tables: seq<seq<Job>>, project: string, k: nat, jobs: seq<Job>, token: Option<Token>, done: bool)
    requires Growing(tables) && Walked(sign, tables, project, k, jobs, token, done) && (!done ==> k == |tables|)
    ensures Descending(jobs)
    ensures done ==> forall x :: x in Select(tables[0], project, None) ==> x in jobs
    ensures forall x :: x in jobs ==> x in Select(tables[|tables| - 1], project, None)
    ensures done && OnlyNewer(tables, project) ==> jobs == Select(tables[0], project, None)
    ensures OnlyNewer(tables, project) && |tables| > |Select(tables[0], project, None)| ==> done
  {
    var first := Select(tables[0], project, None);
    SelectDescends(tables[0], project, None);
    if OnlyNewer(tables, project) {
      NoLonger(jobs, first);
      if done {
        SameJobsSameList(jobs, first);
      }
    }
  }
}
