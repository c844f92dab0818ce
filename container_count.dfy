/**
 Counting the containers of a storage account: walk the listing pager to the
 end, add up the length of every page, and give up with the error of the
 first fetch that fails.
 */
module ContainerCount {
  import opened ListingClient

  /** Go's `error`: `None` is nil. */
  datatype Option<T> = None | Some(value: T)

  const TWO_63: int := 0x8000_0000_0000_0000
  const TWO_64: int := 0x1_0000_0000_0000_0000

  /** The running total is a Go `int64`. */
  newtype int64 = x: int | -0x8000_0000_0000_0000 <= x < 0x8000_0000_0000_0000

  /** The two's-complement value of `x`: what a 64-bit signed register holds. */
  function Wrap64(x: int): (r: int64)
    ensures (r as int - x) % TWO_64 == 0
    ensures -TWO_63 <= x < TWO_63 ==> r as int == x
  {
    ((x + TWO_63) % TWO_64 - TWO_63) as int64
  }

  /** Go's `a + b` on `int64`, which wraps around on overflow. */
  function Add64(a: int64, b: int64): (r: int64)
    ensures (r as int - (a as int + b as int)) % TWO_64 == 0
    ensures -TWO_63 <= a as int + b as int < TWO_63 ==> r as int == a as int + b as int
  {
    Wrap64(a as int + b as int)
  }

  /** Two integers that agree modulo 2^64 wrap to the same `int64`. */
  lemma WrapCongruent(x: int, y: int)
    requires (x - y) % TWO_64 == 0
    ensures Wrap64(x) == Wrap64(y)
  {
  }

  /** Adding to a wrapped total is the same as wrapping the exact sum. */
  lemma WrapAdd(x: int, n: int)
    ensures Add64(Wrap64(x), Wrap64(n)) == Wrap64(x + n)
  {
    WrapCongruent(Wrap64(x) as int + Wrap64(n) as int, x + n);
  }

  /** The fixed listing policy: pages of `pageSize`, no metadata, no deleted and no system containers. */
  function ListOptions(pageSize: int32): (opts: ListContainersOptions)
    ensures opts.maxResults == pageSize
    ensures !opts.includes.metadata && !opts.includes.deleted && !opts.includes.system
  {
    ListContainersOptions(ListContainersInclude(metadata := false, deleted := false, system := false), pageSize)
  }

  /** The number of containers an outcome contributes; a failed fetch contributes none. */
  function Size(o: Outcome): (n: nat)
  {
    match o
    case Page(n) => n
    case Fail(_) => 0
  }

  /** The exact number of containers on all the pages of `os`, in unbounded arithmetic. */
  function PageTotal(os: seq<Outcome>): (total: nat)
  {
    if os == [] then 0 else Size(os[0]) + PageTotal(os[1..])
  }

  /** Every fetch in `os` succeeds. */
  predicate AllPages(os: seq<Outcome>)
  {
    forall i :: 0 <= i < |os| ==> os[i].Page?
  }

  /** The number of fetches a walk over `os` makes: up to and including the first failure. */
  function Fetches(os: seq<Outcome>): (n: nat)
  {
    if os == [] then 0
    else if os[0].Fail? then 1
    else 1 + Fetches(os[1..])
  }

  /**
   The walk, as a left fold: `acc` is the running total, each page is added to
   it, and the first failure discards it and yields its error.
   */
  function Walk(os: seq<Outcome>, acc: int64): (r: (int64, Option<FetchError>))
  {
    if os == [] then (acc, None)
    else match os[0]
      case Fail(e) => (0, Some(e))
      case Page(n) => Walk(os[1..], Add64(acc, Wrap64(n)))
  }

  /** What counting the containers of a listing answered by `os` yields. */
  function Expected(os: seq<Outcome>): (r: (int64, Option<FetchError>))
  {
    Walk(os, 0)
  }

  /** The total of a concatenation is the sum of the totals. */
  lemma {:induction false} PageTotalAppend(a: seq<Outcome>, b: seq<Outcome>)
    ensures PageTotal(a + b) == PageTotal(a) + PageTotal(b)
  {
    if a == [] {
      assert a + b == b;
    } else {
      assert (a + b)[1..] == a[1..] + b;
      PageTotalAppend(a[1..], b);
    }
  }

  /** Fetching page `i` adds exactly its length to the exact running total. */
  lemma PageTotalExtend(os: seq<Outcome>, i: nat)
    requires i < |os|
    ensures PageTotal(os[..i + 1]) == PageTotal(os[..i]) + Size(os[i])
  {
    assert os[..i + 1] == os[..i] + [os[i]];
    PageTotalAppend(os[..i], [os[i]]);
  }

  /** The exact running total never decreases as the walk goes on. */
  lemma PageTotalMonotone(os: seq<Outcome>, i: nat, j: nat)
    requires i <= j <= |os|
    ensures PageTotal(os[..i]) <= PageTotal(os[..j])
  {
    assert os[..j] == os[..i] + os[i..j];
    PageTotalAppend(os[..i], os[i..j]);
  }

  /** When every fetch succeeds, the walk yields the wrapped sum of all page lengths and fetches every page. */
  lemma {:induction false} WalkAllPages(os: seq<Outcome>, acc: int64)
    requires AllPages(os)
    ensures Walk(os, acc) == (Wrap64(acc as int + PageTotal(os)), None)
    ensures Fetches(os) == |os|
  {
    if os == [] {
    } else {
      var n := os[0].size;
      assert AllPages(os[1..]) by {
        forall i | 0 <= i < |os[1..]| ensures os[1..][i].Page? {
          assert os[1..][i] == os[i + 1];
        }
      }
      WalkAllPages(os[1..], Add64(acc, Wrap64(n)));
      WrapAdd(acc as int, n);
      WrapAdd(acc as int + n, PageTotal(os[1..]));
      WrapCongruent(Add64(acc, Wrap64(n)) as int + PageTotal(os[1..]), acc as int + n + PageTotal(os[1..]));
    }
  }

  /**
   When fetch `k` is the first to fail, the walk yields 0 and that fetch's
   error whatever was counted before, and fetches nothing after it.
   */
  lemma {:induction false} WalkFirstFailure(os: seq<Outcome>, acc: int64, k: nat)
    requires k < |os| && os[k].Fail? && AllPages(os[..k])
    ensures Walk(os, acc) == (0, Some(os[k].err))
    ensures Fetches(os) == k + 1
  {
    if k == 0 {
    } else {
      assert os[0] == os[..k][0];
      var rest := os[1..][..k - 1];
      assert AllPages(rest) by {
        forall i | 0 <= i < |rest| ensures rest[i].Page? {
          assert rest[i] == os[..k][i + 1];
        }
      }
      WalkFirstFailure(os[1..], Add64(acc, Wrap64(os[0].size)), k - 1);
    }
  }

  /**
   A partial count is never returned: the result is either the wrapped total of
   every page with no error, when every fetch succeeds, or 0 with the error of
   the first failing fetch.
   */
  lemma ExpectedNeverPartial(os: seq<Outcome>)
    ensures Expected(os).1 == None <==> AllPages(os)
    ensures Expected(os).1 == None ==> Expected(os).0 == Wrap64(PageTotal(os))
    ensures Expected(os).1 != None ==>
      Expected(os).0 == 0 &&
      exists k :: 0 <= k < |os| && AllPages(os[..k]) && os[k] == Fail(Expected(os).1.value)
  {
    if AllPages(os) {
      WalkAllPages(os, 0);
    } else {
      var k := FirstFailure(os);
      WalkFirstFailure(os, 0, k);
    }
  }

  /** The position of the first failing fetch of a listing that has one. */
  function FirstFailure(os: seq<Outcome>): (k: nat)
    requires !AllPages(os)
    ensures k < |os| && os[k].Fail? && AllPages(os[..k])
  {
    if os[0].Fail? then 0
    else
      assert !AllPages(os[1..]) by {
        if AllPages(os[1..]) {
          forall i | 0 <= i < |os| ensures os[i].Page? {
            if i > 0 { assert os[i] == os[1..][i - 1]; }
          }
          assert false;
        }
      }
      var k := FirstFailure(os[1..]);
      assert forall i :: 0 <= i < k + 1 ==> os[..k + 1][i] == os[i];
      assert forall i :: 0 < i < k + 1 ==> os[i] == os[1..][..k][i - 1];
      k + 1
  }

  /** When every fetch succeeds and the total fits in an `int64`, the count is exactly the total. */
  lemma ExpectedExactTotal(os: seq<Outcome>)
    requires AllPages(os) && PageTotal(os) < TWO_63
    ensures Expected(os) == (PageTotal(os) as int64, None)
  {
    WalkAllPages(os, 0);
  }

  /** Pages of 100, 100 and 37 containers count as 237; a failing second fetch yields its error. */
  lemma Examples(e: FetchError)
    ensures Expected([Page(100), Page(100), Page(37)]) == (237, None)
    ensures Expected([Page(100), Fail(e), Page(37)]) == (0, Some(e))
    ensures Expected([]) == (0, None)
  {
    ExpectedExactTotal([Page(100), Page(100), Page(37)]);
    WalkFirstFailure([Page(100), Fail(e), Page(37)], 0, 1);
  }

  /**
   Counts the containers of the account `client` lists. One pager is created,
   with `pageSize` as its page size and metadata, deleted and system
   containers excluded; it is walked to the end, or until the first fetch that
   fails. The ghost result `pager` is that pager, after the walk.
   */
  method GetContainerCount(client: Client, pageSize: int32)
    returns (count: int64, err: Option<FetchError>, ghost pager: Pager)
    ensures (count, err) == Expected(client.listing(ListOptions(pageSize)))
    ensures err == None ==>
      AllPages(client.listing(ListOptions(pageSize))) &&
      count == Wrap64(PageTotal(client.listing(ListOptions(pageSize))))
    ensures err == None && PageTotal(client.listing(ListOptions(pageSize))) < TWO_63 ==>
      count as int == PageTotal(client.listing(ListOptions(pageSize)))
    ensures client.listing(ListOptions(pageSize)) == [] ==> count == 0 && err == None
    ensures fresh(pager) && pager.Valid()
    ensures pager.opts == ListOptions(pageSize)
    ensures pager.outcomes == client.listing(ListOptions(pageSize))
    ensures pager.index == Fetches(pager.outcomes)
    ensures err == None ==> !pager.More()
    ensures pager.outcomes == [] ==> pager.index == 0
    ensures err != None ==>
      count == 0 && 0 < pager.index <= |pager.outcomes| &&
      pager.outcomes[pager.index - 1] == Fail(err.value) && AllPages(pager.outcomes[..pager.index - 1])
  {
    var opts := ListOptions(pageSize);
    var p := client.NewListContainersPager(opts);
    pager := p;
    count := 0;
    while p.More()
      invariant p.Valid() && p.opts == opts && p.outcomes == client.listing(opts)
      invariant AllPages(p.outcomes[..p.index])
      invariant count == Wrap64(PageTotal(p.outcomes[..p.index]))
      decreases |p.outcomes| - p.index
    {
      ghost var i := p.index;
      var page := p.NextPage();
      match page
      case Page(n) =>
        PageTotalExtend(p.outcomes, i);
        WrapAdd(PageTotal(p.outcomes[..i]), n);
        count := Add64(count, Wrap64(n));
        assert forall j :: 0 <= j < i + 1 ==> p.outcomes[..i + 1][j] == p.outcomes[j];
        assert forall j :: 0 <= j < i ==> p.outcomes[..i][j] == p.outcomes[j];
      case Fail(e) =>
        WalkFirstFailure(p.outcomes, 0, i);
        return 0, Some(e), pager;
    }
    assert p.outcomes[..p.index] == p.outcomes;
    WalkAllPages(p.outcomes, 0);
    return count, None, pager;
  }
}
