/**
 The part of the blob-storage SDK that the container count relies on, seen from
 the outside: a client that creates a pager over the account's container
 listing, and the pager itself, a cursor that yields one page per fetch.

 Continuation tokens, HTTP and the container records are not modelled: each
 fetch is reduced to its outcome, either a page of some length or an error.
 A deadline that expires or a context that is cancelled during the walk shows
 up as the error of the fetch that observes it.
 */
module ListingClient {

  /** The SDK's page-size parameter is a 32-bit signed integer. */
  newtype int32 = x: int | -0x8000_0000 <= x < 0x8000_0000

  /** Why a page fetch failed. */
  datatype FetchError =
    | DeadlineExceeded          // the context's deadline passed during the walk
    | Canceled                  // the context was cancelled by its parent
    | TransportFailure(reason: string)  // any other failure of the request

  /** What one call of NextPage yields: a page with `size` containers, or an error. */
  datatype Outcome = Page(size: nat) | Fail(err: FetchError)

  /** Which optional parts of each container entry the listing includes. */
  datatype ListContainersInclude = ListContainersInclude(metadata: bool, deleted: bool, system: bool)

  /** The options a container pager is created with. */
  datatype ListContainersOptions = ListContainersOptions(includes: ListContainersInclude, maxResults: int32)

  /**
   A cursor over the pages the service answers with. `outcomes` is what the
   service will answer, fetch by fetch; `index` is how many fetches have been
   made. Both the options and the answers are fixed when the pager is created.
   */
  class Pager {
    const opts: ListContainersOptions
    const outcomes: seq<Outcome>
    var index: nat

    ghost predicate Valid()
      reads this
    {
      index <= |outcomes|
    }

    constructor (opts: ListContainersOptions, outcomes: seq<Outcome>)
      ensures Valid()
      ensures this.opts == opts && this.outcomes == outcomes && index == 0
    {
      this.opts := opts;
      this.outcomes := outcomes;
      index := 0;
    }

    /** Whether another page can be fetched: false exactly when every answer has been fetched. */
    predicate More(): (more: bool)
      reads this
      ensures Valid() ==> (!more <==> index == |outcomes|)
    {
      index < |outcomes|
    }

    /** Fetches the next page; the cursor advances whether the fetch succeeds or fails. */
    method NextPage() returns (page: Outcome)
      requires Valid() && More()
      modifies this`index
      ensures Valid()
      ensures index == old(index) + 1
      ensures page == outcomes[old(index)]
    {
      page := outcomes[index];
      index := index + 1;
    }
  }

  /**
   A client of one storage account. `listing` says what the service answers,
   fetch by fetch, to a walk made with the given options: how the containers
   are split into pages depends on the page size.
   */
  class Client {
    const listing: ListContainersOptions -> seq<Outcome>

    constructor (listing: ListContainersOptions -> seq<Outcome>)
      ensures this.listing == listing
    {
      this.listing := listing;
    }

    /** Creates a new pager, positioned before the first page. */
    method NewListContainersPager(opts: ListContainersOptions) returns (pager: Pager)
      ensures fresh(pager) && pager.Valid()
      ensures pager.opts == opts && pager.outcomes == listing(opts) && pager.index == 0
    {
      pager := new Pager(opts, listing(opts));
    }
  }
}
