# Container count of a blob-storage account, modelled in Dafny

The program counts the containers of a blob-storage account. It opens a
listing pager on the account with a fixed set of options: a given page size,
and no metadata, no deleted and no system containers. It asks the pager for
pages while the pager says there are more, and adds the length of each page
to an `int64` running total. The first page fetch that fails ends the walk.
The function then returns `0` and that error, never a partial count. When the
pager is exhausted, it returns the total and a nil error.

The model has two modules:

- `ListingClient` (`listing_client.dfy`) is the SDK surface the count uses,
  seen from outside. A `Client` knows what the service answers, fetch by fetch,
  for given listing options. `NewListContainersPager` creates a `Pager`. The
  pager is a class with fixed options, the fixed sequence of outcomes the
  service answers with (`Page(size)` or `Fail(err)`), and a cursor `index`.
  `More()` holds while outcomes are left. `NextPage()` may be called only when
  `More()` holds. It returns the outcome under the cursor and advances the
  cursor.
- `ContainerCount` (`container_count.dfy`) holds the counting routine
  `GetContainerCount`. It is a method with a loop over the pager, mirroring the
  `for pager.More()` loop of the source. It is proved against `Expected`, a
  pure left fold over the outcomes. Lemmas characterise that fold in terms of
  the exact page total and the first failing fetch. If every fetch succeeds, the result is the total of all page
  lengths and no error. Otherwise it is `0` and the error of the first failing
  fetch. The number of fetches made is `Fetches`, which counts up to and
  including the first failure.

Go's `int64` addition wraps around on overflow. The model writes that out:
`Wrap64` gives the two's-complement value and `Add64` is the wrapping
addition. The callers of the source are not required to keep the total below
2^63. The model proves that the count is exactly the total of the page lengths
whenever that total fits in an `int64`.

A deadline that expires or a context that is cancelled during the walk is not
modelled as a clock. It appears as the `Fail(DeadlineExceeded)` or
`Fail(Canceled)` outcome of the fetch that observes it.

The source validates neither the page size nor the timeout, and passes the
page size on unchanged (main.go:49-57). `GetContainerCount` therefore takes
any `int32` page size and has no precondition.

## Model

| member | source | states |
|---|---|---|
| `ContainerCount.GetContainerCount` | main.go:42-69 | A fresh pager is created with the given page size and metadata, deleted and system containers excluded. The result equals the fold `Expected` of the service's answers. With no error, every fetch succeeded, the pager is exhausted, and the count is the (wrapped) total of all page lengths, exact when it fits in `int64`. With an error, the count is 0, the error is that of the last fetch made, every earlier fetch succeeded, and nothing was fetched after it. The number of fetches is `Fetches`. An empty listing gives `(0, nil)` with no fetch. |
| `ContainerCount.WalkAllPages` | main.go:59-68 | If every fetch succeeds, the walk from running total `acc` returns the wrapped `acc` plus the sum of all page lengths, with a nil error, and fetches every page. |
| `ContainerCount.WalkFirstFailure` | main.go:59-65 | If fetch `k` is the first to fail, the walk returns `(0, that error)` whatever was counted before, and makes exactly `k + 1` fetches. |
| `ContainerCount.ExpectedNeverPartial` | main.go:59-68 | The error is nil exactly when every fetch succeeds (both directions). With a nil error the count is the total of all pages. Otherwise the count is 0 and the error is that of the first failing fetch. |
| `ContainerCount.ExpectedExactTotal` | main.go:46-68 | If every fetch succeeds and the total is below 2^63, the result is exactly the sum of the page lengths with a nil error. |
| `ContainerCount.FirstFailure` | main.go:60-64 | For a listing with a failing fetch, gives the position of the first one: it fails, and every fetch before it succeeds. |
| `ContainerCount.PageTotalExtend` | main.go:62 | Fetching page `i` adds exactly that page's length to the exact running total of the pages fetched before it, in server order. |
| `ContainerCount.PageTotalMonotone` | main.go:59-62 | The exact running total over the first `i` pages never exceeds the total over the first `j >= i` pages: the count never decreases. |
| `ContainerCount.PageTotalAppend` | main.go:59-62 | The total of two consecutive runs of pages is the sum of their totals. |
| `ContainerCount.Examples` | main.go:59-68 | Pages of 100, 100 and 37 containers count as 237. A failing second fetch yields `(0, its error)` even when a later page exists. An empty listing yields `(0, nil)`. |
| `ContainerCount.Add64` | main.go:62 | The running total plus a page length, as Go's `int64` addition gives it: congruent to the exact sum modulo 2^64, and equal to it when the sum is in the `int64` range. |
| `ContainerCount.ListOptions` | main.go:49-56 | The options the pager is created with: the given page size as `MaxResults`, and metadata, deleted and system containers all excluded. |
| `ListingClient.Pager.More` | main.go:59 | Whether another page can be fetched: false exactly when every answer of the service has been fetched. |
| `ContainerCount.Wrap64` | main.go:62 | The `int64` a value wraps to is congruent to it modulo 2^64, and equals it when it is in the `int64` range. |
| `ListingClient.Pager.NextPage` | main.go:59-60 | Callable only while `More()` holds. Returns the outcome under the cursor and advances the cursor by one. |
| `ListingClient.Client.NewListContainersPager` | main.go:49-57 | Creates a fresh pager with the given options, positioned before the first page, over the answers the service gives for those options. |
| `ListingClient.Pager.constructor` | main.go:57 | A new pager holds its options and answers, and its cursor is at 0. |

## Left out

- `main` (main.go:14-39) is process glue and is not part of this model: flag parsing, the panic on an empty account name, URL formatting, credential and client creation (whose errors the source ignores), and printing.
- The timeout parameter, `context.WithTimeout` and `cancel` (main.go:43-44) are left out because no clock is modelled. The deadline's effect is a `Fail(DeadlineExceeded)` or `Fail(Canceled)` outcome in the service's answers.
- The milliseconds-to-duration arithmetic (main.go:43) and the `int` to `int32` narrowing of the page size (main.go:33) belong to the process and time boundary. The page size enters the model already as an `int32`.
- SDK internals are reduced to outcome sequences: HTTP, continuation tokens, the container records and the `Prefix`/`Marker` options. Only page lengths and errors matter to the count.
- `ListingClient.Pager.NextPage` assumes the cursor also advances on a failed fetch. The source never calls the pager again after a failure, so the assumption has no effect on the count.
- `ContainerCount.GetContainerCount`: the contract says the pager it walks is freshly created, but not that no other pager is created. That holds by the method's body, which makes a single `NewListContainersPager` call. The fresh pager is returned as a ghost result so that the contract can speak of its options and cursor.
