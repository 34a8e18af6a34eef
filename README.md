# Book search hook — a Dafny model

This project models `useBookSearch`, the React hook that searches the books
collection of a Firestore database by free text. The hook has two parts:

- **The query compiler** (`buildQuery`). It takes the merged search options,
  where `limit` defaults to 30. It starts from the books collection capped at
  that limit and adds one condition `tokenMap.<token> == true` for each token
  the tokenizer returns, in order.
- **The search state** (`books`, `loading`, `error`). When the query string
  changes, an effect runs:
  - if the context holds no Firestore handle, it throws
    "Firestore is not initialized";
  - for an empty query it empties `books`;
  - otherwise it raises `loading`, awaits the fetch, then publishes the
    documents (clearing `error`) or records the error, and finally drops
    `loading`.

Modules:

- `Wrappers` (`wrappers.dfy`): `Option`, which stands for `null`/`undefined`.
- `QueryBuilder` (`query_builder.dfy`): the options and their merge, and the
  query as a value. A query is a collection, a limit and an ordered sequence
  of `where` conditions. `BuildQuery` is a method with a loop, like the
  source's `forEach`. It is proved equal to the left fold `Compile` and to the
  index-by-index reference `TokenPredicates`. `DecodeTokens` reads the tokens
  back from the conditions, which shows that the conditions pin the token
  sequence down exactly.
- `BookSearch` (`book_search.dfy`): documents and books, the pure transition
  functions `Begin` and `Settle`, and the class `BookSearchHook`. Its three
  fields are the three state cells. The setter calls are methods with a
  `modifies` clause. `Succeed` covers two of them, `setBooks(booksData)`
  followed by `setError(null)`. Each of the other four covers one.

The effect is split at its `await`:

- `Effect` runs up to the `await`. It checks for the handle, builds the query
  (even for an empty query, as the source does) and then either clears the
  books or raises `loading`. For a non-empty query it returns the query
  handed to the store; for an empty one it returns `Cleared`, and no fetch
  is made.
- `Resume` runs the rest, given how the fetch settled.

Nothing links a `Resume` to the `Effect` that started it, because the hook
keeps no request identity either.

`tokenize` is a function-typed parameter (`string -> seq<string>`), so the
model says nothing about its rules. Executing a query is also an input: the
caller of `Resume` supplies the `FetchOutcome`.

Three behaviours of the code worth noting:

- The code keeps a duplicated token as a duplicated condition. It does not
  produce one condition per distinct token.
- An empty query changes only `books`. `loading` and `error` keep their
  values.
- There is no generation counter and no guard against stale responses.
  `LateResponseOverwrites` states what happens instead: an older response
  that settles last overwrites a newer one.

## Model

| member | source | states |
|---|---|---|
| `QueryBuilder.DefaultOptions` | src/hooks/use-book-search.ts:11-13 | `defaultOptions`: the default limit is 30 |
| `QueryBuilder.Merge` | src/hooks/use-book-search.ts:35 | the corrected form of the merge, with the defaults of lines 11-13: the effective limit is the caller's number when one is given and 30 otherwise; it agrees with the spread merge whenever that yields a number |
| `QueryBuilder.SpreadMerge` | src/hooks/use-book-search.ts:35 | the merge as written: the merged limit is undefined exactly when the caller's options hold `limit: undefined` |
| `QueryBuilder.SpreadLosesDefault` | src/hooks/use-book-search.ts:35 | counterexample: `{ limit: undefined }` leaves the merged limit undefined instead of 30 |
| `QueryBuilder.Limited` | src/hooks/use-book-search.ts:20 | `collection.limit(n)`: the query over the collection, with cap `n` and no conditions |
| `QueryBuilder.Where` | src/hooks/use-book-search.ts:23 | `query.where(field, op, value)`: the same collection and cap, and the conditions so far, all kept in order, with exactly this one added last |
| `QueryBuilder.TokenField` | src/hooks/use-book-search.ts:23 | the template `tokenMap.${token}`: the prefix `tokenMap.` followed by the token, nothing else |
| `QueryBuilder.TokenPredicate` | src/hooks/use-book-search.ts:23 | the `where` arguments for one token: field `tokenMap.<token>`, operator `"=="`, value `true` |
| `QueryBuilder.TokenPredicates` | src/hooks/use-book-search.ts:22-24 | reference definition of the token conditions: exactly one per token |
| `QueryBuilder.TokenPredicatesAt` | src/hooks/use-book-search.ts:23 | the i-th token condition is `("tokenMap." + token_i, "==", true)` |
| `QueryBuilder.Compile` | src/hooks/use-book-search.ts:22-24 | the `forEach` as a left fold: it keeps the collection and the cap, and adds one condition per token |
| `QueryBuilder.CompileAppends` | src/hooks/use-book-search.ts:20-24 | folding the tokens into a query appends exactly one token condition per token, in token order, and leaves the collection and the limit alone |
| `QueryBuilder.FieldTokenOfTokenField` | src/hooks/use-book-search.ts:23 | the field name `tokenMap.<token>` gives back its token |
| `QueryBuilder.DecodeCompiled` | src/hooks/use-book-search.ts:22-24 | the token conditions decode to exactly the token sequence: same order, duplicates kept, nothing dropped |
| `QueryBuilder.BuildQuery` | src/hooks/use-book-search.ts:15-27 | the query reads the given collection with the cap the options hold, `undefined` included; it has one condition per token of `tokenize(q)`, and the i-th is `("tokenMap." + token_i, "==", true)`; the conditions decode back to `tokenize(q)`; no tokens leaves only the limit |
| `BookSearch.ToBook` | src/hooks/use-book-search.ts:48-51 | a book has the document's id, whatever `id` the data held; all the data's other properties are kept unchanged |
| `BookSearch.ToBooks` | src/hooks/use-book-search.ts:48-51 | one book per snapshot document, same length and order, the i-th being the i-th document mapped |
| `BookSearch.Begin` | src/hooks/use-book-search.ts:44-45 | `load` up to its `await`: `error` is kept; a non-empty query raises `loading` and keeps `books`; an empty query (lines 58-60) empties `books` and keeps `loading` |
| `BookSearch.Settle` | src/hooks/use-book-search.ts:46-57 | the rest of `load`: `loading` ends false; `error` is set exactly on failure; success publishes the mapped documents; failure keeps `books` and records the error |
| `BookSearch.EmptyQueryOnlyClearsBooks` | src/hooks/use-book-search.ts:58-60 | for an empty query `books` becomes `[]`, and `loading` and `error` keep their values |
| `BookSearch.LoadingBracketsFetch` | src/hooks/use-book-search.ts:44-57 | for a query of length at least 1, `loading` is true before the fetch and nothing else changes; `loading` is false after the fetch, on success and on failure |
| `BookSearch.SuccessPublishesDocs` | src/hooks/use-book-search.ts:47-53 | on success, `books` has the documents' length, order and ids, with each document's other data, and `error` is null |
| `BookSearch.FailureKeepsBooks` | src/hooks/use-book-search.ts:54-56 | on failure, `error` holds the thrown error and `books` is unchanged |
| `BookSearch.ErrorExactlyOnFailure` | src/hooks/use-book-search.ts:46-56 | after a settled fetch, `error` is set exactly when the fetch failed, and a failure never changes `books` |
| `BookSearch.LateResponseOverwrites` | src/hooks/use-book-search.ts:37-64 | with two overlapping fetches, `loading` drops at the first settlement while the other fetch is outstanding; whatever was issued or settled before, a successful last settlement replaces `books` and clears `error`, so an older query's response arriving last is shown; a failing last settlement records its error and keeps the books of the earlier settlement: there is no stale-response guard |
| `BookSearch.BookSearchHook.constructor` | src/hooks/use-book-search.ts:30-35 | first render: empty `books`, `loading` false, `error` null; the Firestore handle and the spread of the options (`SpreadMerge`, undefined limit included) are captured once |
| `BookSearch.BookSearchHook.State` | src/hooks/use-book-search.ts:66 | the returned `{ books, loading, error }` is exactly the three state cells |
| `BookSearch.BookSearchHook.Clear` | src/hooks/use-book-search.ts:59 | `books := []`, `loading` and `error` unchanged |
| `BookSearch.BookSearchHook.Start` | src/hooks/use-book-search.ts:45 | `loading := true`, `books` and `error` unchanged |
| `BookSearch.BookSearchHook.Succeed` | src/hooks/use-book-search.ts:52-53 | `books` becomes the mapped documents, `error := null`, `loading` unchanged |
| `BookSearch.BookSearchHook.Fail` | src/hooks/use-book-search.ts:55 | `error := err`, `books` and `loading` unchanged |
| `BookSearch.BookSearchHook.Finish` | src/hooks/use-book-search.ts:57 | `loading := false`, `books` and `error` unchanged |
| `BookSearch.BookSearchHook.Effect` | src/hooks/use-book-search.ts:37-63 | without a handle: throws "Firestore is not initialized" and changes no state; with one: the state becomes `Begin(old state, q)`; an empty query issues no fetch; a non-empty query hands the compiled query to the store |
| `BookSearch.BookSearchHook.Resume` | src/hooks/use-book-search.ts:46-57 | the state becomes `Settle(old state, outcome)`: publish or record the error, then drop `loading` |

## Findings

| source | as written | input that shows it | evidently intended | confidence | as-written member | corrected member |
|---|---|---|---|---|---|---|
| src/hooks/use-book-search.ts:35 | `{ ...defaultOptions, ...options }` copies a `limit` property that holds `undefined`. The merged limit is then undefined, although `Required<SearchOptions>` promises a number. TypeScript's spread typing does not catch this. | `useBookSearch(q, { limit: undefined })` | the default limit of 30 applies whenever the caller gives no number | medium; not executed | `QueryBuilder.SpreadLosesDefault` | `QueryBuilder.Merge` |

The hook class keeps the spread as written (`SpreadMerge`). For
`{ limit: undefined }` it therefore hands an undefined limit to the compiled
query, as the source does. `Merge` is the corrected merge. It agrees with the
spread whenever the spread yields a number, and gives 30 otherwise.

## Left out

- React machinery is not modelled: `useState`, `useRef`, `useContext`, and re-running the effect when `[q]` changes.
  - The three cells are plain fields, and both refs are constant fields set in the constructor.
  - The caller calls `Effect` on each query change.
- Re-renders between setter calls are not modelled. After the `await`, React may re-render between `setBooks` and `setError`. The model describes only the state after `Succeed`, `Fail` and `Finish`.
- Executing a Firestore query is left out (`query.get()`, and how Firestore interprets `limit` and `where`). It is a foreign library doing I/O.
  - The query is a value, and the outcome of the fetch is an input to `Resume`.
  - So the model does not capture the cap on how many documents come back, what Firestore does with a non-positive or undefined limit, or dots inside a token becoming a nested field path.
- `tokenize` is not part of this model. `utils/text-processor` is not shown, so `tokenize` is a function parameter.
- `collectionName.books` is not part of this model. The handle's `booksCollection` stands for the collection that `db.collection(collectionName.books)` opens.
- The `Book` type is not part of this model. Document data is a map from property names to an opaque value type `V`.
- Async interleaving of overlapping effects is not modelled as a schedule. The model allows any sequence of `Effect` and `Resume` calls. `LateResponseOverwrites` shows one such sequence.
- The thrown `Error` of a missing handle is a returned `Threw` value, not an exception. Whatever `catch` receives is reduced to an error message.
- JavaScript numbers are modelled as `int`. A fractional or NaN `limit` is not modelled.
- `q.length` counts UTF-16 code units. The model counts characters. The two agree on the only test the source makes, whether the query is empty.
