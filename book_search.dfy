/**
 * The `useBookSearch` hook: three state cells (`books`, `loading`, `error`)
 * and the effect that runs whenever the query string changes.
 *
 * The effect is split where its `load` function awaits the store. `Effect`
 * runs everything up to the `await` (the Firestore check, `buildQuery`, and
 * either clearing the books or raising `loading`); `Resume` runs the rest
 * once the fetch has settled, with the settlement given as an input. Nothing
 * ties a `Resume` to the `Effect` that started it, as in the hook itself.
 */
module BookSearch {
  import opened Wrappers
  import opened QueryBuilder

  /** A thrown JavaScript error, reduced to its message. */
  datatype Error = Error(message: string)

  /** The error the effect throws when the context holds no Firestore handle. */
  const NotInitialized: Error := Error("Firestore is not initialized")

  /** A query snapshot document: its store-assigned id and its data, property by property. */
  datatype Doc<V> = Doc(id: string, data: map<string, V>)

  /**
   * A book as the hook publishes it, `{ ...doc.data(), id: doc.id }`: the
   * `id` property, and every other property of the document data in `rest`.
   */
  datatype Book<V> = Book(id: string, rest: map<string, V>)

  /** How `query.get()` settled: a snapshot's documents, or a thrown error. */
  datatype FetchOutcome<V> = Success(docs: seq<Doc<V>>) | Failure(err: Error)

  /** The triple the hook returns. */
  datatype SearchState<V> = SearchState(books: seq<Book<V>>, loading: bool, error: Option<Error>)

  /** The Firestore handle of the context; `booksCollection` is what `db.collection(collectionName.books)` opens. */
  datatype Firestore = Firestore(booksCollection: string)

  /** What one run of the effect does before its first `await`. */
  datatype EffectOutcome = Threw(error: Error) | Cleared | Fetching(query: Query)

  /** The mapping of one snapshot document to a book: the document's id overrides any `id` in its data. */
  function ToBook<V>(doc: Doc<V>): (b: Book<V>)
    ensures b.id == doc.id
    ensures b.rest.Keys == doc.data.Keys - {"id"}
    ensures forall k :: k in b.rest ==> b.rest[k] == doc.data[k]
  {
    Book(doc.id, doc.data - {"id"})
  }

  /** `snap.docs.map(...)`: one book per document, in snapshot order. */
  function ToBooks<V>(docs: seq<Doc<V>>): (books: seq<Book<V>>)
    ensures |books| == |docs|
    ensures forall i :: 0 <= i < |docs| ==> books[i] == ToBook(docs[i])
    decreases |docs|
  {
    if docs == [] then [] else [ToBook(docs[0])] + ToBooks(docs[1..])
  }

  /** The state after `load` has run up to its `await`, or to its end for an empty query. */
  function Begin<V>(s: SearchState<V>, q: string): (r: SearchState<V>)
    ensures r.error == s.error
    ensures r.loading == (s.loading || |q| >= 1)
    ensures r.books == if |q| >= 1 then s.books else []
  {
    if |q| >= 1 then s.(loading := true) else s.(books := [])
  }

  /** The state after the rest of `load` has run for a settled fetch. */
  function Settle<V>(s: SearchState<V>, outcome: FetchOutcome<V>): (r: SearchState<V>)
    ensures !r.loading
    ensures r.error.Some? <==> outcome.Failure?
    ensures outcome.Success? ==> r.books == ToBooks(outcome.docs)
    ensures outcome.Failure? ==> r.books == s.books && r.error == Some(outcome.err)
  {
    match outcome
    case Success(docs) => s.(books := ToBooks(docs), error := None, loading := false)
    case Failure(err) => s.(error := Some(err), loading := false)
  }

  /** An empty query empties the books and leaves `loading` and `error` alone. */
  lemma EmptyQueryOnlyClearsBooks<V>(s: SearchState<V>, q: string)
    requires |q| == 0
    ensures Begin(s, q) == SearchState([], s.loading, s.error)
  {
  }

  /**
   * A query of one character or more raises `loading` without touching the
   * books or the error, and `loading` is down again once the fetch settles,
   * whichever way it settles.
   */
  lemma LoadingBracketsFetch<V>(s: SearchState<V>, q: string, outcome: FetchOutcome<V>)
    requires |q| >= 1
    ensures Begin(s, q) == SearchState(s.books, true, s.error)
    ensures !Settle(Begin(s, q), outcome).loading
  {
  }

  /** A successful fetch publishes the documents, in order and with their ids, and clears the error. */
  lemma SuccessPublishesDocs<V>(s: SearchState<V>, docs: seq<Doc<V>>)
    ensures var t := Settle(s, Success(docs));
      && |t.books| == |docs|
      && (forall i :: 0 <= i < |docs| ==>
            t.books[i].id == docs[i].id && t.books[i].rest == docs[i].data - {"id"})
      && t.error == None
  {
  }

  /** A failed fetch records the error and keeps the books already published. */
  lemma FailureKeepsBooks<V>(s: SearchState<V>, err: Error)
    ensures var t := Settle(s, Failure(err));
      t.books == s.books && t.error == Some(err)
  {
  }

  /**
   * After a settlement the error is set exactly when the fetch failed, and
   * a failure never changes the books.
   */
  lemma ErrorExactlyOnFailure<V>(s: SearchState<V>, outcome: FetchOutcome<V>)
    ensures Settle(s, outcome).error.Some? <==> outcome.Failure?
    ensures outcome.Failure? ==> Settle(s, outcome).books == s.books
  {
  }

  /**
   * Two overlapping fetches. `loading` drops as soon as the first of them
   * settles, although the other is still outstanding. The hook keeps no
   * request identity, so the settlement that comes last wins whatever was
   * issued or settled before it. If it succeeds, its documents replace the
   * books and the error is cleared: when the fetch for `q1` settles last
   * with `older`, those are the books shown after the `q2` query. If it
   * fails, its error replaces the error and the books stay those of the
   * earlier settlement.
   */
  lemma LateResponseOverwrites<V>(s: SearchState<V>, q1: string, q2: string,
                                  newer: FetchOutcome<V>, older: FetchOutcome<V>)
    requires |q1| >= 1 && |q2| >= 1
    ensures var both := Begin(Begin(s, q1), q2);
      var first := Settle(both, newer);
      var last := Settle(first, older);
      && !first.loading
      && (older.Success? ==> last.books == ToBooks(older.docs) && last.error == None)
      && (older.Failure? ==> last.books == first.books && last.error == Some(older.err))
  {
  }

  /** One mounted `useBookSearch` hook. */
  class BookSearchHook<V> {
    var books: seq<Book<V>>
    var loading: bool
    var error: Option<Error>

    /** `firebaseRef.current`, captured on the first render. */
    const firebase: Option<Firestore>
    /** `optionsRef.current`, the spread of the options, captured on the first render. */
    const options: SpreadOptions
    /** The tokenizer the hook imports. */
    const tokenize: string -> seq<string>

    /** First render: the three `useState` initial values and the two refs. */
    constructor (firebase: Option<Firestore>, options: Option<SearchOptions>, tokenize: string -> seq<string>)
      ensures State() == SearchState([], false, None)
      ensures this.firebase == firebase && this.options == SpreadMerge(options) && this.tokenize == tokenize
    {
      this.firebase := firebase;
      this.options := SpreadMerge(options);
      this.tokenize := tokenize;
      books := [];
      loading := false;
      error := None;
    }

    /** The `{ books, loading, error }` the hook returns. */
    function State(): (s: SearchState<V>)
      reads this
      ensures s.books == books && s.loading == loading && s.error == error
    {
      SearchState(books, loading, error)
    }

    /** `setBooks([])`. */
    method Clear()
      modifies this
      ensures books == [] && loading == old(loading) && error == old(error)
    {
      books := [];
    }

    /** `setLoading(true)`. */
    method Start()
      modifies this
      ensures loading && books == old(books) && error == old(error)
    {
      loading := true;
    }

    /** `setBooks(booksData)` then `setError(null)`. */
    method Succeed(docs: seq<Doc<V>>)
      modifies this
      ensures books == ToBooks(docs) && error == None && loading == old(loading)
    {
      books := ToBooks(docs);
      error := None;
    }

    /** `setError(err)` in the catch block. */
    method Fail(err: Error)
      modifies this
      ensures error == Some(err) && books == old(books) && loading == old(loading)
    {
      error := Some(err);
    }

    /** `setLoading(false)` after the try/catch. */
    method Finish()
      modifies this
      ensures !loading && books == old(books) && error == old(error)
    {
      loading := false;
    }

    /**
     * The effect for query `q`, up to the `await` in `load`. Without a
     * Firestore handle it throws before touching any state. Otherwise it
     * builds the query (for an empty `q` too) and then either clears the
     * books, issuing no fetch, or raises `loading` and hands the query to
     * the store.
     */
    method Effect(q: string) returns (r: EffectOutcome)
      modifies this
      ensures firebase.None? ==> r == Threw(NotInitialized) && State() == old(State())
      ensures firebase.Some? ==> State() == Begin(old(State()), q)
      ensures firebase.Some? && |q| == 0 ==> r == Cleared
      ensures firebase.Some? && |q| >= 1 ==>
        r == Fetching(Compile(Limited(firebase.value.booksCollection, options.limit), tokenize(q)))
    {
      if firebase.None? {
        return Threw(NotInitialized);
      }
      var query := BuildQuery(firebase.value.booksCollection, q, options, tokenize);
      if |q| >= 1 {
        Start();
        r := Fetching(query);
      } else {
        Clear();
        r := Cleared;
      }
    }

    /** The rest of `load` once `query.get()` has settled with `outcome`. */
    method Resume(outcome: FetchOutcome<V>)
      modifies this
      ensures State() == Settle(old(State()), outcome)
    {
      match outcome {
        case Success(docs) => Succeed(docs);
        case Failure(err) => Fail(err);
      }
      Finish();
    }
  }
}
