/**
 * The query side of the book search hook: the search options and their
 * defaults, and the compilation of a free-text query into a Firestore
 * query over the `tokenMap` index of the books collection.
 *
 * A Firestore query is modelled as a plain value: the collection it reads,
 * the result cap set by `limit`, and the `where` predicates in the order
 * they were added. Executing a query is not part of this module.
 */
module QueryBuilder {
  import opened Wrappers

  /** The limit used when the caller gives none. */
  const DefaultLimit: int := 30

  /** The only comparison the search uses. */
  const EqualOp: string := "=="

  /** Prefix of the index field that records whether a document holds a token. */
  const TokenMapPrefix: string := "tokenMap."

  /**
   * The `limit` property of a caller's options object. JavaScript tells an
   * object without the property apart from one whose property holds
   * `undefined`, and object spread treats the two differently.
   */
  datatype LimitProperty = Omitted | Undefined | Given(n: int)

  /** The options object a caller may pass (`SearchOptions`). */
  datatype SearchOptions = SearchOptions(limit: LimitProperty)

  /**
   * The object `{ ...defaultOptions, ...options }` evaluates to, which the
   * hook keeps and hands to `buildQuery`; `None` is `undefined`.
   */
  datatype SpreadOptions = SpreadOptions(limit: Option<int>)

  /** Options with every property present (`Required<SearchOptions>`). */
  datatype ResolvedOptions = ResolvedOptions(limit: int)

  /** `defaultOptions`. */
  function DefaultOptions(): (r: ResolvedOptions)
    ensures r.limit == 30
  {
    ResolvedOptions(DefaultLimit)
  }

  /**
   * The options merge as written: properties of the caller's object, when
   * there is one, override the defaults, and spread copies a property
   * holding `undefined` like any other.
   */
  function SpreadMerge(options: Option<SearchOptions>): (m: SpreadOptions)
    ensures m.limit.None? <==> options.Some? && options.value.limit.Undefined?
  {
    match options
    case None => SpreadOptions(Some(DefaultOptions().limit))
    case Some(o) =>
      match o.limit
      case Omitted => SpreadOptions(Some(DefaultOptions().limit))
      case Undefined => SpreadOptions(None)
      case Given(n) => SpreadOptions(Some(n))
  }

  /** An explicit `limit: undefined` leaves the merged limit undefined. */
  lemma SpreadLosesDefault()
    ensures SpreadMerge(Some(SearchOptions(Undefined))).limit == None
  {
  }

  /**
   * The options merge as its `Required<SearchOptions>` type promises: each
   * property comes from the caller when the caller gives a number, and from
   * `defaultOptions` otherwise.
   */
  function Merge(options: Option<SearchOptions>): (r: ResolvedOptions)
    ensures options.Some? && options.value.limit.Given? ==> r.limit == options.value.limit.n
    ensures options.None? || !options.value.limit.Given? ==> r.limit == DefaultLimit
    ensures SpreadMerge(options).limit.Some? ==> r.limit == SpreadMerge(options).limit.value
    ensures SpreadMerge(options).limit.None? ==> r.limit == DefaultLimit
  {
    match options
    case Some(SearchOptions(Given(n))) => ResolvedOptions(n)
    case _ => DefaultOptions()
  }

  /** One `where(field, op, value)` condition. */
  datatype Predicate = Predicate(field: string, op: string, value: bool)

  /**
   * A Firestore query: collection, result cap and conjoined conditions in
   * order. The cap is the value handed to `limit`, `None` for `undefined`.
   */
  datatype Query = Query(collection: string, limit: Option<int>, predicates: seq<Predicate>)

  /** `collection.limit(n)`: the whole collection, capped at `n`, with no condition yet. */
  function Limited(collection: string, n: Option<int>): (r: Query)
    ensures r.collection == collection && r.limit == n && r.predicates == []
  {
    Query(collection, n, [])
  }

  /** `query.where(field, op, value)`: the same query with one more condition last. */
  function Where(query: Query, field: string, op: string, value: bool): (r: Query)
    ensures r.collection == query.collection && r.limit == query.limit
    ensures r.predicates == query.predicates + [Predicate(field, op, value)]
  {
    query.(predicates := query.predicates + [Predicate(field, op, value)])
  }

  /** The index field for a token, `tokenMap.<token>`. */
  function TokenField(token: string): (f: string)
    ensures |f| == |TokenMapPrefix| + |token|
    ensures f[..|TokenMapPrefix|] == TokenMapPrefix && f[|TokenMapPrefix|..] == token
  {
    TokenMapPrefix + token
  }

  /** The condition requiring a document to hold `token`. */
  function TokenPredicate(token: string): (p: Predicate)
    ensures p.field == TokenField(token) && p.op == "==" && p.value
  {
    Predicate(TokenField(token), EqualOp, true)
  }

  /** Reference definition: the token conditions, one per token, index by index. */
  function TokenPredicates(tokens: seq<string>): (ps: seq<Predicate>)
    ensures |ps| == |tokens|
  {
    seq(|tokens|, i requires 0 <= i < |tokens| => TokenPredicate(tokens[i]))
  }

  /** The i-th token condition tests field `tokenMap.<i-th token>` for equality with `true`. */
  lemma TokenPredicatesAt(tokens: seq<string>, i: nat)
    requires i < |tokens|
    ensures TokenPredicates(tokens)[i].field == TokenMapPrefix + tokens[i]
    ensures TokenPredicates(tokens)[i].op == "==" && TokenPredicates(tokens)[i].value
  {
  }

  /** The `forEach` over the tokens as a left fold: each token adds one `where` to the query so far. */
  function Compile(query: Query, tokens: seq<string>): (r: Query)
    ensures r.collection == query.collection && r.limit == query.limit
    ensures |r.predicates| == |query.predicates| + |tokens|
    decreases |tokens|
  {
    if tokens == [] then query
    else Compile(Where(query, TokenField(tokens[0]), EqualOp, true), tokens[1..])
  }

  /** The token conditions of a non-empty sequence: its first token's condition, then the rest's. */
  lemma TokenPredicatesCons(tokens: seq<string>)
    requires tokens != []
    ensures TokenPredicates(tokens) == [TokenPredicate(tokens[0])] + TokenPredicates(tokens[1..])
  {
    var ps, rest := TokenPredicates(tokens), TokenPredicates(tokens[1..]);
    assert forall i :: 0 <= i < |rest| ==> ps[i + 1] == rest[i];
  }

  /** The fold appends exactly the reference sequence of token conditions and touches nothing else. */
  lemma {:induction false} CompileAppends(query: Query, tokens: seq<string>)
    ensures Compile(query, tokens) == query.(predicates := query.predicates + TokenPredicates(tokens))
    decreases |tokens|
  {
    if tokens == [] {
      assert TokenPredicates(tokens) == [];
      assert query.predicates + [] == query.predicates;
    } else {
      var next := Where(query, TokenField(tokens[0]), EqualOp, true);
      CompileAppends(next, tokens[1..]);
      var head, tail := TokenPredicate(tokens[0]), TokenPredicates(tokens[1..]);
      assert next.predicates == query.predicates + [head];
      TokenPredicatesCons(tokens);
      assert (query.predicates + [head]) + tail == query.predicates + ([head] + tail);
    }
  }

  /** The token an index field stands for, if the field is a `tokenMap` field. */
  function FieldToken(field: string): Option<string> {
    if |TokenMapPrefix| <= |field| && field[..|TokenMapPrefix|] == TokenMapPrefix
    then Some(field[|TokenMapPrefix|..])
    else None
  }

  /**
   * Inverse of the compilation: the tokens a sequence of conditions requires,
   * or `None` if some condition is not a token-presence test.
   */
  function DecodeTokens(ps: seq<Predicate>): Option<seq<string>>
    decreases |ps|
  {
    if ps == [] then Some([])
    else if ps[0].op != EqualOp || !ps[0].value || FieldToken(ps[0].field).None? then None
    else
      match DecodeTokens(ps[1..])
      case None => None
      case Some(rest) => Some([FieldToken(ps[0].field).value] + rest)
  }

  /** Reading a token back from its index field gives the token. */
  lemma FieldTokenOfTokenField(token: string)
    ensures FieldToken(TokenField(token)) == Some(token)
  {
  }

  /**
   * The token conditions determine the token sequence exactly: same order,
   * same multiplicity, nothing merged and nothing dropped.
   */
  lemma {:induction false} DecodeCompiled(tokens: seq<string>)
    ensures DecodeTokens(TokenPredicates(tokens)) == Some(tokens)
    decreases |tokens|
  {
    if tokens != [] {
      var ps := TokenPredicates(tokens);
      assert ps[1..] == TokenPredicates(tokens[1..]);
      DecodeCompiled(tokens[1..]);
      FieldTokenOfTokenField(tokens[0]);
      assert [tokens[0]] + tokens[1..] == tokens;
    }
  }

  /**
   * `buildQuery`: start from the collection capped at `options.limit` and add
   * one equality condition per token of `tokenize(q)`, in order.
   */
  method BuildQuery(collection: string, q: string, options: SpreadOptions, tokenize: string -> seq<string>)
    returns (query: Query)
    ensures query == Compile(Limited(collection, options.limit), tokenize(q))
    ensures query.collection == collection && query.limit == options.limit
    ensures |query.predicates| == |tokenize(q)|
    ensures forall i :: 0 <= i < |tokenize(q)| ==> query.predicates[i] == TokenPredicate(tokenize(q)[i])
    ensures DecodeTokens(query.predicates) == Some(tokenize(q))
    ensures tokenize(q) == [] ==> query == Limited(collection, options.limit)
  {
    var tokens := tokenize(q);
    var start := Limited(collection, options.limit);
    query := start;
    for i := 0 to |tokens|
      invariant Compile(query, tokens[i..]) == Compile(start, tokens)
    {
      assert tokens[i..][1..] == tokens[i + 1..];
      query := Where(query, TokenField(tokens[i]), EqualOp, true);
    }
    assert tokens[|tokens|..] == [];
    CompileAppends(start, tokens);
    assert TokenPredicates(tokens) == query.predicates;
    DecodeCompiled(tokens);
  }
}
