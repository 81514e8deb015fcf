/** The query executor's own logic: the text of the query sent to the
    dataset backend, the local cache it writes, the sample bound, the
    executor agent's prompt, and the authorization gate in front of it. The
    backend, the cache's file format, the random sample, the retriever and
    the executor agent itself are parameters. */
module DatabaseExecutor {
  import opened Wrappers
  import opened Messages
  import opened Text

  const SampleCap := 30
  const PublicProject := "bigquery-public-data"
  const CacheDir := "local_db/"
  const DenialText := "User not authorized to access this dataset."

  /** The tool's `params`: a dataset name and the columns to fetch. */
  datatype QueryParams = QueryParams(dataset: string, columns: seq<string>)

  // ---------------------------------------------------------------- query

  /** `", ".join(columns)`. */
  function ColumnList(columns: seq<string>): string
  {
    Join(columns, ", ")
  }

  /** One filter entry as `k = v`. */
  function FilterTerm(f: (string, string)): string
  {
    f.0 + " = " + f.1
  }

  function FilterTerms(filters: seq<(string, string)>): (r: seq<string>)
    ensures |r| == |filters|
    ensures forall i :: 0 <= i < |filters| ==> r[i] == FilterTerm(filters[i])
  {
    seq(|filters|, i requires 0 <= i < |filters| => FilterTerm(filters[i]))
  }

  /** Whether `filters` is truthy: given and not empty. */
  predicate HasFilters(filters: Option<seq<(string, string)>>)
  {
    filters.Some? && |filters.value| > 0
  }

  /** The WHERE line: empty without filters, otherwise `WHERE` and the terms
      joined by " AND " in the order of the mapping. */
  function WhereClause(filters: Option<seq<(string, string)>>): string
  {
    if HasFilters(filters) then "WHERE " + Join(FilterTerms(filters.value), " AND ") else ""
  }

  const QueryHead := "\n    SELECT\n        "
  const Indent := "\n    "
  const LimitClause := "LIMIT 10000"
  const QueryTail := Indent + (LimitClause + Indent)

  /** The FROM target: the dataset inside the public project, in backticks. */
  function FromTarget(dataset: string): string
  {
    "`" + PublicProject + "." + dataset + "`"
  }

  /** The FROM line. */
  function FromLine(dataset: string): string
  {
    Indent + "FROM " + FromTarget(dataset) + Indent
  }

  /** The query text of `ingest_and_query_database`, whitespace included. */
  function BuildQuery(p: QueryParams, filters: Option<seq<(string, string)>>): string
  {
    QueryHead + ColumnList(p.columns) + FromLine(p.dataset) + WhereClause(filters) + QueryTail
  }

  /** Where the WHERE line starts inside the query. */
  function WhereOffset(p: QueryParams): nat
  {
    |QueryHead| + |ColumnList(p.columns)| + |FromLine(p.dataset)|
  }

  /** The query opens with SELECT and lists the columns right after it, then
      the FROM keyword and the FROM target
      `` `bigquery-public-data.<dataset>` ``, then the WHERE line, and always
      finishes with the 10000-row LIMIT; the WHERE line is the whole text
      between the FROM line and the LIMIT line. */
  lemma QueryShape(p: QueryParams, filters: Option<seq<(string, string)>>)
    ensures var q := BuildQuery(p, filters);
      && QueryHead[5..11] == "SELECT"
      && OccursAt(ColumnList(p.columns), q, |QueryHead|)
      && OccursAt(Indent + "FROM ", q, |QueryHead| + |ColumnList(p.columns)|)
      && OccursAt(FromTarget(p.dataset), q, |QueryHead| + |ColumnList(p.columns)| + |Indent + "FROM "|)
      && q[WhereOffset(p)..|q| - |QueryTail|] == WhereClause(filters)
      && EndsWith(q, LimitClause + Indent)
  {
    QueryParts(QueryHead, ColumnList(p.columns), Indent + "FROM ", FromTarget(p.dataset), Indent,
               WhereClause(filters), Indent, LimitClause + Indent);
    KeywordAfterColumns(QueryHead, ColumnList(p.columns), Indent + "FROM ", FromTarget(p.dataset), Indent,
                        WhereClause(filters) + QueryTail);
  }

  /** The layout of the query, over arbitrary pieces:
      head, columns, (keyword, target, newline), where, (newline, tail). */
  lemma QueryParts(h: string, c: string, kw: string, t: string, nl: string, w: string, nl': string, e: string)
    ensures var q := h + c + (kw + t + nl) + w + (nl' + e);
      && OccursAt(c, q, |h|)
      && OccursAt(t, q, |h| + |c| + |kw|)
      && q[|h| + |c| + |kw + t + nl|..|q| - |nl' + e|] == w
      && EndsWith(q, e)
  {
    var q := h + c + (kw + t + nl) + w + (nl' + e);
    assert q == h + c + (kw + t + nl + w + nl' + e);
    OccursInConcat(h, c, kw + t + nl + w + nl' + e);
    assert q == (h + c + kw) + t + (nl + w + nl' + e);
    OccursInConcat(h + c + kw, t, nl + w + nl' + e);
    assert q == (h + c + (kw + t + nl)) + w + (nl' + e);
    assert q[|h + c + (kw + t + nl)|..|q| - |nl' + e|] == w;
    assert q == (h + c + (kw + t + nl) + w + nl') + e;
    EndsWithConcat(h + c + (kw + t + nl) + w + nl', e);
  }

  /** The keyword piece of the FROM line follows the head and the columns:
      `h + c + (kw + t + nl) + rest` holds `kw` at `|h| + |c|`. */
  lemma KeywordAfterColumns(h: string, c: string, kw: string, t: string, nl: string, rest: string)
    ensures OccursAt(kw, h + c + (kw + t + nl) + rest, |h| + |c|)
  {
    var q := h + c + (kw + t + nl) + rest;
    assert q == (h + c) + kw + (t + nl + rest);
    OccursInConcat(h + c, kw, t + nl + rest);
  }

  /** A WHERE line appears exactly when filters are given and not empty; it
      then holds one `k = v` term per entry, in order, separated by " AND ". */
  lemma WhereClauseShape(filters: Option<seq<(string, string)>>, i: nat)
    ensures WhereClause(filters) == "" <==> !HasFilters(filters)
    ensures HasFilters(filters) ==> OccursAt("WHERE ", WhereClause(filters), 0)
    ensures HasFilters(filters) && i < |filters.value| ==>
      var terms := FilterTerms(filters.value);
      && OccursAt(FilterTerm(filters.value[i]), WhereClause(filters), 6 + JoinOffset(terms, " AND ", i))
      && (i + 1 < |terms| ==>
            OccursAt(" AND ", WhereClause(filters), 6 + JoinOffset(terms, " AND ", i) + |terms[i]|))
  {
    if HasFilters(filters) && i < |filters.value| {
      var terms := FilterTerms(filters.value);
      var j := Join(terms, " AND ");
      JoinPlaces(terms, " AND ", i);
      var k := JoinOffset(terms, " AND ", i);
      assert WhereClause(filters) == "WHERE " + j;
      assert ("WHERE " + j)[6 + k..6 + k + |terms[i]|] == j[k..k + |terms[i]|];
      if i + 1 < |terms| {
        var k' := k + |terms[i]|;
        assert ("WHERE " + j)[6 + k'..6 + k' + 5] == j[k'..k' + 5];
      }
    }
  }

  /** The WHERE line is "WHERE ", the terms and the separators between them,
      and nothing else: its length is exactly theirs. */
  lemma WhereClauseLength(filters: Option<seq<(string, string)>>)
    requires HasFilters(filters)
    ensures var terms := FilterTerms(filters.value);
      |WhereClause(filters)| == |"WHERE "| + SumLen(terms) + (|terms| - 1) * |" AND "|
  {
    JoinLength(FilterTerms(filters.value), " AND ");
  }

  /** The columns appear in the given order, separated by ", ". */
  lemma ColumnListOrder(columns: seq<string>, i: nat)
    requires i < |columns|
    ensures OccursAt(columns[i], ColumnList(columns), JoinOffset(columns, ", ", i))
    ensures i + 1 < |columns| ==>
              OccursAt(", ", ColumnList(columns), JoinOffset(columns, ", ", i) + |columns[i]|)
  {
    JoinPlaces(columns, ", ", i);
  }

  // ---------------------------------------------------------- local cache

  /** `dataset.replace('.', '_')`: the local table name. */
  function TableName(dataset: string): (r: string)
    ensures |r| == |dataset|
    ensures '.' !in r
    ensures forall i :: 0 <= i < |dataset| ==> r[i] == (if dataset[i] == '.' then '_' else dataset[i])
  {
    var r := ReplaceChar(dataset, '.', '_');
    assert forall i :: 0 <= i < |r| ==> r[i] != '.';
    r
  }

  /** The cache file of a dataset: `local_db/<table name>.db`. */
  function DbPath(dataset: string): string
  {
    CacheDir + TableName(dataset) + ".db"
  }

  /** Two datasets share a cache file exactly when they share a table name,
      which happens as soon as they differ only in '.' against '_'. */
  lemma DbPathFollowsTableName(a: string, b: string)
    ensures DbPath(a) == DbPath(b) <==> TableName(a) == TableName(b)
  {
    if DbPath(a) == DbPath(b) {
      var n := |TableName(a)|;
      assert |TableName(b)| == n;
      assert TableName(a) == DbPath(a)[9..9 + n];
      assert TableName(b) == DbPath(b)[9..9 + n];
    }
  }

  lemma CacheNamesCollide()
    ensures DbPath("a.b") == DbPath("a_b") && "a.b" != "a_b"
  {
    assert TableName("a.b") == "a_b";
    assert TableName("a_b") == "a_b";
  }

  /** The local cache: for each file, its tables by name. */
  type LocalDb<R> = map<string, map<string, seq<R>>>

  /** `min(30, len(df))`. */
  function SampleSize(rows: nat): (r: nat)
    ensures r <= SampleCap && r <= rows
    ensures r == SampleCap || r == rows
  {
    if rows < SampleCap then rows else SampleCap
  }

  /** What the tool returns: `[]` for an empty result, otherwise a sample of
      `sampleSize` rows out of those cached under `dbPath`/`table`. */
  datatype Ingest = NoRows | Sampled(dbPath: string, table: string, sampleSize: nat)

  datatype IngestResult<R> = IngestResult(outcome: Ingest, db: LocalDb<R>)

  /** `ingest_and_query_database`: fetch the rows the query selects; an empty
      result returns `[]` before anything is written; otherwise the table of
      the dataset's cache file is replaced by the rows, no other table or file
      changes, and the sample has at most 30 rows. */
  function IngestAndQuery<R>(p: QueryParams, filters: Option<seq<(string, string)>>,
                             fetch: string -> seq<R>, db: LocalDb<R>): (r: IngestResult<R>)
    ensures var rows := fetch(BuildQuery(p, filters));
      && (|rows| == 0 <==> r.outcome == NoRows)
      && (|rows| == 0 ==> r.db == db)
      && (|rows| > 0 ==>
            && r.outcome == Sampled(DbPath(p.dataset), TableName(p.dataset), SampleSize(|rows|))
            && 0 < r.outcome.sampleSize <= SampleCap
            && r.outcome.sampleSize <= |rows|
            && r.db.Keys == db.Keys + {DbPath(p.dataset)}
            && r.db[DbPath(p.dataset)].Keys ==
                 (if DbPath(p.dataset) in db then db[DbPath(p.dataset)].Keys else {}) + {TableName(p.dataset)}
            && TableName(p.dataset) in r.db[DbPath(p.dataset)]
            && r.db[DbPath(p.dataset)][TableName(p.dataset)] == rows
            && (forall f :: f in db && f != DbPath(p.dataset) ==> r.db[f] == db[f])
            && (DbPath(p.dataset) in db ==>
                  forall t :: t in db[DbPath(p.dataset)] && t != TableName(p.dataset) ==>
                    t in r.db[DbPath(p.dataset)] && r.db[DbPath(p.dataset)][t] == db[DbPath(p.dataset)][t]))
  {
    var rows := fetch(BuildQuery(p, filters));
    if |rows| == 0 then IngestResult(NoRows, db)
    else
      var path := DbPath(p.dataset);
      var table := TableName(p.dataset);
      var tables := if path in db then db[path] else map[];
      IngestResult(Sampled(path, table, SampleSize(|rows|)), db[path := tables[table := rows]])
  }

  /** Refreshing the cache twice with the same rows is the same as once: the
      table is overwritten, not appended to. */
  lemma IngestOverwrites<R>(p: QueryParams, filters: Option<seq<(string, string)>>,
                            fetch: string -> seq<R>, db: LocalDb<R>)
    ensures var once := IngestAndQuery(p, filters, fetch, db);
            IngestAndQuery(p, filters, fetch, once.db) == once
  {
    var once := IngestAndQuery(p, filters, fetch, db);
    var twice := IngestAndQuery(p, filters, fetch, once.db);
    if |fetch(BuildQuery(p, filters))| > 0 {
      var path := DbPath(p.dataset);
      assert twice.db.Keys == once.db.Keys;
      assert twice.db[path] == once.db[path];
      assert twice.db == once.db;
    }
  }

  // --------------------------------------------------------- agent prompt

  const PromptHead :=
    "\nYou are an assistant that uses tools to initiate the ingestion of specified databases. \n"
    + "The tools only return a small sample portion of the ingested data.\n\nUser request:\n"
  const PromptDataset := "\n\nAvailable database:\n- Dataset: "
  const PromptColumns := "\n- Columns: "
  const PromptTail :=
    "\n\n1. Use ONLY the dataset and columns above when answering.\n"
    + "2. Focus on very brief summaries, insights, or aggregations; do NOT display large data samples.\n"

  /** `build_agent_prompt`. */
  function BuildAgentPrompt(request: string, spec: Spec): string
  {
    PromptHead + request + PromptDataset + spec.dataset + PromptColumns + ColumnList(spec.columns) + PromptTail
  }

  /** The prompt holds the user's request, then the dataset name, then the
      columns joined by ", ", each at the place the template gives it. */
  lemma PromptHoldsRequestAndSpec(request: string, spec: Spec)
    ensures var p := BuildAgentPrompt(request, spec);
      && OccursAt(request, p, |PromptHead|)
      && OccursAt(spec.dataset, p, |PromptHead| + |request| + |PromptDataset|)
      && OccursAt(ColumnList(spec.columns), p,
                  |PromptHead| + |request| + |PromptDataset| + |spec.dataset| + |PromptColumns|)
      && Contains(p, request) && Contains(p, spec.dataset) && Contains(p, ColumnList(spec.columns))
  {
    var p := BuildAgentPrompt(request, spec);
    var k1 := |PromptHead|;
    var k2 := k1 + |request| + |PromptDataset|;
    var k3 := k2 + |spec.dataset| + |PromptColumns|;
    var c := ColumnList(spec.columns);
    assert p == PromptHead + request + PromptDataset + spec.dataset + PromptColumns + c + PromptTail;
    assert p[k1..k1 + |request|] == request;
    assert p[k2..k2 + |spec.dataset|] == spec.dataset;
    assert p[k3..k3 + |c|] == c;
    assert OccursAt(request, p, k1) && OccursAt(spec.dataset, p, k2) && OccursAt(c, p, k3);
  }

  // ------------------------------------------------------ authorization

  /** `username in allowed_users`: exact membership, no normalisation. */
  predicate Authorized(username: string, spec: Spec)
  {
    username in spec.allowedUsers
  }

  /** `database_agent_entrypoint`: the last message's content is the user
      request; the retriever picks a specification for it; a user not on its
      allow-list gets one fixed AI message and the executor agent is not run;
      otherwise the agent gets one human message holding the prompt. */
  function Entrypoint(history: seq<Message>, username: string, specs: seq<Spec>,
                      retrieve: (string, seq<Spec>) -> Spec,
                      agent: seq<Message> -> seq<Message>): (r: seq<Message>)
    requires |history| > 0
    ensures var spec := retrieve(history[|history| - 1].content, specs);
      && (!Authorized(username, spec) ==> r == [AI(DenialText, [])])
      && (Authorized(username, spec) ==>
            r == agent([Human(BuildAgentPrompt(history[|history| - 1].content, spec))]))
  {
    var request := history[|history| - 1].content;
    var spec := retrieve(request, specs);
    if !Authorized(username, spec) then [AI(DenialText, [])]
    else agent([Human(BuildAgentPrompt(request, spec))])
  }

  /** A denial does not depend on the executor agent at all. */
  lemma DenialSkipsAgent(history: seq<Message>, username: string, specs: seq<Spec>,
                         retrieve: (string, seq<Spec>) -> Spec,
                         agent: seq<Message> -> seq<Message>, agent': seq<Message> -> seq<Message>)
    requires |history| > 0
    requires !Authorized(username, retrieve(history[|history| - 1].content, specs))
    ensures Entrypoint(history, username, specs, retrieve, agent)
         == Entrypoint(history, username, specs, retrieve, agent')
    ensures |Entrypoint(history, username, specs, retrieve, agent)| == 1
  {
  }

  /** The allow-list is matched case for case: a user whose name differs
      from a listed one only in case is denied, whatever the agent would do. */
  lemma CaseSensitiveDenial(history: seq<Message>, specs: seq<Spec>,
                            retrieve: (string, seq<Spec>) -> Spec,
                            agent: seq<Message> -> seq<Message>)
    requires |history| > 0
    requires retrieve(history[|history| - 1].content, specs).allowedUsers == ["alice"]
    ensures Entrypoint(history, "Alice", specs, retrieve, agent) == [AI(DenialText, [])]
  {
    assert ["alice"][0] != "Alice";
  }

  /** `run_database_agent`: a one-message history holding the request. */
  function RunDatabaseAgent(request: string, username: string, specs: seq<Spec>,
                            retrieve: (string, seq<Spec>) -> Spec,
                            agent: seq<Message> -> seq<Message>): seq<Message>
  {
    Entrypoint([Human(request)], username, specs, retrieve, agent)
  }

  /** Through `run_database_agent` the retriever sees exactly the request, and
      an authorized user's request reaches the agent inside its one prompt. */
  lemma RunPassesRequest(request: string, username: string, specs: seq<Spec>,
                         retrieve: (string, seq<Spec>) -> Spec,
                         agent: seq<Message> -> seq<Message>)
    ensures var spec := retrieve(request, specs);
      && (!Authorized(username, spec) ==>
            RunDatabaseAgent(request, username, specs, retrieve, agent) == [AI(DenialText, [])])
      && (Authorized(username, spec) ==>
            RunDatabaseAgent(request, username, specs, retrieve, agent)
              == agent([Human(BuildAgentPrompt(request, spec))])
            && Contains(BuildAgentPrompt(request, spec), request))
  {
    PromptHoldsRequestAndSpec(request, retrieve(request, specs));
  }
}
