/**
 * The relational transaction log. The database is a table of rows keyed by the transaction
 * identifier; each statement is modelled by what it does to that table. Whether a statement
 * fails for a reason the table cannot show (a lost connection, a constraint of the schema) is
 * the `fault` parameter of the operation. SQL texts are kept as sequences of literal fragments
 * and `?` placeholders.
 */
module JdbcRepository {
  import opened Wrappers
  import opened JavaTypes
  import opened TransactionStatuses
  import opened TransactionContexts
  import opened Transactions

  /**
   * One row of the TCC_TRANSACTION table. The column types follow the statements: status and
   * retried count are read with getInt, the version with getLong. IS_DELETE is never written by
   * the repository; a new row carries 0 there, the column's default.
   */
  datatype Row = Row(
    transactionType: TransactionType,
    content: seq<bv8>,
    status: Int32,
    retriedCount: Int32,
    createTime: int,
    lastUpdateTime: int,
    version: Int64,
    domain: Option<string>,
    isDelete: int)

  /** The rows, keyed by (GLOBAL_TX_ID, BRANCH_QUALIFIER), which the schema keeps unique. */
  type Table = map<Xid, Row>

  /** The unchecked exception a SQL failure becomes, unless the operation catches it. */
  datatype RepositoryError = TransactionIOException

  /**
   * How an INSERT can fail beyond what the table shows: a SQLIntegrityConstraintViolationException
   * (a violated constraint of the schema), or any other exception.
   */
  datatype InsertFailure = IntegrityViolation | OtherFailure

  /** The number of rows a statement affected, and the table after it. */
  datatype Write = Write(count: nat, table: Table)

  const MAX_LONG: Int64 := 0x7fff_ffff_ffff_ffff

  /** The DOMAIN value written by an INSERT: the domain when it is set, NULL otherwise. */
  function DomainColumn(domain: string): (d: Option<string>)
    ensures d.Some? <==> IsNotEmpty(domain)
    ensures d.Some? ==> d.value == domain
  {
    if IsNotEmpty(domain) then Some(domain) else None
  }

  /** The `AND DOMAIN = ?` filter each statement adds when a domain is set. */
  predicate InDomain(row: Row, domain: string) {
    !IsNotEmpty(domain) || row.domain == Some(domain)
  }

  /** The row `doCreate` inserts for a transaction whose serialized form is `content`. */
  function NewRow(state: TransactionState, content: seq<bv8>, domain: string): (row: Row)
    ensures ValueOf(row.status) == state.status
    ensures row.version == state.version && row.retriedCount == state.retriedCount
    ensures row.lastUpdateTime == state.lastUpdateTime && row.createTime == state.createTime
    ensures row.content == content && row.isDelete == 0
    ensures InDomain(row, domain)
  {
    Row(state.transactionType, content, state.status.GetId(), state.retriedCount, state.createTime, state.lastUpdateTime,
        state.version, DomainColumn(domain), 0)
  }

  /** An INSERT: a key already present is a constraint violation, which changes nothing and counts 0. */
  function Insert(table: Table, key: Xid, row: Row): (w: Write)
    ensures w.table.Keys == table.Keys + {key}
    ensures key in w.table && w.table[key] == (if key in table then table[key] else row)
    ensures forall k :: k in table ==> w.table[k] == table[k]
    ensures w.count == |w.table.Keys| - |table.Keys|
  {
    if key in table then Write(0, table) else Write(1, table[key := row])
  }

  /** The columns the UPDATE of `doUpdate` sets, besides the version. */
  datatype UpdatedColumns = UpdatedColumns(content: seq<bv8>, status: Int32, lastUpdateTime: int, retriedCount: Int32)

  /** The WHERE clause of `doUpdate`: this key, this domain if set, and the version the writer last read. */
  predicate CasMatch(table: Table, key: Xid, expected: Int64, domain: string) {
    key in table && InDomain(table[key], domain) && table[key].version == expected
  }

  /**
   * The UPDATE of `doUpdate` as a compare-and-swap on VERSION: only a row whose version is still
   * the expected one changes, and its version moves to VERSION+1. At the largest BIGINT the
   * database refuses VERSION+1 as out of range, which fails the statement.
   */
  function CompareAndSet(table: Table, key: Xid, expected: Int64, domain: string, columns: UpdatedColumns): (r: Result<Write, RepositoryError>)
    ensures r.Failure? <==> CasMatch(table, key, expected, domain) && expected == MAX_LONG
    ensures r.Success? ==> r.value.count <= 1 && (r.value.count == 1 <==> CasMatch(table, key, expected, domain))
    ensures r.Success? && r.value.count == 0 ==> r.value.table == table
    ensures r.Success? && r.value.count == 1 ==>
      && r.value.table.Keys == table.Keys
      && (forall k :: k in table && k != key ==> r.value.table[k] == table[k])
      && r.value.table[key].version as int == expected as int + 1
      && r.value.table[key].content == columns.content
      && r.value.table[key].status == columns.status
      && r.value.table[key].lastUpdateTime == columns.lastUpdateTime
      && r.value.table[key].retriedCount == columns.retriedCount
      && r.value.table[key].(content := table[key].content, status := table[key].status, lastUpdateTime := table[key].lastUpdateTime,
                             retriedCount := table[key].retriedCount, version := table[key].version) == table[key]
  {
    if !CasMatch(table, key, expected, domain) then Success(Write(0, table))
    else if table[key].version == MAX_LONG then Failure(TransactionIOException)
    else
      var row := table[key];
      Success(Write(1, table[key := row.(content := columns.content, status := columns.status, lastUpdateTime := columns.lastUpdateTime,
                                         retriedCount := columns.retriedCount, version := row.version + 1)]))
  }

  /** The DELETE of `doDelete`: this key, this domain if set; no version check. */
  function Delete(table: Table, key: Xid, domain: string): (w: Write)
    ensures w.count <= 1 && (w.count == 1 <==> key in table && InDomain(table[key], domain))
    ensures w.count == 1 ==> key !in w.table && w.table.Keys == table.Keys - {key}
    ensures w.count == 0 ==> w.table == table
    ensures forall k :: k in w.table ==> k in table && w.table[k] == table[k]
  {
    if key in table && InDomain(table[key], domain) then Write(1, table - {key}) else Write(0, table)
  }

  /** The WHERE clause `doFind` means: one of the identifiers and, when set, the domain. */
  predicate FindWhere(xids: seq<Xid>, domain: string, key: Xid, row: Row) {
    key in xids && InDomain(row, domain)
  }

  /**
   * The WHERE clause `doFind` builds, as SQL reads it: `(p1) OR ... OR (pn) AND DOMAIN = ?`
   * groups as `(p1) OR ... OR ((pn) AND DOMAIN = ?)`, since AND binds tighter than OR.
   */
  predicate FindWhereAsWritten(xids: seq<Xid>, domain: string, key: Xid, row: Row) {
    if !IsNotEmpty(domain) || |xids| == 0 then key in xids
    else key in xids[..|xids| - 1] || (key == xids[|xids| - 1] && InDomain(row, domain))
  }

  /** The WHERE clause of `doFindAllUnmodifiedSince`: not updated since `date`, not deleted, in the domain if set. */
  predicate Unmodified(row: Row, date: int, domain: string) {
    row.lastUpdateTime < date && row.isDelete == 0 && InDomain(row, domain)
  }

  /**
   * The SELECTs the repository issues: `doFind`'s statement as built, the same statement with
   * the domain filter it is meant to have, and `doFindAllUnmodifiedSince`'s.
   */
  datatype Filter = ByXidsAsWritten(xids: seq<Xid>) | ByXids(xids: seq<Xid>) | UnmodifiedSince(date: int)

  predicate Selects(filter: Filter, domain: string, key: Xid, row: Row) {
    match filter
    case ByXidsAsWritten(xids) => FindWhereAsWritten(xids, domain, key, row)
    case ByXids(xids) => FindWhere(xids, domain, key, row)
    case UnmodifiedSince(date) => Unmodified(row, date, domain)
  }

  /** `keys` lists every row the filter selects, once each, in some order. */
  ghost predicate Selection(table: Table, filter: Filter, domain: string, keys: seq<Xid>) {
    && (forall j :: 0 <= j < |keys| ==> keys[j] in table && Selects(filter, domain, keys[j], table[keys[j]]))
    && (forall k :: k in table && Selects(filter, domain, k, table[k]) ==> k in keys)
    && (forall i, j :: 0 <= i < j < |keys| ==> keys[i] != keys[j])
  }

  /** `constructTransactions` on one row: the stored object, with status, time, version and retry count taken from their columns. */
  function Load(deserialize: seq<bv8> -> TransactionState, row: Row): TransactionState {
    deserialize(row.content).(status := ValueOf(row.status), lastUpdateTime := row.lastUpdateTime,
                              version := row.version, retriedCount := row.retriedCount)
  }

  /** A fragment of SQL text: literal text, or one `?` placeholder. */
  datatype SqlPart = Text(text: string) | Placeholder

  /** A value bound to a placeholder. */
  datatype SqlParam = BytesParam(bytes: seq<bv8>) | StringParam(text: string)

  function Placeholders(parts: seq<SqlPart>): nat {
    if |parts| == 0 then 0
    else Placeholders(parts[..|parts| - 1]) + (if parts[|parts| - 1].Placeholder? then 1 else 0)
  }

  lemma {:induction false} PlaceholdersConcat(a: seq<SqlPart>, b: seq<SqlPart>)
    ensures Placeholders(a + b) == Placeholders(a) + Placeholders(b)
  {
    if |b| > 0 {
      var front := b[..|b| - 1];
      assert (a + b)[..|a + b| - 1] == a + front;
      PlaceholdersConcat(a, front);
    } else {
      assert a + b == a;
    }
  }

  function Repeat(parts: seq<SqlPart>, n: nat): seq<SqlPart> {
    if n == 0 then [] else Repeat(parts, n - 1) + parts
  }

  lemma {:induction false} PlaceholdersRepeat(parts: seq<SqlPart>, n: nat)
    ensures Placeholders(Repeat(parts, n)) == n * Placeholders(parts)
  {
    if n > 0 {
      PlaceholdersRepeat(parts, n - 1);
      PlaceholdersConcat(Repeat(parts, n - 1), parts);
    }
  }

  /** `StringBuilder.delete(length - n, length)` when the last fragment is literal text at least n long. */
  function DeleteTail(parts: seq<SqlPart>, n: nat): seq<SqlPart>
    requires |parts| > 0 && parts[|parts| - 1].Text? && n <= |parts[|parts| - 1].text|
  {
    var last := parts[|parts| - 1].text;
    parts[..|parts| - 1] + [Text(last[..|last| - n])]
  }

  const SELECT_COLUMNS: string := "SELECT GLOBAL_TX_ID, BRANCH_QUALIFIER, CONTENT,STATUS,TRANSACTION_TYPE,CREATE_TIME,LAST_UPDATE_TIME,RETRIED_COUNT,VERSION"
  /** The fragment `doFind` appends once per identifier. */
  const XID_CONDITION: seq<SqlPart> := [Text(" ( GLOBAL_TX_ID = "), Placeholder, Text(" AND BRANCH_QUALIFIER = "), Placeholder, Text(" ) OR")]
  /** The same condition without its trailing OR. */
  const XID_PAIR: seq<SqlPart> := [Text(" ( GLOBAL_TX_ID = "), Placeholder, Text(" AND BRANCH_QUALIFIER = "), Placeholder, Text(" ) ")]
  const DOMAIN_FILTER: seq<SqlPart> := [Text(" AND DOMAIN = "), Placeholder]

  lemma FragmentPlaceholders()
    ensures Placeholders(XID_CONDITION) == 2 && Placeholders(XID_PAIR) == 2 && Placeholders(DOMAIN_FILTER) == 1
  {
    assert XID_CONDITION == [XID_CONDITION[0]] + [Placeholder] + [XID_CONDITION[2]] + [Placeholder] + [XID_CONDITION[4]];
    assert XID_PAIR == [XID_PAIR[0]] + [Placeholder] + [XID_PAIR[2]] + [Placeholder] + [XID_PAIR[4]];
    assert DOMAIN_FILTER == [DOMAIN_FILTER[0]] + [Placeholder];
    forall a: seq<SqlPart>, b: seq<SqlPart> ensures Placeholders(a + b) == Placeholders(a) + Placeholders(b) {
      PlaceholdersConcat(a, b);
    }
  }

  /**
   * The statement as built lets a row of another domain through: with two identifiers and the
   * domain "A", a row of domain "B" stored under the first identifier is selected.
   */
  lemma FindAsWrittenIgnoresDomain(x1: Xid, x2: Xid, row: Row)
    requires x1 != x2 && row.domain == Some("B")
    ensures FindWhereAsWritten([x1, x2], "A", x1, row)
    ensures !FindWhere([x1, x2], "A", x1, row)
  {
    assert [x1, x2][..1] == [x1];
  }

  /** With the filter meant, every row found belongs to the repository's domain and is one of the identifiers asked for. */
  lemma FindWhereKeepsDomain(xids: seq<Xid>, domain: string, key: Xid, row: Row)
    requires FindWhere(xids, domain, key, row)
    ensures key in xids
    ensures IsNotEmpty(domain) ==> row.domain == Some(domain)
  {
  }

  /** For at most one identifier, as `doFindOne` asks, and for an unset domain, the statement as built means what is intended. */
  lemma FindAsWrittenAgrees(xids: seq<Xid>, domain: string, key: Xid, row: Row)
    requires |xids| <= 1 || !IsNotEmpty(domain)
    ensures FindWhereAsWritten(xids, domain, key, row) <==> FindWhere(xids, domain, key, row)
  {
    if |xids| == 1 {
      assert xids[..0] == [];
    }
  }

  /**
   * Two writers that read the same version race: whichever updates first changes the row, and
   * the second, still expecting the old version, affects no row.
   */
  lemma CompareAndSetRace(table: Table, key: Xid, expected: Int64, domain: string, first: UpdatedColumns, second: UpdatedColumns)
    requires CompareAndSet(table, key, expected, domain, first).Success?
    requires CompareAndSet(table, key, expected, domain, first).value.count == 1
    ensures var after := CompareAndSet(table, key, expected, domain, first).value.table;
      CompareAndSet(after, key, expected, domain, second) == Success(Write(0, after))
  {
  }

  /** What `doCreate` stores, `constructTransactions` reads back: status, version, retry count and last update time survive the round trip. */
  lemma CreateThenLoad(table: Table, state: TransactionState, content: seq<bv8>, domain: string, deserialize: seq<bv8> -> TransactionState)
    requires state.xid !in table
    ensures var loaded := Load(deserialize, Insert(table, state.xid, NewRow(state, content, domain)).table[state.xid]);
      && loaded.status == state.status && loaded.version == state.version
      && loaded.retriedCount == state.retriedCount && loaded.lastUpdateTime == state.lastUpdateTime
  {
  }

  /** After a successful `doUpdate`, reading the row back gives the in-memory version, unless that version wrapped. */
  lemma UpdateThenLoad(table: Table, key: Xid, expected: Int64, domain: string, columns: UpdatedColumns, deserialize: seq<bv8> -> TransactionState)
    requires CompareAndSet(table, key, expected, domain, columns).Success?
    requires CompareAndSet(table, key, expected, domain, columns).value.count == 1
    ensures var loaded := Load(deserialize, CompareAndSet(table, key, expected, domain, columns).value.table[key]);
      && loaded.version == Inc64(expected)
      && loaded.status == ValueOf(columns.status)
      && loaded.lastUpdateTime == columns.lastUpdateTime && loaded.retriedCount == columns.retriedCount
  {
  }

  /** A row `doDelete` removed is not found again, by identifier or by the recovery filter. */
  lemma DeleteThenAbsent(table: Table, key: Xid, domain: string, filter: Filter)
    requires Delete(table, key, domain).count == 1
    ensures var after := Delete(table, key, domain).table;
      forall keys :: Selection(after, filter, domain, keys) ==> key !in keys
  {
  }

  class JdbcTransactionRepository {
    /** The application the rows belong to; "" stands for an unset domain. */
    const domain: string
    const tbSuffix: string
    /** The object serializer: what a transaction is stored as, and what stored bytes decode to. */
    const serialize: TransactionState -> seq<bv8>
    const deserialize: seq<bv8> -> TransactionState
    /** The database table behind the data source. */
    var table: Table

    constructor (domain: string, tbSuffix: string, serialize: TransactionState -> seq<bv8>, deserialize: seq<bv8> -> TransactionState, table: Table)
      ensures this.domain == domain && this.tbSuffix == tbSuffix
      ensures this.serialize == serialize && this.deserialize == deserialize && this.table == table
    {
      this.domain := domain;
      this.tbSuffix := tbSuffix;
      this.serialize := serialize;
      this.deserialize := deserialize;
      this.table := table;
    }

    /** `getTableName`: TCC_TRANSACTION, followed by the suffix when one is set. */
    function GetTableName(): (name: string)
      ensures name == "TCC_TRANSACTION" + tbSuffix
      ensures !IsNotEmpty(tbSuffix) ==> name == "TCC_TRANSACTION"
    {
      if IsNotEmpty(tbSuffix) then "TCC_TRANSACTION" + tbSuffix else "TCC_TRANSACTION"
    }

    /**
     * `doCreate`: 1 when the row is inserted; 0 on an integrity violation, which is what a
     * duplicate key raises; TransactionIOException on any other failure.
     */
    method DoCreate(transaction: Transaction, fault: Option<InsertFailure>) returns (r: Result<int, RepositoryError>)
      modifies this
      ensures var w := Insert(old(table), transaction.xid, NewRow(transaction.State(), serialize(transaction.State()), domain));
        match fault
        case Some(IntegrityViolation) => r == Success(0) && table == old(table)
        case Some(OtherFailure) => r == Failure(TransactionIOException) && table == old(table)
        case None => r == Success(w.count) && table == w.table
    {
      match fault {
        case Some(IntegrityViolation) => return Success(0);
        case Some(OtherFailure) => return Failure(TransactionIOException);
        case None =>
      }
      var state := transaction.State();
      var w := Insert(table, transaction.GetXid(), NewRow(state, serialize(state), domain));
      table := w.table;
      r := Success(w.count);
    }

    /**
     * `doUpdate`: the in-memory time and version move forward first; the UPDATE then writes the
     * row only if its VERSION is still the version read before; on a failure both in-memory
     * fields go back to their earlier values. Zero rows affected restores nothing.
     */
    method DoUpdate(transaction: Transaction, now: int, fault: bool) returns (r: Result<int, RepositoryError>)
      modifies this, transaction
      ensures var saved := old(transaction.State());
        var bumped := saved.(lastUpdateTime := now, version := Inc64(saved.version));
        var cas := CompareAndSet(old(table), saved.xid, saved.version, domain,
                                 UpdatedColumns(serialize(bumped), bumped.status.GetId(), now, bumped.retriedCount));
        if fault || cas.Failure? then r == Failure(TransactionIOException) && table == old(table) && transaction.State() == saved
        else r == Success(cas.value.count) && table == cas.value.table && transaction.State() == bumped
    {
      var lastUpdateTime := transaction.lastUpdateTime;
      var currentVersion := transaction.version;
      transaction.UpdateTime(now);
      transaction.UpdateVersion();
      var state := transaction.State();
      var cas := CompareAndSet(table, transaction.GetXid(), currentVersion, domain,
                               UpdatedColumns(serialize(state), state.status.GetId(), state.lastUpdateTime, state.retriedCount));
      if fault || cas.Failure? {
        transaction.SetLastUpdateTime(lastUpdateTime);
        transaction.SetVersion(currentVersion);
        return Failure(TransactionIOException);
      }
      table := cas.value.table;
      r := Success(cas.value.count);
    }

    /** `doDelete`: the number of rows removed, 0 or 1. */
    method DoDelete(transaction: Transaction, fault: bool) returns (r: Result<int, RepositoryError>)
      modifies this
      ensures var w := Delete(old(table), transaction.xid, domain);
        if fault then r == Failure(TransactionIOException) && table == old(table)
        else r == Success(w.count) && table == w.table
    {
      if fault {
        return Failure(TransactionIOException);
      }
      var w := Delete(table, transaction.GetXid(), domain);
      table := w.table;
      r := Success(w.count);
    }

    /** `executeQuery`: every selected row once, in an order the database chooses. */
    method Query(filter: Filter) returns (rows: seq<Row>, ghost keys: seq<Xid>)
      ensures Selection(table, filter, domain, keys)
      ensures |rows| == |keys| && forall j :: 0 <= j < |rows| ==> rows[j] == table[keys[j]]
    {
      var remaining := set k | k in table && Selects(filter, domain, k, table[k]);
      ghost var selected := remaining;
      rows := [];
      keys := [];
      while remaining != {}
        invariant remaining <= selected
        invariant |rows| == |keys|
        invariant forall j :: 0 <= j < |keys| ==> keys[j] in selected && keys[j] !in remaining && rows[j] == table[keys[j]]
        invariant forall k :: k in selected ==> k in remaining || k in keys
        invariant forall i, j :: 0 <= i < j < |keys| ==> keys[i] != keys[j]
        decreases |remaining|
      {
        var key :| key in remaining;
        rows := rows + [table[key]];
        keys := keys + [key];
        remaining := remaining - {key};
      }
    }

    /** `constructTransactions`: one fresh transaction per row, in the order of the rows. */
    method ConstructTransactions(rows: seq<Row>) returns (transactions: seq<Transaction>)
      ensures |transactions| == |rows|
      ensures forall j :: 0 <= j < |rows| ==> fresh(transactions[j]) && transactions[j].State() == Load(deserialize, rows[j])
    {
      transactions := [];
      for k := 0 to |rows|
        invariant |transactions| == k
        invariant forall j :: 0 <= j < k ==> fresh(transactions[j]) && transactions[j].State() == Load(deserialize, rows[j])
      {
        var transaction := new Transaction.Deserialized(deserialize(rows[k].content));
        transaction.ChangeStatus(ValueOf(rows[k].status));
        transaction.SetLastUpdateTime(rows[k].lastUpdateTime);
        transaction.SetVersion(rows[k].version);
        transaction.ResetRetriedCount(rows[k].retriedCount);
        transactions := transactions + [transaction];
      }
    }

    /**
     * The SELECT text `doFind` means for n identifiers: the columns, then one condition per
     * identifier joined by OR, then the domain filter when a domain is set.
     */
    function FindSql(n: nat): seq<SqlPart>
      requires n > 0
    {
      [Text(SELECT_COLUMNS), Text(if IsNotEmpty(domain) then ",DOMAIN" else ""), Text("  FROM " + GetTableName() + " WHERE")]
      + Repeat(XID_CONDITION, n - 1) + XID_PAIR
      + (if IsNotEmpty(domain) then DOMAIN_FILTER else [])
    }

    /** How `doFind` builds that text: append a condition per identifier, then delete the final "OR". */
    method BuildFindSql(n: nat) returns (sql: seq<SqlPart>)
      requires n > 0
      ensures sql == FindSql(n)
    {
      var builder := [Text(SELECT_COLUMNS), Text(if IsNotEmpty(domain) then ",DOMAIN" else ""), Text("  FROM " + GetTableName() + " WHERE")];
      ghost var head := builder;
      for k := 0 to n
        invariant builder == head + Repeat(XID_CONDITION, k)
      {
        builder := builder + XID_CONDITION;
      }
      assert builder == head + Repeat(XID_CONDITION, n - 1) + XID_CONDITION;
      assert XID_CONDITION[4].text[..3] == " ) ";
      builder := DeleteTail(builder, 2);
      assert builder == head + Repeat(XID_CONDITION, n - 1) + XID_PAIR;
      if IsNotEmpty(domain) {
        builder := builder + DOMAIN_FILTER;
      }
      sql := builder;
    }

    /** The SQL text has exactly one placeholder per position `doFind` binds. */
    lemma FindSqlPlaceholders(n: nat)
      requires n > 0
      ensures Placeholders(FindSql(n)) == 2 * n + (if IsNotEmpty(domain) then 1 else 0)
    {
      var head := [Text(SELECT_COLUMNS), Text(if IsNotEmpty(domain) then ",DOMAIN" else ""), Text("  FROM " + GetTableName() + " WHERE")];
      var tail := if IsNotEmpty(domain) then DOMAIN_FILTER else [];
      FragmentPlaceholders();
      PlaceholdersRepeat(XID_CONDITION, n - 1);
      assert Placeholders(head) == 0 by {
        assert head == [head[0]] + [head[1]] + [head[2]];
        PlaceholdersConcat([head[0]] + [head[1]], [head[2]]);
        PlaceholdersConcat([head[0]], [head[1]]);
      }
      PlaceholdersConcat(head, Repeat(XID_CONDITION, n - 1));
      PlaceholdersConcat(head + Repeat(XID_CONDITION, n - 1), XID_PAIR);
      PlaceholdersConcat(head + Repeat(XID_CONDITION, n - 1) + XID_PAIR, tail);
    }

    /** The value `doFind` binds at position j (from 1) for the identifiers: global id, then branch qualifier, per identifier. */
    static function XidParam(xids: seq<Xid>, j: int): SqlParam
      requires 1 <= j <= 2 * |xids|
    {
      if j % 2 == 1 then BytesParam(xids[j / 2].globalTransactionId) else BytesParam(xids[j / 2 - 1].branchQualifier)
    }

    /** How `doFind` binds its parameters: a counter `i` pre-incremented before each bind. */
    method BindFindParameters(xids: seq<Xid>) returns (params: map<int, SqlParam>, i: int)
      ensures i == 2 * |xids| + (if IsNotEmpty(domain) then 1 else 0)
      ensures forall j :: j in params <==> 1 <= j <= i
      ensures forall j :: 1 <= j <= 2 * |xids| ==> params[j] == XidParam(xids, j)
      ensures IsNotEmpty(domain) ==> params[i] == StringParam(domain)
    {
      params := map[];
      i := 0;
      for k := 0 to |xids|
        invariant i == 2 * k
        invariant forall j :: j in params <==> 1 <= j <= i
        invariant forall j :: 1 <= j <= i ==> params[j] == XidParam(xids, j)
      {
        i := i + 1;
        params := params[i := BytesParam(xids[k].globalTransactionId)];
        i := i + 1;
        params := params[i := BytesParam(xids[k].branchQualifier)];
      }
      if IsNotEmpty(domain) {
        i := i + 1;
        params := params[i := StringParam(domain)];
      }
    }

    /**
     * `doFind`: no identifiers means no query and an empty list. Otherwise the statement is the
     * text `BuildFindSql` builds, with every placeholder bound as `BindFindParameters` binds it,
     * and the result is one transaction per row that this statement selects, which is
     * `FindWhereAsWritten`: the domain filter guards the last identifier only.
     */
    method DoFind(xids: seq<Xid>, fault: bool)
      returns (r: Result<seq<Transaction>, RepositoryError>, ghost keys: seq<Xid>, ghost statement: seq<SqlPart>, ghost bound: map<int, SqlParam>)
      ensures |xids| == 0 ==> r == Success([])
      ensures |xids| > 0 ==>
        && statement == FindSql(|xids|)
        && Placeholders(statement) == 2 * |xids| + (if IsNotEmpty(domain) then 1 else 0)
        && (forall j :: j in bound <==> 1 <= j <= Placeholders(statement))
        && (forall j :: 1 <= j <= 2 * |xids| ==> bound[j] == XidParam(xids, j))
        && (IsNotEmpty(domain) ==> bound[Placeholders(statement)] == StringParam(domain))
      ensures |xids| > 0 && fault ==> r == Failure(TransactionIOException)
      ensures |xids| > 0 && !fault ==>
        && r.Success? && Selection(table, ByXidsAsWritten(xids), domain, keys)
        && |r.value| == |keys|
        && forall j :: 0 <= j < |keys| ==> fresh(r.value[j]) && r.value[j].State() == Load(deserialize, table[keys[j]])
    {
      keys, statement, bound := [], [], map[];
      if |xids| == 0 {
        return Success([]), keys, statement, bound;
      }
      var sql := BuildFindSql(|xids|);
      var params, count := BindFindParameters(xids);
      FindSqlPlaceholders(|xids|);
      statement, bound := sql, params;
      if fault {
        return Failure(TransactionIOException), keys, statement, bound;
      }
      var rows;
      rows, keys := Query(ByXidsAsWritten(xids));
      var transactions := ConstructTransactions(rows);
      r := Success(transactions);
    }

    /**
     * `doFind` with the domain filter it is meant to have, guarding every identifier: one
     * transaction per row of the domain whose key is among the identifiers.
     */
    method DoFindIntended(xids: seq<Xid>, fault: bool) returns (r: Result<seq<Transaction>, RepositoryError>, ghost keys: seq<Xid>)
      ensures |xids| == 0 ==> r == Success([])
      ensures |xids| > 0 && fault ==> r == Failure(TransactionIOException)
      ensures |xids| > 0 && !fault ==>
        && r.Success? && Selection(table, ByXids(xids), domain, keys)
        && |r.value| == |keys|
        && forall j :: 0 <= j < |keys| ==> fresh(r.value[j]) && r.value[j].State() == Load(deserialize, table[keys[j]])
    {
      keys := [];
      if |xids| == 0 {
        return Success([]), keys;
      }
      if fault {
        return Failure(TransactionIOException), keys;
      }
      var rows;
      rows, keys := Query(ByXids(xids));
      var transactions := ConstructTransactions(rows);
      r := Success(transactions);
    }

    /**
     * `doFindOne`: `doFind` of the one identifier, for which the statement as built means what
     * is intended: the transaction stored under this identifier in the domain, or null.
     */
    method DoFindOne(xid: Xid, fault: bool) returns (r: Result<Option<Transaction>, RepositoryError>)
      ensures fault ==> r == Failure(TransactionIOException)
      ensures !fault ==> r.Success? && (r.value.Some? <==> xid in table && InDomain(table[xid], domain))
      ensures !fault && r.Success? && r.value.Some? ==> fresh(r.value.value) && r.value.value.State() == Load(deserialize, table[xid])
    {
      var found, keys, _, _ := DoFind([xid], fault);
      if found.Failure? {
        return Failure(found.error);
      }
      if |found.value| > 0 {
        FindAsWrittenAgrees([xid], domain, keys[0], table[keys[0]]);
        assert keys[0] == xid;
        r := Success(Some(found.value[0]));
      } else {
        if xid in table {
          FindAsWrittenAgrees([xid], domain, xid, table[xid]);
        }
        assert !(xid in table && Selects(ByXidsAsWritten([xid]), domain, xid, table[xid]));
        r := Success(None);
      }
    }

    /** `doFindAllUnmodifiedSince`: the rows recovery must look at. */
    method DoFindAllUnmodifiedSince(date: int, fault: bool) returns (r: Result<seq<Transaction>, RepositoryError>, ghost keys: seq<Xid>)
      ensures fault ==> r == Failure(TransactionIOException)
      ensures !fault ==>
        && r.Success? && Selection(table, UnmodifiedSince(date), domain, keys)
        && |r.value| == |keys|
        && forall j :: 0 <= j < |keys| ==> fresh(r.value[j]) && r.value[j].State() == Load(deserialize, table[keys[j]])
    {
      keys := [];
      if fault {
        return Failure(TransactionIOException), keys;
      }
      var rows;
      rows, keys := Query(UnmodifiedSince(date));
      var transactions := ConstructTransactions(rows);
      r := Success(transactions);
    }
  }
}
