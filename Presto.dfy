/** The query executor: builds the text of a tenant's query (table names mapped,
    LIMIT policy applied) and hands it to the engine named by its dispatch
    configuration. */
module Presto {
  import opened Wrappers
  import opened QualifiedNames
  import opened Exceptions
  import opened JavaNumbers
  import opened TableNames
  import opened QueryFormatting

  /** The configuration read by the executor: the engine's address and the catalog
      of unqualified tables. */
  datatype PrestoConfig = PrestoConfig(address: string, coldStorageConnector: string)

  /** A query handed to the engine: the configuration it is sent with and its text. */
  datatype Submission = Submission(config: PrestoConfig, query: string)

  /** The LIMIT policy applied to formatted query text under a cap `maxLimit`. */
  function ApplyLimit(formatted: string, limit: Option<string>, maxLimit: int): (r: Result<string, Exception>)
    ensures r.Success? <==> limit.None? || (ParseLong(limit.value).Some? && ParseLong(limit.value).value <= maxLimit)
    ensures r.Success? ==> formatted < r.value
  {
    if limit.Some? && ParseLong(limit.value).None? then Failure(NumberFormatException(limit.value))
    else if limit.Some? && ParseLong(limit.value).value > maxLimit then
      Failure(IllegalArgumentException("The maximum value of LIMIT statement is " + limit.value))
    else Success(formatted + " LIMIT " + DecimalString(maxLimit))
  }

  /** What buildQuery returns: only queries are accepted, the formatter's exception wins,
      and with a cap the LIMIT policy decides. */
  function BuiltQuery(mapper: Mapper, statement: Statement, maxLimit: Option<int>): (r: Result<string, Exception>)
    ensures r.Success? ==> statement.Query? && Render(statement.body, mapper).Success?
    ensures r.Success? ==> Render(statement.body, mapper).value <= r.value
    ensures r.Success? && maxLimit.None? ==> r.value == Render(statement.body, mapper).value
  {
    if !statement.Query? then Failure(ClassCastException)
    else
      match Render(statement.body, mapper)
      case Failure(e) => Failure(e)
      case Success(formatted) =>
        if maxLimit.None? then Success(formatted) else ApplyLimit(formatted, statement.limit, maxLimit.value)
  }

  /** The outcome of executing: the built text is submitted with `config`; an exception
      submits nothing. */
  function Dispatched(config: PrestoConfig, built: Result<string, Exception>): Result<Submission, Exception> {
    match built
    case Failure(e) => Failure(e)
    case Success(q) => Success(Submission(config, q))
  }

  class PrestoQueryExecutor {
    /** Supplies the cold-storage connector for table names. */
    const prestoConfig: PrestoConfig
    /** Supplies where queries are sent. */
    const prestoAddress: PrestoConfig

    constructor (prestoConfig1: PrestoConfig, prestoConfig: PrestoConfig)
      ensures this.prestoConfig == prestoConfig1 && prestoAddress == prestoConfig
    {
      this.prestoConfig := prestoConfig1;
      this.prestoAddress := prestoConfig;
    }

    /** The mapper for `project`: unqualified tables take `prestoConfig`'s connector. */
    function TableNameMapper(project: string): (mapper: Mapper)
      ensures forall node: QualifiedName :: node.qualifier == [] ==>
        mapper(node) == Success(prestoConfig.coldStorageConnector + "." + project + "." + node.suffix)
    {
      node => Resolve(prestoConfig.coldStorageConnector, project, node)
    }

    method ExecuteRawQuery(query: string) returns (s: Submission)
      ensures s.config == prestoAddress && s.query == query
    {
      s := Submission(prestoAddress, query);
    }

    method BuildQuery(project: string, statement: Statement, maxLimit: Option<int>) returns (r: Result<string, Exception>)
      requires maxLimit.Some? ==> IsInt(maxLimit.value)
      ensures r == BuiltQuery(TableNameMapper(project), statement, maxLimit)
    {
      var builder := new StringBuilder();
      if !statement.Query? {
        return Failure(ClassCastException);
      }
      var thrown := Format(builder, TableNameMapper(project), statement.body);
      if thrown.Some? {
        return Failure(thrown.value);
      }
      assert builder.contents == Render(statement.body, TableNameMapper(project)).value;
      if maxLimit.Some? {
        if statement.limit.Some? {
          var requested := ParseLong(statement.limit.value);
          if requested.None? {
            return Failure(NumberFormatException(statement.limit.value));
          }
          if requested.value > maxLimit.value {
            return Failure(IllegalArgumentException("The maximum value of LIMIT statement is " + statement.limit.value));
          }
        }
        builder.Append(" LIMIT ");
        builder.Append(DecimalString(maxLimit.value));
      }
      r := Success(builder.ToString());
    }

    method BuildStatement(project: string, statement: Statement) returns (r: Result<string, Exception>)
      ensures r == Render(statement.body, TableNameMapper(project))
    {
      var builder := new StringBuilder();
      var thrown := Format(builder, TableNameMapper(project), statement.body);
      if thrown.Some? {
        return Failure(thrown.value);
      }
      assert builder.contents == Render(statement.body, TableNameMapper(project)).value;
      r := Success(builder.ToString());
    }

    method ExecuteLimitedQuery(project: string, statement: Statement, limit: int) returns (r: Result<Submission, Exception>)
      requires IsInt(limit)
      ensures r == Dispatched(prestoAddress, BuiltQuery(TableNameMapper(project), statement, Some(limit)))
    {
      var built := BuildQuery(project, statement, Some(limit));
      r := Submit(built);
    }

    method ExecuteQuery(project: string, statement: Statement) returns (r: Result<Submission, Exception>)
      ensures r == Dispatched(prestoAddress, BuiltQuery(TableNameMapper(project), statement, None))
    {
      var built := BuildQuery(project, statement, None);
      r := Submit(built);
    }

    method ExecuteStatement(project: string, statement: Statement) returns (r: Result<Submission, Exception>)
      ensures r == Dispatched(prestoAddress, Render(statement.body, TableNameMapper(project)))
    {
      var built := BuildStatement(project, statement);
      r := Submit(built);
    }

    /** An exception from building propagates; otherwise the text is sent raw. */
    method Submit(built: Result<string, Exception>) returns (r: Result<Submission, Exception>)
      ensures r.Failure? <==> built.Failure?
      ensures r.Failure? ==> r.error == built.error
      ensures r.Success? ==> r.value.config == prestoAddress && r.value.query == built.value
    {
      if built.Failure? {
        return Failure(built.error);
      }
      var s := ExecuteRawQuery(built.value);
      r := Success(s);
    }
  }

  // Properties of the query builder.

  /** buildQuery accepts only statements of kind Query. */
  lemma OnlyQueriesAreBuilt(mapper: Mapper, statement: Statement, maxLimit: Option<int>)
    requires statement.OtherStatement?
    ensures BuiltQuery(mapper, statement, maxLimit) == Failure(ClassCastException)
  {
  }

  /** An exception from the mapper is reported whatever the LIMIT policy would say. */
  lemma MapperExceptionWins(mapper: Mapper, statement: Statement, maxLimit: Option<int>)
    requires statement.Query? && Render(statement.body, mapper).Failure?
    ensures BuiltQuery(mapper, statement, maxLimit) == Failure(Render(statement.body, mapper).error)
  {
  }

  /** Without a cap the built text is exactly the formatted text, as buildStatement
      would produce it. */
  lemma NoCapYieldsFormattedText(mapper: Mapper, statement: Statement)
    requires statement.Query?
    ensures BuiltQuery(mapper, statement, None) == Render(statement.body, mapper)
  {
  }

  /** A statement LIMIT above the cap fails, naming the statement's own limit. */
  lemma LimitAboveCapRejected(mapper: Mapper, statement: Statement, maxLimit: int, requested: int)
    requires statement.Query? && Render(statement.body, mapper).Success?
    requires statement.limit.Some? && ParseLong(statement.limit.value) == Some(requested)
    requires requested > maxLimit
    ensures BuiltQuery(mapper, statement, Some(maxLimit))
         == Failure(IllegalArgumentException("The maximum value of LIMIT statement is " + statement.limit.value))
  {
  }

  /** With a cap, building succeeds exactly when the statement's LIMIT is absent or
      at most the cap; then the formatted text is kept and the cap appended. */
  lemma CappedQuerySucceedsIff(mapper: Mapper, statement: Statement, maxLimit: int)
    requires statement.Query? && Render(statement.body, mapper).Success?
    ensures BuiltQuery(mapper, statement, Some(maxLimit)).Success?
        <==> statement.limit.None? || (ParseLong(statement.limit.value).Some? && ParseLong(statement.limit.value).value <= maxLimit)
    ensures BuiltQuery(mapper, statement, Some(maxLimit)).Success? ==>
        BuiltQuery(mapper, statement, Some(maxLimit)).value
        == Render(statement.body, mapper).value + " LIMIT " + DecimalString(maxLimit)
  {
  }

  /** The LIMIT appended to a capped query reads back as the cap itself. */
  lemma AppendedLimitIsCap(mapper: Mapper, statement: Statement, maxLimit: int)
    requires IsInt(maxLimit)
    requires BuiltQuery(mapper, statement, Some(maxLimit)).Success?
    ensures exists formatted, digits ::
        BuiltQuery(mapper, statement, Some(maxLimit)).value == formatted + " LIMIT " + digits
        && ParseLong(digits) == Some(maxLimit)
  {
    ParseLongOfDecimalString(maxLimit);
    var formatted := Render(statement.body, mapper).value;
    assert BuiltQuery(mapper, statement, Some(maxLimit)).value == formatted + " LIMIT " + DecimalString(maxLimit);
  }

  // Properties of the executor's configuration.

  /** Table names depend on the first constructor argument only: two executors built with
      the same naming configuration map every table alike, whatever their dispatch
      configurations are. */
  lemma MapperIgnoresDispatchConfig(e1: PrestoQueryExecutor, e2: PrestoQueryExecutor, project: string, node: QualifiedName)
    requires e1.prestoConfig == e2.prestoConfig
    ensures e1.TableNameMapper(project)(node) == e2.TableNameMapper(project)(node)
  {
  }

  /** Executing a statement naming a table the mapper rejects submits nothing: the
      outcome is the formatter's exception, which is that of the first rejected table
      (see RenderFailureNamesATable; MapperExceptionWins covers executeQuery). */
  lemma RejectedTableSubmitsNothing(e: PrestoQueryExecutor, project: string, statement: Statement, i: int)
    requires 0 <= i < |statement.body| && statement.body[i].Table?
    requires e.TableNameMapper(project)(statement.body[i].name).Failure?
    ensures Render(statement.body, e.TableNameMapper(project)).Failure?
    ensures Dispatched(e.prestoAddress, Render(statement.body, e.TableNameMapper(project)))
         == Failure(Render(statement.body, e.TableNameMapper(project)).error)
  {
    RenderSucceedsIff(statement.body, e.TableNameMapper(project));
  }

  /** A statement over an already physical (multi-part) table name is not rewritten again:
      the executor's mapper rejects the first parts as an unknown schema. */
  lemma PhysicalReferenceRejected(e: PrestoQueryExecutor, project: string, body: seq<Fragment>, i: int)
    requires 0 <= i < |body| && body[i].Table? && |body[i].name.qualifier| >= 2
    ensures Render(body, e.TableNameMapper(project)).Failure?
  {
    MultiPartSchemaRejected(e.prestoConfig.coldStorageConnector, project, body[i].name);
    RenderSucceedsIff(body, e.TableNameMapper(project));
  }
}
