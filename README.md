# Query rewriting in rakam's Presto query executor

This project models the query-rewriting core of rakam's `PrestoQueryExecutor`:
the table-name mapper that turns a tenant's table references into physical
Presto paths, and the query builder that re-serialises a parsed statement
through that mapper and enforces a caller-supplied LIMIT cap. It proves the
resolution rules, the strict handling of unknown schemas, the LIMIT policy
and how errors propagate.

Modules:

- `Wrappers`: `Option` (Java's `Optional`/`null`) and `Result` (a value or a thrown exception).
- `Exceptions`: the exceptions the core throws: `IllegalArgumentException` with its message, the
  `ClassCastException` of the cast to `Query`, and the `NumberFormatException` of `Long.parseLong`.
- `JavaNumbers`: `Integer.toString` (what `StringBuilder.append(Integer)` writes) and
  `Long.parseLong` in radix 10: optional sign, ASCII digits, 64-bit range.
- `QualifiedNames`: Presto's `QualifiedName`, kept as qualifier parts and a suffix, so it cannot be
  empty. `getPrefix`, `getSuffix`, and `toString`, which joins the parts with `.`.
- `TableNames`: the mapper (`Resolve`) and its properties.
- `QueryFormatting`: the formatter's pass as a `Format` method that appends to a `StringBuilder`
  class, specified by the pure `Render`. A parsed statement is the tagged variant
  `Query(body, limit) | OtherStatement(body)`. Its body is the sequence of pieces the formatter
  emits, in order: literal text, and table references for the mapper.
- `Presto`: the class `PrestoQueryExecutor` with its two configuration objects. It has the
  `BuildQuery`/`BuildStatement` methods, which are proved against the functions `BuiltQuery` and
  `Render`, and the `execute*` entry points, which return the `Submission` handed to the engine.

Behaviour of `PrestoQueryExecutor.java` worth knowing, all of it proved or stated in the model:

- An explicit schema other than `continuous` or `materialized` is always rejected with
  `Schema does not exist: <schema>`. It is never used as a catalog. At
  `rakam-presto/src/main/java/org/rakam/report/PrestoQueryExecutor.java:91` the `orElse` only
  runs with the prefix absent, so the behaviour is strict (`TableNames.ResolveSucceedsIff`,
  `TableNames.UnknownSchemaRejected`).
- Rewriting is not idempotent. A reference that is already a physical path such as
  `hive.acme.events` has the two-part prefix `hive.acme`, and that prefix is rejected as an unknown
  schema (`TableNames.PhysicalPathNotResolvable`, `Presto.PhysicalReferenceRejected`).
- No argument check rejects a negative cap. A cap of `-1` appends ` LIMIT -1` to a query without
  a LIMIT.
- The LIMIT error message names only the statement's own limit, not the cap.
- A statement LIMIT beyond the `long` range fails with `NumberFormatException`, not the LIMIT
  message.
- A query whose own LIMIT is within the cap keeps its formatted text unchanged, and the cap is
  appended after it. Whether the formatted text already prints the statement's LIMIT depends on
  the external formatter.

## Model

| member | source | states |
|---|---|---|
| `JavaNumbers.NaturalString` | rakam-presto/src/main/java/org/rakam/report/PrestoQueryExecutor.java:108 | the decimal text appended for the cap is non-empty, all digits, and has a leading zero only for 0 |
| `JavaNumbers.DecimalString` | rakam-presto/src/main/java/org/rakam/report/PrestoQueryExecutor.java:108 | the text appended for the cap: non-empty, a leading minus exactly for negatives, digits otherwise; `ParseLongOfDecimalString` reads it back as the number |
| `JavaNumbers.ParseLong` | rakam-presto/src/main/java/org/rakam/report/PrestoQueryExecutor.java:105 | Long.parseLong accepts only non-empty text and yields a value in the 64-bit range; which text it accepts and with what value is pinned by the four lemmas below |
| `JavaNumbers.DigitsValueOfNaturalString` | rakam-presto/src/main/java/org/rakam/report/PrestoQueryExecutor.java:108 | reading the digits of a natural number back gives that number |
| `JavaNumbers.LeadingZeroIgnored` | rakam-presto/src/main/java/org/rakam/report/PrestoQueryExecutor.java:105 | a leading zero does not change the value of a digit string |
| `JavaNumbers.ParseLongOfDigits` | rakam-presto/src/main/java/org/rakam/report/PrestoQueryExecutor.java:105 | unsigned digit text, leading zeros included, parses to its value exactly when that fits a `long`, and otherwise fails |
| `JavaNumbers.ParseLongOfSignedDigits` | rakam-presto/src/main/java/org/rakam/report/PrestoQueryExecutor.java:105 | a `-` or `+` followed by digit text parses to the signed value exactly when it fits a `long` |
| `JavaNumbers.ParseLongRejects` | rakam-presto/src/main/java/org/rakam/report/PrestoQueryExecutor.java:105 | empty text, a lone sign, a first character that is neither sign nor digit, or any later non-digit is the NumberFormatException |
| `JavaNumbers.ParseLongOfPaddedSeven` | rakam-presto/src/main/java/org/rakam/report/PrestoQueryExecutor.java:105 | the statement limit `007` reads as 7 |
| `JavaNumbers.ParseLongOfDecimalString` | rakam-presto/src/main/java/org/rakam/report/PrestoQueryExecutor.java:105-108 | Long.parseLong reads back exactly what Integer/Long.toString writes, for every 64-bit value |
| `QualifiedNames.QualifiedName.Prefix` | rakam-presto/src/main/java/org/rakam/report/PrestoQueryExecutor.java:80-81 | getPrefix is absent exactly for one-part names, and otherwise holds all parts but the last |
| `QualifiedNames.Of` | rakam-presto/src/main/java/org/rakam/report/PrestoQueryExecutor.java:91 | `new QualifiedName(connector)` has no prefix and the connector as its suffix |
| `QualifiedNames.QualifiedName.ToString` | rakam-presto/src/main/java/org/rakam/report/PrestoQueryExecutor.java:87 | a name prints as its prefix's text, a dot and its suffix, or as the suffix alone (used for the schema text at :81 and :87) |
| `QualifiedNames.JoinSnoc` | rakam-presto/src/main/java/org/rakam/report/PrestoQueryExecutor.java:81 | joining one more part appends a dot and that part |
| `QualifiedNames.JoinOfSeveralHasDot` | rakam-presto/src/main/java/org/rakam/report/PrestoQueryExecutor.java:81 | a prefix of two or more parts prints with a dot |
| `TableNames.Resolve` | rakam-presto/src/main/java/org/rakam/report/PrestoQueryExecutor.java:78-94 | the tableNameMapper lambda: a resolved path always ends with the table's suffix, and only a qualified name can fail, with an IllegalArgumentException; its cases are stated by the lemmas below (the `_materialized_` constant of :45 in `MaterializedResolvesToView`) |
| `TableNames.SchemaOfQualifier` | rakam-presto/src/main/java/org/rakam/report/PrestoQueryExecutor.java:80-81 | the text switched on is the qualifier joined with dots, absent for an unqualified name |
| `TableNames.DotlessSchemaIsOnePart` | rakam-presto/src/main/java/org/rakam/report/PrestoQueryExecutor.java:81-85 | a schema name without a dot, such as `continuous` or `materialized`, is matched exactly by the one-part prefix of that name |
| `TableNames.ContinuousResolvesToStream` | rakam-presto/src/main/java/org/rakam/report/PrestoQueryExecutor.java:82-83 | schema `continuous` resolves to exactly `stream.<project>.<table>` |
| `TableNames.MaterializedResolvesToView` | rakam-presto/src/main/java/org/rakam/report/PrestoQueryExecutor.java:84-85 | schema `materialized` resolves to exactly `<project>._materialized_<table>` |
| `TableNames.UnknownSchemaRejected` | rakam-presto/src/main/java/org/rakam/report/PrestoQueryExecutor.java:86-87 | any other explicit schema fails with `Schema does not exist: <schema>` |
| `TableNames.UnqualifiedResolvesToColdStorage` | rakam-presto/src/main/java/org/rakam/report/PrestoQueryExecutor.java:91-92 | an unqualified name resolves to `<connector>.<project>.<table>` |
| `TableNames.ResolveSucceedsIff` | rakam-presto/src/main/java/org/rakam/report/PrestoQueryExecutor.java:80-92 | resolution succeeds iff the schema is absent, `continuous` or `materialized` (strict); only unqualified names depend on the connector |
| `TableNames.MultiPartSchemaRejected` | rakam-presto/src/main/java/org/rakam/report/PrestoQueryExecutor.java:81-87 | a prefix of two or more parts is always an unknown schema, named with its dots |
| `TableNames.PhysicalPathNotResolvable` | rakam-presto/src/main/java/org/rakam/report/PrestoQueryExecutor.java:80-87 | a three-part physical path is rejected with its first two parts as the schema, so rewriting is not idempotent |
| `TableNames.ResolveInjectiveWithinSchema` | rakam-presto/src/main/java/org/rakam/report/PrestoQueryExecutor.java:82-92 | within one schema, two references that resolve to the same path name the same table |
| `QueryFormatting.Render` | rakam-presto/src/main/java/org/rakam/report/PrestoQueryExecutor.java:102 | what the formatter produces through a mapper; a statement without table references always formats; see `RenderConcat`, `RenderSucceedsIff`, `RenderFailureNamesATable` |
| `QueryFormatting.RenderConcat` | rakam-presto/src/main/java/org/rakam/report/PrestoQueryExecutor.java:102 | formatting two consecutive parts of a statement equals formatting the whole, with the first exception winning |
| `QueryFormatting.RenderSucceedsIff` | rakam-presto/src/main/java/org/rakam/report/PrestoQueryExecutor.java:102 | formatting succeeds iff the mapper accepts every table the statement names |
| `QueryFormatting.RenderFailureNamesATable` | rakam-presto/src/main/java/org/rakam/report/PrestoQueryExecutor.java:102 | a failed formatting reports the exception of the first table the mapper rejects; every earlier table is accepted |
| `QueryFormatting.StringBuilder.constructor` | rakam-presto/src/main/java/org/rakam/report/PrestoQueryExecutor.java:97 | a new builder is empty |
| `QueryFormatting.StringBuilder.Append` | rakam-presto/src/main/java/org/rakam/report/PrestoQueryExecutor.java:108 | appending extends the builder's text by exactly the argument |
| `QueryFormatting.Format` | rakam-presto/src/main/java/org/rakam/report/PrestoQueryExecutor.java:102 | the formatter appends the rendered statement to the builder, or stops with the mapper's first exception, having only extended the builder's text |
| `Presto.PrestoQueryExecutor.TableNameMapper` | rakam-presto/src/main/java/org/rakam/report/PrestoQueryExecutor.java:78-94 | the project's mapper resolves unqualified tables in `prestoConfig`'s cold-storage connector |
| `Presto.PrestoQueryExecutor.constructor` | rakam-presto/src/main/java/org/rakam/report/PrestoQueryExecutor.java:58-62 | the first argument becomes the naming configuration, the second the dispatch configuration |
| `Presto.PrestoQueryExecutor.ExecuteRawQuery` | rakam-presto/src/main/java/org/rakam/report/PrestoQueryExecutor.java:64-66 | raw text is sent verbatim with the dispatch configuration |
| `Presto.PrestoQueryExecutor.BuildQuery` | rakam-presto/src/main/java/org/rakam/report/PrestoQueryExecutor.java:96-113 | the built text is exactly `BuiltQuery`: cast check, formatting through the project's mapper, then the LIMIT policy |
| `Presto.PrestoQueryExecutor.BuildStatement` | rakam-presto/src/main/java/org/rakam/report/PrestoQueryExecutor.java:115-124 | any statement kind is accepted and its text is exactly the formatted text, with no LIMIT logic |
| `Presto.PrestoQueryExecutor.Submit` | rakam-presto/src/main/java/org/rakam/report/PrestoQueryExecutor.java:70 | a build exception propagates and nothing is submitted; otherwise the text goes to the dispatch configuration |
| `Presto.PrestoQueryExecutor.ExecuteLimitedQuery` | rakam-presto/src/main/java/org/rakam/report/PrestoQueryExecutor.java:68-71 | `executeQuery(project, sql, limit)` submits the capped build to the dispatch configuration |
| `Presto.PrestoQueryExecutor.ExecuteQuery` | rakam-presto/src/main/java/org/rakam/report/PrestoQueryExecutor.java:73-76 | `executeQuery(project, sql)` submits the uncapped build |
| `Presto.PrestoQueryExecutor.ExecuteStatement` | rakam-presto/src/main/java/org/rakam/report/PrestoQueryExecutor.java:126-129 | `executeStatement` submits the formatted statement of any kind |
| `Presto.ApplyLimit` | rakam-presto/src/main/java/org/rakam/report/PrestoQueryExecutor.java:104-110 | the LIMIT policy under a cap succeeds iff the statement's LIMIT is absent or parses to at most the cap, and then strictly extends the formatted text |
| `Presto.BuiltQuery` | rakam-presto/src/main/java/org/rakam/report/PrestoQueryExecutor.java:96-113 | buildQuery's outcome: success only for a Query whose formatting succeeded, with the formatted text as a prefix, and exactly that text without a cap; see the lemmas below |
| `Presto.OnlyQueriesAreBuilt` | rakam-presto/src/main/java/org/rakam/report/PrestoQueryExecutor.java:100 | a statement that is not a Query fails the cast, whatever the cap |
| `Presto.MapperExceptionWins` | rakam-presto/src/main/java/org/rakam/report/PrestoQueryExecutor.java:102-105 | a mapper exception during formatting is reported before, and instead of, any LIMIT check |
| `Presto.NoCapYieldsFormattedText` | rakam-presto/src/main/java/org/rakam/report/PrestoQueryExecutor.java:104-112 | with no cap a query's text is exactly the formatted text, the same as buildStatement gives |
| `Presto.LimitAboveCapRejected` | rakam-presto/src/main/java/org/rakam/report/PrestoQueryExecutor.java:105-106 | a statement LIMIT strictly above the cap fails with a message naming the statement's limit, and produces no text |
| `Presto.CappedQuerySucceedsIff` | rakam-presto/src/main/java/org/rakam/report/PrestoQueryExecutor.java:104-109 | with a cap, building succeeds iff the LIMIT is absent or at most the cap (equality allowed); the text is then the formatted text followed by ` LIMIT <cap>` |
| `Presto.AppendedLimitIsCap` | rakam-presto/src/main/java/org/rakam/report/PrestoQueryExecutor.java:108 | the number appended after ` LIMIT ` reads back as the cap itself |
| `Presto.MapperIgnoresDispatchConfig` | rakam-presto/src/main/java/org/rakam/report/PrestoQueryExecutor.java:59-61 | two executors with the same first constructor argument map every table alike, whatever their dispatch configuration |
| `Presto.RejectedTableSubmitsNothing` | rakam-presto/src/main/java/org/rakam/report/PrestoQueryExecutor.java:102 | one rejected table makes the whole formatting fail, and the executed statement's outcome is that exception, with nothing submitted |
| `Presto.PhysicalReferenceRejected` | rakam-presto/src/main/java/org/rakam/report/PrestoQueryExecutor.java:86-87 | under an executor's mapper, a statement naming a table by a physical multi-part path fails to format |

## Left out

- Parsing (`SqlParser.createStatement`) is external. Methods take the parsed statement, so a syntax error, which would be thrown before any formatting, is not modelled.
- The `synchronized (parser)` blocks exist only for thread safety. The model is sequential.
- `QueryFormatter` is external. Its walk over the tree is abstracted to the sequence of text and table pieces it emits. Quoting and identifier formatting are not modelled.
- `startQuery`, `ClientSession`, `StatementClient` and `PrestoQueryExecution` are network submission and reads of the default time zone and locale. A submission is modelled only as the configuration it is sent with and its text.
- `getSystemSocksProxy`, the Jetty HTTP client and `UserAgentRequestFilter` are environment I/O and HTTP plumbing.
- `PrestoConfig` keeps only the address and the cold-storage connector. Other settings are not read by the core.
- `JavaNumbers.ParseLong`: accepts ASCII digits only, where `Character.digit` also accepts other Unicode decimal digits. The SQL grammar yields only ASCII digit literals.
- Any case normalisation Presto's `QualifiedName` may apply to its parts (for instance to the connector name wrapped at line 91) is not modelled: that class is not part of this model, and names keep their case.
