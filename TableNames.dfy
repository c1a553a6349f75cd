/** The table-name mapper: how a table reference in a tenant's query is turned
    into the physical path of the table in the query engine. */
module TableNames {
  import opened Wrappers
  import opened QualifiedNames
  import opened Exceptions

  const MATERIALIZED_VIEW_PREFIX: string := "_materialized_"

  /** The schema text the mapper switches on: the prefix printed with dots, if any. */
  function SchemaOf(node: QualifiedName): Option<string> {
    match node.Prefix()
    case None => None
    case Some(p) => Some(p.ToString())
  }

  /** The path the mapper substitutes for `node` in a query of `project`, where the
      catalog of unqualified names is `coldStorageConnector`. */
  function Resolve(coldStorageConnector: string, project: string, node: QualifiedName): (r: Result<string, Exception>)
    ensures r.Success? ==> |node.suffix| < |r.value| && r.value[|r.value| - |node.suffix|..] == node.suffix
    ensures r.Failure? ==> node.qualifier != [] && r.error.IllegalArgumentException?
  {
    if node.Prefix().Some? then
      var schema := node.Prefix().value.ToString();
      if schema == "continuous" then Success("stream." + project + "." + node.suffix)
      else if schema == "materialized" then Success(project + "." + MATERIALIZED_VIEW_PREFIX + node.suffix)
      else Failure(IllegalArgumentException("Schema does not exist: " + schema))
    else
      var prefix := node.Prefix().GetOr(Of(coldStorageConnector));
      Success(prefix.suffix + "." + project + "." + node.suffix)
  }

  lemma SchemaOfQualifier(node: QualifiedName)
    ensures SchemaOf(node) == if node.qualifier == [] then None else Some(Join(node.qualifier))
  {
  }

  /** A schema name without a dot is matched only by the one-part prefix of that name. */
  lemma DotlessSchemaIsOnePart(node: QualifiedName, schema: string)
    requires '.' !in schema
    ensures SchemaOf(node) == Some(schema) <==> node.qualifier == [schema]
  {
    if |node.qualifier| >= 2 {
      JoinOfSeveralHasDot(node.qualifier);
    }
  }

  /** A reference in the `continuous` schema names the project's stream
      (by DotlessSchemaIsOnePart, exactly the references whose prefix is `continuous`). */
  lemma ContinuousResolvesToStream(coldStorageConnector: string, project: string, node: QualifiedName)
    requires node.qualifier == ["continuous"]
    ensures Resolve(coldStorageConnector, project, node) == Success("stream." + project + "." + node.suffix)
  {
  }

  /** A reference in the `materialized` schema names the project's materialized view
      (by DotlessSchemaIsOnePart, exactly the references whose prefix is `materialized`). */
  lemma MaterializedResolvesToView(coldStorageConnector: string, project: string, node: QualifiedName)
    requires node.qualifier == ["materialized"]
    ensures Resolve(coldStorageConnector, project, node) == Success(project + "." + "_materialized_" + node.suffix)
  {
  }

  /** Strict resolution: any other schema is rejected, naming the schema, and is never
      taken as a catalog. */
  lemma UnknownSchemaRejected(coldStorageConnector: string, project: string, node: QualifiedName, schema: string)
    requires SchemaOf(node) == Some(schema)
    requires schema != "continuous" && schema != "materialized"
    ensures Resolve(coldStorageConnector, project, node) == Failure(IllegalArgumentException("Schema does not exist: " + schema))
  {
  }

  /** An unqualified reference lives in the cold-storage catalog, under the project. */
  lemma UnqualifiedResolvesToColdStorage(coldStorageConnector: string, project: string, node: QualifiedName)
    requires node.qualifier == []
    ensures Resolve(coldStorageConnector, project, node) == Success(coldStorageConnector + "." + project + "." + node.suffix)
  {
  }

  /** Resolution succeeds exactly for the unqualified and the two known schemas; only
      unqualified references depend on the connector. */
  lemma ResolveSucceedsIff(coldStorageConnector: string, project: string, node: QualifiedName)
    ensures Resolve(coldStorageConnector, project, node).Success?
        <==> SchemaOf(node) in {None, Some("continuous"), Some("materialized")}
    ensures node.qualifier != [] ==>
        forall other :: Resolve(other, project, node) == Resolve(coldStorageConnector, project, node)
  {
  }

  /** A prefix of two or more parts prints with a dot and so is never a known schema. */
  lemma MultiPartSchemaRejected(coldStorageConnector: string, project: string, node: QualifiedName)
    requires |node.qualifier| >= 2
    ensures Resolve(coldStorageConnector, project, node)
         == Failure(IllegalArgumentException("Schema does not exist: " + Join(node.qualifier)))
  {
    JoinOfSeveralHasDot(node.qualifier);
    assert '.' !in "continuous" && '.' !in "materialized";
  }

  /** Re-resolving a physical three-part path fails: the rewrite is not idempotent. */
  lemma PhysicalPathNotResolvable(coldStorageConnector: string, project: string, catalog: string, schema: string, table: string)
    ensures Resolve(coldStorageConnector, project, QualifiedName([catalog, schema], table))
         == Failure(IllegalArgumentException("Schema does not exist: " + (catalog + "." + schema)))
  {
    JoinOfTwo(catalog, schema);
    MultiPartSchemaRejected(coldStorageConnector, project, QualifiedName([catalog, schema], table));
  }

  lemma AppendCancels(x: string, a: string, b: string)
    requires x + a == x + b
    ensures a == b
  {
    assert a == (x + a)[|x|..];
  }

  /** Within one schema, distinct tables resolve to distinct paths. */
  lemma ResolveInjectiveWithinSchema(coldStorageConnector: string, project: string, n1: QualifiedName, n2: QualifiedName)
    requires SchemaOf(n1) == SchemaOf(n2)
    requires Resolve(coldStorageConnector, project, n1).Success?
    requires Resolve(coldStorageConnector, project, n1) == Resolve(coldStorageConnector, project, n2)
    ensures n1.suffix == n2.suffix
  {
    var x :=
      if SchemaOf(n1) == Some("continuous") then "stream." + project + "."
      else if SchemaOf(n1) == Some("materialized") then project + "." + MATERIALIZED_VIEW_PREFIX
      else coldStorageConnector + "." + project + ".";
    AppendCancels(x, n1.suffix, n2.suffix);
  }
}
