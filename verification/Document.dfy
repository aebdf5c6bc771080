/**
 * The shared specification document (apispec's APISpec), reduced to what the
 * converter touches: the `components/schemas` registry and the sequence of
 * submitted Path Items.
 */
module Document {

  import opened Wrappers
  import opened Envelopes
  import opened SwaggerSchemas

  /** One call of `APISpec.path(path=..., parameters=..., operations=...)`. */
  datatype PathItem = PathItem(
    path: string,
    parameters: Option<seq<Parameter>>,
    operations: Option<map<string, Operation>>)

  class ApiSpec {
    var schemas: map<string, Fragment>
    var paths: seq<PathItem>

    constructor ()
      ensures schemas == map[] && paths == []
    {
      schemas := map[];
      paths := [];
    }

    /** `components.schema(name, schema=fragment)`: stores the fragment under a name not yet taken. */
    method Schema(name: string, fragment: Fragment)
      requires name !in schemas
      modifies this
      ensures schemas == old(schemas)[name := fragment]
      ensures paths == old(paths)
    {
      schemas := schemas[name := fragment];
    }

    /** `path(path, parameters, operations)`: records one Path Item. */
    method Path(path: string, parameters: Option<seq<Parameter>>, operations: Option<map<string, Operation>>)
      modifies this
      ensures paths == old(paths) + [PathItem(path, parameters, operations)]
      ensures schemas == old(schemas)
    {
      paths := paths + [PathItem(path, parameters, operations)];
    }
  }
}
