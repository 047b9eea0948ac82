/** The OpenAPI helper for the auth routes: the auth library's generated
    schema is memoised, and `getPaths` re-keys its paths under a prefix and
    tags every operation. */
module OpenApiPaths {
  import opened Wrappers
  import Strings

  /** An operation object; only its `tags` is looked at, the rest is opaque. */
  datatype Operation = Operation(tags: seq<string>, rest: string)

  /** A path item: HTTP method to operation. */
  type PathItem = map<string, Operation>

  /** The generated schema: path to path item, and the components. */
  datatype Schema = Schema(paths: map<string, PathItem>, components: string)

  const BetterAuthTags: seq<string> := ["Better Auth"]
  const DefaultPrefix: string := "/api/auth"

  /** A path item with every operation's tags replaced. */
  function Tagged(item: PathItem): (r: PathItem)
    ensures r.Keys == item.Keys
    ensures forall m :: m in item ==> r[m].tags == BetterAuthTags && r[m].rest == item[m].rest
  {
    map m | m in item :: item[m].(tags := BetterAuthTags)
  }

  /** Tagging twice is tagging once, so a second `getPaths` over the
      already tagged schema returns the same path items. */
  lemma TaggedIdempotent(item: PathItem)
    ensures Tagged(Tagged(item)) == Tagged(item)
  {
  }

  /** Prepending one prefix keeps distinct keys distinct. */
  lemma PrefixInjective(prefix: string, a: string, b: string)
    requires prefix + a == prefix + b
    ensures a == b
  {
    assert a == (prefix + a)[|prefix|..];
    assert b == (prefix + b)[|prefix|..];
  }

  /** The helper returned by `createOpenAPIBetterAuth`. */
  class OpenApiBetterAuth {
    /** The memoised schema (`_schema`). */
    var schema: Schema
    /** How many times the library has been asked to generate the schema. */
    var generations: nat

    ghost predicate Valid()
      reads this
    {
      generations == 1
    }

    /** Creating the helper already asks for the schema, because its
        `components` property is computed at once; `generated` is what the
        library produces. */
    constructor (generated: Schema)
      ensures schema == generated && Valid()
    {
      schema := generated;
      generations := 1;
    }

    /** `components`. */
    function Components(): string
      reads this
    {
      schema.components
    }

    /** `getPaths(prefix)`: every path `k` reappears as `prefix + k` with its
        operations tagged. The operations are the schema's own objects, so
        the memoised schema is tagged as well; it is not generated again. */
    method GetPaths(prefix: Option<string>) returns (reference: map<string, PathItem>)
      requires Valid()
      modifies this
      ensures Valid()
      ensures var p := prefix.GetOr(DefaultPrefix);
        && (forall k :: k in old(schema.paths) ==> p + k in reference && reference[p + k] == Tagged(old(schema.paths)[k]))
        && (forall key :: key in reference ==> Strings.StartsWith(key, p) && key[|p|..] in old(schema.paths))
      ensures schema.components == old(schema.components)
      ensures schema.paths.Keys == old(schema.paths).Keys
      ensures forall k :: k in schema.paths ==> schema.paths[k] == Tagged(old(schema.paths)[k])
    {
      var p := prefix.GetOr(DefaultPrefix);
      var paths := schema.paths;
      reference := map[];
      var todo := paths.Keys;
      while todo != {}
        invariant todo <= paths.Keys
        invariant schema.components == old(schema.components) && generations == 1
        invariant schema.paths.Keys == paths.Keys
        invariant forall k :: k in paths && k !in todo ==> p + k in reference && reference[p + k] == Tagged(paths[k])
        invariant forall key :: key in reference ==> Strings.StartsWith(key, p) && key[|p|..] in paths && key[|p|..] !in todo
        invariant forall k :: k in paths ==> schema.paths[k] == if k in todo then paths[k] else Tagged(paths[k])
        decreases todo
      {
        var k :| k in todo;
        var key := p + k;
        assert key[|p|..] == k;
        var item := paths[k];
        var methods := item.Keys;
        while methods != {}
          invariant methods <= item.Keys
          invariant item.Keys == paths[k].Keys
          invariant forall m :: m in item ==> item[m] == if m in methods then paths[k][m] else paths[k][m].(tags := BetterAuthTags)
          decreases methods
        {
          var m :| m in methods;
          item := item[m := item[m].(tags := BetterAuthTags)];
          methods := methods - {m};
        }
        assert item == Tagged(paths[k]);
        forall key' | key' in reference ensures key' != key {
          assert key'[|p|..] != k;
        }
        reference := reference[key := item];
        schema := schema.(paths := schema.paths[k := item]);
        todo := todo - {k};
      }
    }
  }
}
