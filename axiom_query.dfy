/** A builder for log-query strings: a buffer of clauses that the builder
    methods append to and that `GetFinalQuery` prefixes with the dataset. */
module AxiomQuery {
  import opened Wrappers
  import Strings

  /** A `string | number` argument; numbers are integers here. */
  datatype Scalar = QStr(s: string) | QNum(n: int)

  /** How `join` renders an argument. */
  function Render(v: Scalar): string {
    match v
    case QStr(s) => s
    case QNum(n) => Strings.IntToString(n)
  }

  /** The clause `where(field, condition, value)` appends. */
  function WhereClause(field: string, condition: string, value: Scalar): (c: string)
    ensures c == "where " + field + " " + condition + " " + Render(value)
  {
    var v := Render(value);
    Strings.JoinCons(condition, [v], " ");
    Strings.JoinCons(field, [condition, v], " ");
    Strings.JoinCons("where", [field, condition, v], " ");
    assert [condition] + [v] == [condition, v];
    assert [field] + [condition, v] == [field, condition, v];
    assert ["where"] + [field, condition, v] == ["where", field, condition, v];
    Strings.Join(["where", field, condition, v], " ")
  }

  /** The clause `query(...args)` appends: the arguments joined by single spaces. */
  function QueryClause(args: seq<Scalar>): (c: string)
    ensures args == [] ==> c == ""
    ensures |args| == 1 ==> c == Render(args[0])
    ensures |args| > 1 ==> c == Render(args[0]) + " " + QueryClause(args[1..])
    decreases |args|
  {
    var rendered := seq(|args|, i requires 0 <= i < |args| => Render(args[i]));
    if |args| > 1 then
      assert rendered[1..] == seq(|args| - 1, i requires 0 <= i < |args| - 1 => Render(args[1..][i]));
      Strings.Join(rendered, " ")
    else
      Strings.Join(rendered, " ")
  }

  /** The clause `function(name, argument, argStyle)` appends. With the
      square-bracket style the bracketed text is never empty, so even an
      absent argument is written out, as `undefined`; without it an absent
      or empty argument gives empty parentheses. */
  function FunctionCall(name: string, argument: Option<string>, squareBracket: bool): (c: string)
    ensures squareBracket && argument.Some? ==> c == name + "(['" + argument.value + "'])"
    ensures squareBracket && argument.None? ==> c == name + "(['undefined'])"
    ensures !squareBracket && TruthyString(argument) ==> c == name + "(" + argument.value + ")"
    ensures !squareBracket && !TruthyString(argument) ==> c == name + "()"
  {
    var styled := if squareBracket then Some("['" + argument.GetOr("undefined") + "']") else argument;
    name + "(" + OrString(styled, "") + ")"
  }

  /** The two clauses `getFinalQuery` puts in front of the buffer. */
  function Header(dataset: string): seq<string> {
    ["['" + dataset + "']", "|"]
  }

  /** The final query is the dataset, a pipe, and then the buffer joined by
      single spaces; with an empty buffer nothing follows the pipe. */
  lemma FinalQueryForm(dataset: string, queries: seq<string>)
    ensures Strings.Join(Header(dataset) + queries, " ")
      == "['" + dataset + "'] |" + (if queries == [] then "" else " " + Strings.Join(queries, " "))
  {
    var h := "['" + dataset + "']";
    assert Header(dataset) + queries == [h] + (["|"] + queries);
    Strings.JoinCons(h, ["|"] + queries, " ");
    Strings.JoinCons("|", queries, " ");
  }

  /** Asking for the final query twice gives two different strings: the
      second repeats the dataset and the pipe in front of the first. */
  lemma FinalQueryNotIdempotent(dataset: string, queries: seq<string>)
    ensures var once := Header(dataset) + queries;
      Strings.Join(Header(dataset) + once, " ")
        == "['" + dataset + "'] | " + Strings.Join(once, " ")
    ensures var once := Header(dataset) + queries;
      Strings.Join(Header(dataset) + once, " ") != Strings.Join(once, " ")
  {
    var once := Header(dataset) + queries;
    FinalQueryForm(dataset, once);
    assert once != [];
  }

  /** The builder; every method but `GetFinalQuery` returns the builder itself. */
  class AxiomQueryHelper {
    var queries: seq<string>
    const dataset: string

    constructor (dataset: string)
      ensures queries == [] && this.dataset == dataset
    {
      queries := [];
      this.dataset := dataset;
    }

    method Pipe() returns (self: AxiomQueryHelper)
      modifies this
      ensures queries == old(queries) + ["|"] && self == this
    {
      queries := queries + ["|"];
      self := this;
    }

    method Where(field: string, condition: string, value: Scalar) returns (self: AxiomQueryHelper)
      modifies this
      ensures queries == old(queries) + [WhereClause(field, condition, value)] && self == this
    {
      queries := queries + [WhereClause(field, condition, value)];
      self := this;
    }

    method Raw(query: string) returns (self: AxiomQueryHelper)
      modifies this
      ensures queries == old(queries) + [query] && self == this
    {
      queries := queries + [query];
      self := this;
    }

    method Query(args: seq<Scalar>) returns (self: AxiomQueryHelper)
      modifies this
      ensures queries == old(queries) + [QueryClause(args)] && self == this
    {
      queries := queries + [QueryClause(args)];
      self := this;
    }

    method Function(name: string, argument: Option<string>, squareBracket: bool) returns (self: AxiomQueryHelper)
      modifies this
      ensures queries == old(queries) + [FunctionCall(name, argument, squareBracket)] && self == this
    {
      queries := queries + [FunctionCall(name, argument, squareBracket)];
      self := this;
    }

    /** Puts the dataset and a pipe in front of the buffer, keeping them
        there, and returns the buffer joined by single spaces. */
    method GetFinalQuery() returns (q: string)
      modifies this
      ensures queries == Header(dataset) + old(queries)
      ensures q == Strings.Join(queries, " ")
    {
      queries := ["|"] + queries;
      queries := ["['" + dataset + "']"] + queries;
      q := Strings.Join(queries, " ");
    }
  }

  /** `createAxiomQuery(dataset)`. */
  method CreateAxiomQuery(dataset: string) returns (h: AxiomQueryHelper)
    ensures fresh(h) && h.queries == [] && h.dataset == dataset
  {
    h := new AxiomQueryHelper(dataset);
  }
}
