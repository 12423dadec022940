/**
The evaluator of the template engine: a stack of results, in which a null entry
stands for a variable that was not found, and a stack of the names that belong to
the null entries.
*/
module InjaEvaluator {
  import opened Wrappers
  import opened InjaExpression
  import L = InjaExpressionLeaves

  datatype Json =
    | Null
    | Bool(b: bool)
    | Number(n: real)
    | Str(s: string)
    | Array(items: seq<Json>)
    | Object(fields: map<string, Json>)

  predicate Truthy(j: Json) {
    match j
    case Null => false
    case Bool(b) => b
    case Number(n) => n != 0.0
    case Str(_) => true // the JSON library calls no string empty
    case Array(items) => items != []
    case Object(fields) => fields != map[]
  }

  datatype Error =
    | NotFound(name: string)
    | TooFew // a function with fewer arguments than it takes
    | Failure(message: string) // an operation or callback that threw
    | EmptyExpression | Malformed | CouldNotBeEvaluated

  /** What an operation other than `and`, `or` and `default` computes from its arguments. */
  datatype Head = Operator(op: Op) | Function(name: string)

  /**
  The variables in reach and the operations: `local` are the loop and set variables,
  `input` the data given, `callback` the functions without arguments.
  */
  datatype Environment = Environment(
    local: map<string, Json>,
    input: map<string, Json>,
    callback: map<string, Json>,
    literal: seq<Token> -> Json,
    isDefault: (string, nat) -> bool,
    apply: (Head, seq<Json>) -> Result<Json, string>)

  function Lookup(env: Environment, name: string): Option<Json> {
    if name in env.local then Some(env.local[name])
    else if name in env.input then Some(env.input[name])
    else if name in env.callback then Some(env.callback[name])
    else None
  }

  // ------------------------------------------------------------ the recursive evaluator

  datatype Outcome = Value(value: Json) | Missing(name: string) | Thrown(error: Error)

  /** A value is wanted: a missing variable is an error. */
  function Demand(o: Outcome): Outcome {
    if o.Missing? then Thrown(NotFound(o.name)) else o
  }

  function Apply2(env: Environment, head: Head, values: seq<Json>): Outcome {
    var r := if head == Operator(Not) && |values| == 1 then Ok(Bool(!Truthy(values[0]))) else env.apply(head, values);
    if r.Ok? then Value(r.value) else Thrown(Failure(r.error))
  }

  /** All arguments of an operation, or why it cannot be carried out. */
  datatype Values = Values(values: seq<Json>) | NoValues(error: Error)

  /** The arguments are evaluated from left to right. */
  function FirstThrown(os: seq<Outcome>): Option<Error> {
    if os == [] then None
    else if os[0].Thrown? then Some(os[0].error)
    else FirstThrown(os[1..])
  }

  /** ... and only then looked at, from right to left. */
  function LastMissing(os: seq<Outcome>): Option<string> {
    if os == [] then None
    else
      var o := os[|os| - 1];
      if o.Missing? then Some(o.name) else LastMissing(os[..|os| - 1])
  }

  function Gather(os: seq<Outcome>): Values {
    if FirstThrown(os).Some? then NoValues(FirstThrown(os).value)
    else if LastMissing(os).Some? then NoValues(NotFound(LastMissing(os).value))
    else Values(seq(|os|, i requires 0 <= i < |os| => if os[i].Value? then os[i].value else Null))
  }

  function Strict(env: Environment, head: Head, os: seq<Outcome>): Outcome {
    var v := Gather(os);
    if v.NoValues? then Thrown(v.error) else Apply2(env, head, v.values)
  }

  function Eval(env: Environment, e: Node): Outcome
    decreases e
  {
    match e
    case Literal(tokens) => Value(env.literal(tokens))
    case Data(name) =>
      var v := Lookup(env, name);
      if v.Some? then Value(v.value) else Missing(name)
    case Apply(op, args) =>
      if op.And? || op.Or? then
        if |args| < 1 then Thrown(TooFew)
        else
          var left := Demand(Eval(env, args[0]));
          if left.Thrown? then left
          else if Truthy(left.value) == op.Or? then Value(Bool(op.Or?))
          else if |args| < 2 then Thrown(TooFew)
          else
            var right := Demand(Eval(env, args[1]));
            if right.Thrown? then right else Value(Bool(Truthy(right.value)))
      else if |args| < Arity(op) then Thrown(TooFew)
      else Strict(env, Operator(op), EvalFirst(env, args, Arity(op)))
    case Call(name, args) =>
      if env.isDefault(name, |args|) then
        if |args| < 1 then Thrown(TooFew)
        else
          var first := Eval(env, args[0]);
          if !first.Missing? then first
          else if |args| < 2 then Thrown(TooFew)
          else Demand(Eval(env, args[1]))
      else Strict(env, Function(name), EvalFirst(env, args, |args|))
  }

  /** The outcomes of the first `n` arguments. */
  function EvalFirst(env: Environment, args: seq<Node>, n: nat): (os: seq<Outcome>)
    requires n <= |args|
    ensures |os| == n && forall i | 0 <= i < n :: os[i] == Eval(env, args[i])
    decreases args, n
  {
    if n == 0 then [] else EvalFirst(env, args, n - 1) + [Eval(env, args[n - 1])]
  }

  /** No part uses the dot operator, whose right side is a name and not a value. */
  predicate NoDot(e: Node) {
    match e
    case Literal(_) => true
    case Data(_) => true
    case Apply(op, args) => !op.AtId? && forall i | 0 <= i < |args| :: NoDot(args[i])
    case Call(_, args) => forall i | 0 <= i < |args| :: NoDot(args[i])
  }

  // ------------------------------------------------------------------ the stack machine

  /** What an outcome that is no error leaves on the result stack. */
  function Entry(o: Outcome): Option<Json> {
    if o.Value? then Some(o.value) else None
  }

  /** ... and on the stack of names. */
  function Names(o: Outcome): seq<string> {
    if o.Missing? then [o.name] else []
  }

  function Entries(os: seq<Outcome>): (es: seq<Option<Json>>)
    ensures |es| == |os|
  {
    if os == [] then [] else Entries(os[..|os| - 1]) + [Entry(os[|os| - 1])]
  }

  function AllNames(os: seq<Outcome>): seq<string> {
    if os == [] then [] else AllNames(os[..|os| - 1]) + Names(os[|os| - 1])
  }

  lemma {:induction false} ThrownAppend(os: seq<Outcome>, o: Outcome)
    ensures FirstThrown(os + [o])
            == if FirstThrown(os).Some? then FirstThrown(os) else if o.Thrown? then Some(o.error) else None
  {
    if os == [] {
      assert os + [o] == [o];
    } else {
      ThrownAppend(os[1..], o);
      assert (os + [o])[1..] == os[1..] + [o];
    }
  }

  lemma {:induction false} TopOf(os: seq<Outcome>, k: nat)
    requires 0 < k <= |os|
    ensures Entries(os[..k]) == Entries(os[..k - 1]) + [Entry(os[k - 1])]
    ensures AllNames(os[..k]) == AllNames(os[..k - 1]) + Names(os[k - 1])
    ensures LastMissing(os[..k])
            == if os[k - 1].Missing? then Some(os[k - 1].name) else LastMissing(os[..k - 1])
  {
    assert os[..k][..k - 1] == os[..k - 1];
  }

  /** One more outcome, from position `a` on. */
  lemma {:induction false} NextOutcome(os: seq<Outcome>, a: nat, k: nat)
    requires a <= k < |os| && FirstThrown(os[a..k]).None?
    ensures Entries(os[a..k + 1]) == Entries(os[a..k]) + [Entry(os[k])]
    ensures AllNames(os[a..k + 1]) == AllNames(os[a..k]) + Names(os[k])
    ensures os[k].Thrown? ==> FirstThrown(os[a..]) == Some(os[k].error)
    ensures !os[k].Thrown? ==> FirstThrown(os[a..k + 1]).None?
  {
    assert os[a..k + 1] == os[a..k] + [os[k]];
    assert os[a..k + 1][..k - a] == os[a..k];
    ThrownAppend(os[a..k], os[k]);
    if os[k].Thrown? {
      ThrownPrefix(os[a..k + 1], os[k + 1..]);
      assert os[a..] == os[a..k + 1] + os[k + 1..];
    }
  }

  lemma {:induction false} Reassociate<T>(a: seq<T>, b: seq<T>, c: seq<T>)
    ensures a + b + c == a + (b + c)
  {
  }

  class Renderer {
    const env: Environment
    var evalStack: seq<Option<Json>>
    var notFound: seq<string>

    constructor (env: Environment)
      ensures this.env == env && evalStack == [] && notFound == []
    {
      this.env := env;
      evalStack, notFound := [], [];
    }

    method Push(v: Option<Json>)
      modifies this
      ensures evalStack == old(evalStack) + [v] && notFound == old(notFound)
    {
      evalStack := evalStack + [v];
    }

    /** visit(DataNode) */
    method VisitData(name: string)
      modifies this
      ensures evalStack == old(evalStack) + [Entry(Eval(env, Data(name)))]
      ensures notFound == old(notFound) + Names(Eval(env, Data(name)))
    {
      if name in env.local {
        Push(Some(env.local[name]));
      } else if name in env.input {
        Push(Some(env.input[name]));
      } else if name in env.callback {
        Push(Some(env.callback[name]));
      } else {
        Push(None);
        notFound := notFound + [name];
      }
    }

    /** The first loop of get_arguments(): `n` arguments from `start` on are visited. */
    method VisitArguments(args: seq<Node>, start: nat, n: nat) returns (thrown: Option<Error>)
      requires start + n <= |args| && forall i | 0 <= i < |args| :: NoDot(args[i])
      modifies this
      ensures var os := EvalFirst(env, args, start + n)[start..];
              && thrown == FirstThrown(os)
              && (thrown.None? ==> evalStack == old(evalStack) + Entries(os) && notFound == old(notFound) + AllNames(os))
      decreases args, 0
    {
      ghost var all := EvalFirst(env, args, start + n);
      thrown := None;
      var i := start;
      while i < start + n
        invariant start <= i <= start + n && thrown.None?
        invariant FirstThrown(all[start..i]) == None
        invariant evalStack == old(evalStack) + Entries(all[start..i])
        invariant notFound == old(notFound) + AllNames(all[start..i])
      {
        NextOutcome(all, start, i);
        thrown := VisitNext(args[i], old(evalStack), Entries(all[start..i]), old(notFound), AllNames(all[start..i]));
        if thrown.Some? {
          return;
        }
        i := i + 1;
      }
      assert all[start..i] == all[start..];
    }

    /** Visits one argument on top of the results `entries` and the names `names`. */
    method VisitNext(
      e: Node, ghost below: seq<Option<Json>>, ghost entries: seq<Option<Json>>, ghost lower: seq<string>, ghost names: seq<string>)
      returns (thrown: Option<Error>)
      requires NoDot(e) && evalStack == below + entries && notFound == lower + names
      modifies this
      ensures var o := Eval(env, e);
              && thrown == (if o.Thrown? then Some(o.error) else None)
              && (thrown.None? ==> evalStack == below + (entries + [Entry(o)]) && notFound == lower + (names + Names(o)))
      decreases e, 1
    {
      thrown := Visit(e);
      Reassociate(below, entries, [Entry(Eval(env, e))]);
      Reassociate(lower, names, Names(Eval(env, e)));
    }

    method PopResult(ghost below: seq<Option<Json>>, ghost last: Option<Json>) returns (top: Option<Json>)
      requires evalStack == below + [last]
      modifies this
      ensures top == last && evalStack == below && notFound == old(notFound)
    {
      top := evalStack[|evalStack| - 1];
      evalStack := evalStack[..|evalStack| - 1];
    }

    method PopName(ghost below: seq<string>, ghost last: string) returns (top: string)
      requires notFound == below + [last]
      modifies this
      ensures top == last && notFound == below && evalStack == old(evalStack)
    {
      top := notFound[|notFound| - 1];
      notFound := notFound[..|notFound| - 1];
    }

    /** The second loop of get_arguments(): take the results off again. */
    method PopArguments(n: nat, throwNotFound: bool, ghost os: seq<Outcome>,
                        ghost below: seq<Option<Json>>, ghost names: seq<string>)
      returns (thrown: Option<Error>, result: seq<Option<Json>>)
      requires |os| == n && FirstThrown(os).None?
      requires evalStack == below + Entries(os) && notFound == names + AllNames(os)
      modifies this
      ensures if throwNotFound && LastMissing(os).Some? then thrown == Some(NotFound(LastMissing(os).value))
              else thrown == None && result == Entries(os) && evalStack == below && notFound == names
    {
      thrown, result := None, [];
      var left := n;
      assert os[..n] == os;
      NoneThrown(os);
      while left > 0
        invariant 0 <= left <= n
        invariant evalStack == below + Entries(os[..left]) && notFound == names + AllNames(os[..left])
        invariant Entries(os) == Entries(os[..left]) + result
        invariant throwNotFound ==> LastMissing(os) == LastMissing(os[..left])
      {
        TopOf(os, left);
        ghost var later := result;
        ghost var rest, some, o := Entries(os[..left - 1]), AllNames(os[..left - 1]), os[left - 1];
        Reassociate(names, some, Names(o));
        Reassociate(below, rest, [Entry(o)]);
        var top := PopResult(below + rest, Entry(o));
        Reassociate(rest, [top], later);
        result := [top] + result;
        if top.None? {
          var name := PopName(names + some, o.name);
          if throwNotFound {
            thrown := Some(NotFound(name));
            return;
          }
        }
        left := left - 1;
      }
      assert os[..0] == [];
    }

    /** get_arguments<n, start, throwNotFound>() */
    method GetArguments(args: seq<Node>, start: nat, n: nat, throwNotFound: bool)
      returns (thrown: Option<Error>, result: seq<Option<Json>>)
      requires forall i | 0 <= i < |args| :: NoDot(args[i])
      modifies this
      ensures |args| < start + n ==> thrown == Some(TooFew)
      ensures |args| >= start + n ==>
                var os := EvalFirst(env, args, start + n)[start..];
                if FirstThrown(os).Some? then thrown == FirstThrown(os)
                else if throwNotFound && LastMissing(os).Some? then thrown == Some(NotFound(LastMissing(os).value))
                else thrown == None && result == Entries(os)
                     && evalStack == old(evalStack) && notFound == old(notFound)
      decreases args, 1
    {
      result := [];
      if |args| < start + n {
        thrown := Some(TooFew);
      } else {
        thrown := VisitArguments(args, start, n);
        if thrown.None? {
          ghost var os := EvalFirst(env, args, start + n)[start..];
          thrown, result := PopArguments(n, throwNotFound, os, old(evalStack), old(notFound));
        }
      }
    }

    /** make_result() of an operation's value. */
    method PushApplied(head: Head, values: seq<Json>) returns (thrown: Option<Error>)
      modifies this
      ensures Done(Apply2(env, head, values), thrown, old(evalStack), old(notFound))
    {
      thrown := None;
      if head == Operator(Not) && |values| == 1 {
        Push(Some(Bool(!Truthy(values[0]))));
      } else {
        var r := env.apply(head, values);
        if r.Err? {
          thrown := Some(Failure(r.error));
        } else {
          Push(Some(r.value));
        }
      }
    }

    /** visit(FunctionNode) for everything but `and`, `or` and `default`. */
    method VisitStrict(head: Head, args: seq<Node>, n: nat) returns (thrown: Option<Error>)
      requires forall i | 0 <= i < |args| :: NoDot(args[i])
      modifies this
      ensures var o := if |args| < n then Thrown(TooFew) else Strict(env, head, EvalFirst(env, args, n));
              Done(o, thrown, old(evalStack), old(notFound))
      decreases args, 2
    {
      var result;
      thrown, result := GetArguments(args, 0, n, true);
      if thrown.None? {
        ghost var os := EvalFirst(env, args, n);
        assert os[0..] == os;
        AllValues(os);
        var values := seq(n, i requires 0 <= i < n => result[i].value);
        assert values == Gather(os).values;
        thrown := PushApplied(head, values);
      } else if |args| >= n {
        assert EvalFirst(env, args, n)[0..] == EvalFirst(env, args, n);
      }
    }

    /** Evaluation came to `o`: an error, or one more result and its name if it is null. */
    ghost predicate Done(o: Outcome, thrown: Option<Error>, stack: seq<Option<Json>>, names: seq<string>)
      reads this
    {
      if o.Thrown? then thrown == Some(o.error)
      else thrown == None && evalStack == stack + [Entry(o)] && notFound == names + Names(o)
    }

    /** get_arguments<1, start>(): one argument whose value is needed. */
    method GetOne(args: seq<Node>, start: nat, throwNotFound: bool)
      returns (thrown: Option<Error>, value: Option<Json>)
      requires forall i | 0 <= i < |args| :: NoDot(args[i])
      modifies this
      ensures var o := if |args| <= start then Thrown(TooFew)
                       else if throwNotFound then Demand(Eval(env, args[start]))
                       else Eval(env, args[start]);
              if o.Thrown? then thrown == Some(o.error)
              else thrown == None && value == Entry(o) && evalStack == old(evalStack) && notFound == old(notFound)
      decreases args, 2
    {
      var result;
      thrown, result := GetArguments(args, start, 1, throwNotFound);
      value := None;
      if start < |args| {
        ghost var os := EvalFirst(env, args, start + 1)[start..];
        assert os == [Eval(env, args[start])];
        assert Entries(os) == [Entry(os[0])];
        if thrown.None? {
          value := result[0];
        }
      }
    }

    method VisitLogical(op: Op, args: seq<Node>) returns (thrown: Option<Error>)
      requires (op.And? || op.Or?) && forall i | 0 <= i < |args| :: NoDot(args[i])
      modifies this
      ensures Done(Eval(env, Apply(op, args)), thrown, old(evalStack), old(notFound))
      decreases args, 3
    {
      var value;
      thrown, value := GetOne(args, 0, true);
      if thrown.None? {
        if Truthy(value.value) == op.Or? {
          Push(Some(Bool(op.Or?)));
        } else {
          thrown, value := GetOne(args, 1, true);
          if thrown.None? {
            Push(Some(Bool(Truthy(value.value))));
          }
        }
      }
    }

    method VisitDefault(name: string, args: seq<Node>) returns (thrown: Option<Error>)
      requires env.isDefault(name, |args|) && forall i | 0 <= i < |args| :: NoDot(args[i])
      modifies this
      ensures Done(Eval(env, Call(name, args)), thrown, old(evalStack), old(notFound))
      decreases args, 3
    {
      var value;
      thrown, value := GetOne(args, 0, false);
      if thrown.None? {
        if value.None? {
          thrown, value := GetOne(args, 1, true);
        }
        if thrown.None? {
          Push(value);
        }
      }
    }

    /** accept(): visits any expression. */
    method Visit(e: Node) returns (thrown: Option<Error>)
      requires NoDot(e)
      modifies this
      ensures Done(Eval(env, e), thrown, old(evalStack), old(notFound))
      decreases e, 0
    {
      match e
      case Literal(tokens) =>
        thrown := None;
        Push(Some(env.literal(tokens)));
      case Data(name) =>
        thrown := None;
        VisitData(name);
      case Apply(op, args) =>
        if op.And? || op.Or? {
          thrown := VisitLogical(op, args);
        } else {
          thrown := VisitStrict(Operator(op), args, Arity(op));
        }
      case Call(name, args) =>
        if env.isDefault(name, |args|) {
          thrown := VisitDefault(name, args);
        } else {
          thrown := VisitStrict(Function(name), args, |args|);
        }
    }

    /** eval_expression_list(), with nothing on the stacks, as between any two statements. */
    method EvalExpressionList(root: Option<Node>) returns (r: Result<Json, Error>)
      requires evalStack == [] && notFound == [] && (root.Some? ==> NoDot(root.value))
      modifies this
      ensures root.None? ==> r == Err(EmptyExpression)
      ensures root.Some? ==>
                match Eval(env, root.value)
                case Value(v) => r == Ok(v)
                case Missing(name) => r == Err(NotFound(name))
                case Thrown(error) => r == Err(error)
      ensures r.Ok? ==> evalStack == [] && notFound == []
    {
      if root.None? {
        return Err(EmptyExpression);
      }
      var thrown := Visit(root.value);
      if thrown.Some? {
        return Err(thrown.value);
      }
      if |evalStack| == 0 {
        return Err(EmptyExpression);
      } else if |evalStack| != 1 {
        return Err(Malformed);
      }
      var top := evalStack[0];
      evalStack := [];
      if top.None? {
        if notFound == [] {
          return Err(CouldNotBeEvaluated);
        }
        var name := notFound[|notFound| - 1];
        notFound := notFound[..|notFound| - 1];
        return Err(NotFound(name));
      }
      return Ok(top.value);
    }
  }

  lemma {:induction false} NoneThrown(os: seq<Outcome>)
    requires FirstThrown(os).None?
    ensures forall i | 0 <= i < |os| :: !os[i].Thrown?
  {
    if os != [] {
      NoneThrown(os[1..]);
      forall i | 0 <= i < |os|
        ensures !os[i].Thrown?
      {
        assert i > 0 ==> os[i] == os[1..][i - 1];
      }
    }
  }

  lemma {:induction false} NoneMissing(os: seq<Outcome>)
    requires LastMissing(os).None?
    ensures forall i | 0 <= i < |os| :: !os[i].Missing?
  {
    if os != [] {
      NoneMissing(os[..|os| - 1]);
    }
  }

  lemma {:induction false} EntriesAt(os: seq<Outcome>, i: nat)
    requires i < |os|
    ensures Entries(os)[i] == Entry(os[i])
    decreases |os|
  {
    if i < |os| - 1 {
      EntriesAt(os[..|os| - 1], i);
    }
  }

  lemma {:induction false} AllValues(os: seq<Outcome>)
    requires FirstThrown(os).None? && LastMissing(os).None?
    ensures forall i | 0 <= i < |os| :: os[i].Value? && Entries(os)[i] == Some(os[i].value)
  {
    NoneThrown(os);
    NoneMissing(os);
    forall i | 0 <= i < |os|
      ensures Entries(os)[i] == Entry(os[i])
    {
      EntriesAt(os, i);
    }
  }

  lemma {:induction false} ThrownPrefix(os: seq<Outcome>, more: seq<Outcome>)
    requires FirstThrown(os).Some?
    ensures FirstThrown(os + more) == FirstThrown(os)
  {
    assert (os + more)[0] == os[0];
    if !os[0].Thrown? {
      ThrownPrefix(os[1..], more);
      assert (os + more)[1..] == os[1..] + more;
    }
  }

  // ------------------------------------------------------- what "not found" tells

  /** Only a variable can be missing: no operation passes a missing operand on. */
  lemma {:induction false} OnlyVariablesAreMissing(env: Environment, e: Node)
    ensures Eval(env, e).Missing? <==> e.Data? && Lookup(env, e.name).None?
  {
  }

  predicate Blames(o: Outcome, name: string) {
    o == Missing(name) || o == Thrown(NotFound(name))
  }

  /** The variable an evaluation reports is one the expression uses, and no value exists for it. */
  lemma {:induction false} NotFoundIsALeaf(env: Environment, e: Node, name: string)
    requires Blames(Eval(env, e), name)
    ensures Data(name) in L.Leaves(e) && Lookup(env, name).None?
    decreases e
  {
    match e
    case Literal(_) =>
    case Data(_) =>
    case Apply(op, args) =>
      if op.And? || op.Or? {
        var k := if Blames(Eval(env, args[0]), name) then 0 else 1;
        NotFoundIsALeaf(env, args[k], name);
        ArgumentLeaf(args, k, name);
      } else {
        StrictBlames(env, Operator(op), args, Arity(op), name);
      }
    case Call(f, args) =>
      if env.isDefault(f, |args|) {
        var k := if Eval(env, args[0]).Missing? then 1 else 0;
        NotFoundIsALeaf(env, args[k], name);
        ArgumentLeaf(args, k, name);
      } else {
        StrictBlames(env, Function(f), args, |args|, name);
      }
  }

  lemma {:induction false} StrictBlames(env: Environment, head: Head, args: seq<Node>, n: nat, name: string)
    requires n <= |args| && Blames(Strict(env, head, EvalFirst(env, args, n)), name)
    ensures Data(name) in L.AllLeaves(args) && Lookup(env, name).None?
    decreases args
  {
    var os := EvalFirst(env, args, n);
    StrictGathers(env, head, os, name);
    var k := Culprit(os, name);
    NotFoundIsALeaf(env, args[k], name);
    ArgumentLeaf(args, k, name);
  }

  lemma {:induction false} StrictGathers(env: Environment, head: Head, os: seq<Outcome>, name: string)
    requires Blames(Strict(env, head, os), name)
    ensures Gather(os) == NoValues(NotFound(name))
  {
  }

  lemma {:induction false} Culprit(os: seq<Outcome>, name: string) returns (k: nat)
    requires Gather(os) == NoValues(NotFound(name))
    ensures k < |os| && Blames(os[k], name)
  {
    if FirstThrown(os).Some? {
      k := ThrownAt(os);
    } else {
      k := MissingAt(os);
    }
  }

  lemma {:induction false} ThrownAt(os: seq<Outcome>) returns (k: nat)
    requires FirstThrown(os).Some?
    ensures k < |os| && os[k] == Thrown(FirstThrown(os).value)
  {
    if os[0].Thrown? {
      k := 0;
    } else {
      k := ThrownAt(os[1..]);
      k := k + 1;
    }
  }

  lemma {:induction false} MissingAt(os: seq<Outcome>) returns (k: nat)
    requires LastMissing(os).Some?
    ensures k < |os| && os[k] == Missing(LastMissing(os).value)
  {
    if os[|os| - 1].Missing? {
      k := |os| - 1;
    } else {
      k := MissingAt(os[..|os| - 1]);
    }
  }

  lemma {:induction false} ArgumentLeaf(args: seq<Node>, k: nat, name: string)
    requires k < |args| && Data(name) in L.Leaves(args[k])
    ensures Data(name) in L.AllLeaves(args)
  {
    if k > 0 {
      ArgumentLeaf(args[1..], k - 1, name);
    }
  }
}
