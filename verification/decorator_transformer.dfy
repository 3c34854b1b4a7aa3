/**
 * The dynamic-to-static decorator rewrite. A decorated definition
 * `@d1 @d2 def f(a, b): body` becomes an undecorated `f` whose body defines
 * `_orig_f` (the old parameters and body), applies the decorators to it
 * innermost first, one statement per decorator, each result named
 * `_decoedby_<name>` and feeding the next, and ends with
 * `return _decoedby_<last>(a,b)`. Decorators that the static graph handles
 * itself (`to_static`, `staticmethod`, ...) are dropped without a statement.
 * Nested definitions are rewritten before the definition enclosing them.
 *
 * The decorator's source text and the name the pattern match extracts from
 * it (none when the text does not match, as for `@decos[0]`) are inputs; the generated statements are kept in the structured form
 * their source text is printed from (see `Source`).
 */
module DecoratorTransformer {
  import opened Common

  /** A decorator as the rewrite sees it: its source text (stripped), the
      bare name extracted from it (None when the name pattern does not match
      the text, so that taking its group raises AttributeError), and whether
      it is a call expression. */
  datatype Decorator = Decorator(full: string, name: Option<string>, isCall: bool)

  /** The parameters of a definition: the positional names (`args.args`) and
      the rest (`*args`, keyword-only names, `**kwargs`). */
  datatype Arguments = Arguments(positional: seq<string>, others: seq<string>)

  /** The statement applying one decorator. */
  datatype DecoStmt =
    | WrapCall(decoed: string, deco: string, target: string)
    | TryCall(decoed: string, callee: string, args: string, target: string)

  /** The statements of a module. `Block` is any other statement holding
      statements (the module itself, `if`, `for`, `class`, ...); `Leaf` one
      holding none; `DecoApply` and `ReturnCall` are the generated ones. */
  datatype Node =
    | FunctionDef(name: string, args: Arguments, decorators: seq<Decorator>, body: seq<Node>)
    | Block(kind: string, children: seq<Node>)
    | Leaf(text: string)
    | DecoApply(stmt: DecoStmt)
    | ReturnCall(callee: string, params: seq<string>)

  const IgnoreNames: seq<string> :=
    ["declarative", "to_static", "wraps", "staticmethod", "classmethod", "decorator"]

  predicate Ignored(d: Decorator)
  {
    d.name.Some? && d.name.value in IgnoreNames
  }

  /** The source text generated for a statement, before it is parsed back:
      a plain decorator is wrapped in `_jst.Call`; a call decorator is first
      tried with the target prepended to its arguments and, if that raises,
      applied curried. */
  function Source(s: DecoStmt): string
  {
    match s
    case WrapCall(decoed, deco, target) =>
      decoed + " = _jst.Call(" + deco + ")(" + target + ")"
    case TryCall(decoed, callee, args, target) =>
      "try:\n\t" + decoed + " = " + callee + "(" + target + ", " + args + ")\nexcept:\n\t"
      + decoed + " = " + callee + "(" + args + ")(" + target + ")"
  }

  // ---------------------------------------------------------------------
  // The two literal patterns that split a call decorator

  /** `m` occurs in `s` at index `i`. */
  predicate At(s: string, m: string, i: nat)
  {
    i + |m| <= |s| && s[i..i + |m|] == m
  }

  /** The first index at or after `from` where `m` occurs. */
  function FindFrom(s: string, m: string, from: nat): (r: Option<nat>)
    decreases |s| - from
    ensures r.Some? ==> from <= r.value && At(s, m, r.value)
    ensures r.Some? ==> forall k :: from <= k < r.value ==> !At(s, m, k)
    ensures r.None? ==> forall k :: from <= k ==> !At(s, m, k)
  {
    if from + |m| > |s| then None
    else if At(s, m, from) then Some(from)
    else FindFrom(s, m, from + 1)
  }

  /** The last index in `[from, end)` holding ')'. */
  function LastClose(s: string, from: nat, end: nat): (r: Option<nat>)
    requires end <= |s|
    ensures r.Some? ==> from <= r.value < end && s[r.value] == ')'
    ensures r.Some? ==> forall k :: r.value < k < end ==> s[k] != ')'
    ensures r.None? ==> forall k :: from <= k < end ==> s[k] != ')'
  {
    if end <= from then None
    else if s[end - 1] == ')' then Some(end - 1)
    else LastClose(s, from, end - 1)
  }

  /** `re.match('(.+?)' + marker + '(.*)\)', s)` on one-line text: the
      shortest non-empty name followed by `marker`, then the longest
      argument text that a ')' closes. The result holds the two groups. */
  function SplitCall(s: string, marker: string): (r: Option<(string, string)>)
    ensures r.Some? ==>
      var i, j := |r.value.0|, |r.value.0| + |marker| + |r.value.1|;
      1 <= i && j < |s| && s[..i] == r.value.0 && At(s, marker, i)
      && s[i + |marker|..j] == r.value.1 && s[j] == ')'
      && (forall k :: 1 <= k < i ==> !At(s, marker, k))
      && (forall k :: j < k < |s| ==> s[k] != ')')
    ensures r.None? ==>
      forall i, j :: 1 <= i && At(s, marker, i) && i + |marker| <= j < |s| ==> s[j] != ')'
  {
    match FindFrom(s, marker, 1)
    case None => None
    case Some(i) =>
      match LastClose(s, i + |marker|, |s|)
      case None => None
      case Some(j) => Some((s[..i], s[i + |marker|..j]))
  }

  /** Splitting a printed call `name<marker>args)` gives back its name and
      arguments, whatever the arguments contain. */
  lemma SplitCallJoined(name: string, marker: string, args: string)
    requires 1 <= |name| && 0 < |marker|
    requires forall k :: 1 <= k < |name| ==> !At(name + marker, marker, k)
    ensures SplitCall(name + marker + args + ")", marker) == Some((name, args))
  {
    var s := name + marker + args + ")";
    JoinedFind(name, marker, args);
    assert LastClose(s, |name| + |marker|, |s|) == Some(|s| - 1);
    JoinedParts(name, marker, args);
  }

  lemma JoinedFind(name: string, marker: string, args: string)
    requires 1 <= |name|
    requires forall k :: 1 <= k < |name| ==> !At(name + marker, marker, k)
    ensures FindFrom(name + marker + args + ")", marker, 1) == Some(|name|)
  {
    var s := name + marker + args + ")";
    var p := name + marker;
    assert s == p + (args + ")");
    NoEarlierMarker(name, marker, args + ")");
    SliceOfPrefix(p, args + ")", |name|, |marker|);
    assert p[|name|..|name| + |marker|] == marker;
    FindFromFirst(s, marker, 1, |name|);
  }

  lemma JoinedParts(name: string, marker: string, args: string)
    ensures (name + marker + args + ")")[..|name|] == name
    ensures (name + marker + args + ")")[|name| + |marker|..|name| + |marker| + |args|] == args
  {
  }

  lemma NoEarlierMarker(name: string, marker: string, t: string)
    requires forall k :: 1 <= k < |name| ==> !At(name + marker, marker, k)
    ensures forall k :: 1 <= k < |name| ==> !At(name + marker + t, marker, k)
  {
    var p := name + marker;
    forall k | 1 <= k < |name|
      ensures !At(p + t, marker, k)
    {
      SliceOfPrefix(p, t, k, |marker|);
      assert !At(p, marker, k);
    }
  }

  lemma FindFromFirst(s: string, m: string, from: nat, i: nat)
    requires from <= i && At(s, m, i)
    requires forall k :: from <= k < i ==> !At(s, m, k)
    ensures FindFrom(s, m, from) == Some(i)
  {
  }

  lemma SliceOfPrefix(p: string, t: string, k: nat, len: nat)
    requires k + len <= |p|
    ensures (p + t)[k..k + len] == p[k..k + len]
  {
  }

  const JstCall: string := "_jst.Call("

  /** `re.match(r'\_jst\.Call\((.+?)\)\((.*)\)', s)`. */
  function SplitJst(s: string): (r: Option<(string, string)>)
    ensures r.Some? ==> JstCall <= s
  {
    if JstCall <= s then SplitCall(s[|JstCall|..], ")(") else None
  }

  /** A call decorator whose text the split for its kind can read; the
      kind is chosen by whether `_jst.Call` occurs anywhere in the text. */
  predicate Parses(full: string)
  {
    if Contains(full, "_jst.Call") then SplitJst(full).Some? else SplitCall(full, "(").Some?
  }

  /** The statement for decorator `d`, naming its result `decoed` and
      applying it to `target`. A call decorator whose text the pattern does
      not match fails as `.group` on `None` does. */
  function DecoStatement(d: Decorator, decoed: string, target: string): (r: Result<DecoStmt>)
    ensures r.Ok? <==> !d.isCall || Parses(d.full)
    ensures r.Err? ==> r.error == AttributeError
    ensures r.Ok? ==> r.value.decoed == decoed && r.value.target == target
    ensures r.Ok? ==> (r.value.WrapCall? <==> !d.isCall)
    ensures r.Ok? && r.value.WrapCall? ==> r.value.deco == d.full
    ensures r.Ok? && r.value.TryCall? ==>
      var n := |r.value.callee| + |r.value.args| + 2;
      n <= |d.full| && d.full[..n] == r.value.callee + "(" + r.value.args + ")"
      && forall k :: n <= k < |d.full| ==> d.full[k] != ')'
  {
    if !d.isCall then
      Ok(WrapCall(decoed, d.full, target))
    else if Contains(d.full, "_jst.Call") then
      match SplitJst(d.full)
      case None => Err(AttributeError)
      case Some(split) =>
        JstPrefix(d.full);
        Ok(TryCall(decoed, JstCall + split.0 + ")", split.1, target))
    else
      match SplitCall(d.full, "(")
      case None => Err(AttributeError)
      case Some(split) =>
        SplitPrefix(d.full, "(");
        Ok(TryCall(decoed, split.0, split.1, target))
  }

  /** A split call is a prefix of the text, and no ')' follows it. */
  lemma SplitPrefix(s: string, marker: string)
    requires SplitCall(s, marker).Some?
    ensures
      var name, args := SplitCall(s, marker).value.0, SplitCall(s, marker).value.1;
      var n := |name| + |marker| + |args| + 1;
      n <= |s| && s[..n] == name + marker + args + ")"
      && forall k :: n <= k < |s| ==> s[k] != ')'
  {
    var name, args := SplitCall(s, marker).value.0, SplitCall(s, marker).value.1;
    var i, j := |name|, |name| + |marker| + |args|;
    assert s[..i] == name && s[i..i + |marker|] == marker;
    assert s[i + |marker|..j] == args && s[j] == ')';
    assert s[..j + 1] == s[..i] + s[i..i + |marker|] + s[i + |marker|..j] + [s[j]];
    assert s[..j + 1] == name + marker + args + ")";
  }

  /** The same for a `_jst.Call(name)(args)` decorator, whose callee is
      `_jst.Call(name)`. */
  lemma JstPrefix(full: string)
    requires SplitJst(full).Some?
    ensures
      var callee, args := JstCall + SplitJst(full).value.0 + ")", SplitJst(full).value.1;
      var n := |callee| + |args| + 2;
      n <= |full| && full[..n] == callee + "(" + args + ")"
      && forall k :: n <= k < |full| ==> full[k] != ')'
  {
    var s := full[|JstCall|..];
    SplitPrefix(s, ")(");
    var name, args := SplitJst(full).value.0, SplitJst(full).value.1;
    var n := |name| + 2 + |args| + 1;
    assert full == JstCall + s;
    PrefixOfJoin(JstCall, s, n);
    JstJoin(name, args);
    forall k | |JstCall| + n <= k < |full|
      ensures full[k] != ')'
    {
      assert full[k] == s[k - |JstCall|];
    }
  }

  lemma PrefixOfJoin(p: string, s: string, n: nat)
    requires n <= |s|
    ensures (p + s)[..|p| + n] == p + s[..n]
  {
  }

  lemma JstJoin(name: string, args: string)
    ensures JstCall + (name + ")(" + args + ")") == JstCall + name + ")" + "(" + args + ")"
  {
  }

  // ---------------------------------------------------------------------
  // The chain over the decorators

  /** The loop state: statements so far, the next target, the last result. */
  datatype Chain = Chain(stmts: seq<DecoStmt>, target: string, decoed: string)

  function Start(name: string): Chain
  {
    Chain([], "_orig_" + name, "")
  }

  /** One iteration of the loop over the decorators. */
  function Step(c: Chain, d: Decorator): Result<Chain>
  {
    if d.name.None? then Err(AttributeError)
    else if Ignored(d) then Ok(c)
    else
      var decoed := "_decoedby_" + d.name.value;
      var stmt :- DecoStatement(d, decoed, c.target);
      Ok(Chain(c.stmts + [stmt], decoed, decoed))
  }

  /** `for deco in reversed(ds)`: the last decorator in the list, the one
      nearest the definition, is applied first. */
  function ChainOf(init: Chain, ds: seq<Decorator>): Result<Chain>
  {
    if ds == [] then Ok(init)
    else
      var c :- ChainOf(init, ds[1..]);
      Step(c, ds[0])
  }

  /** The decorators that get a statement, in the order they are applied. */
  function AppliedOrder(ds: seq<Decorator>): seq<Decorator>
  {
    if ds == [] then []
    else AppliedOrder(ds[1..]) + (if Ignored(ds[0]) then [] else [ds[0]])
  }

  /** Independent reference: filter of the reversed list. */
  function Reverse<T>(s: seq<T>): seq<T>
  {
    if s == [] then [] else Reverse(s[1..]) + [s[0]]
  }

  function Kept(ds: seq<Decorator>): seq<Decorator>
  {
    if ds == [] then [] else (if Ignored(ds[0]) then [] else [ds[0]]) + Kept(ds[1..])
  }

  lemma {:induction false} KeptConcat(a: seq<Decorator>, b: seq<Decorator>)
    ensures Kept(a + b) == Kept(a) + Kept(b)
  {
    if a != [] {
      var x := if Ignored(a[0]) then [] else [a[0]];
      assert (a + b)[0] == a[0];
      assert (a + b)[1..] == a[1..] + b;
      assert Kept(a + b) == x + Kept(a[1..] + b);
      assert Kept(a) == x + Kept(a[1..]);
      KeptConcat(a[1..], b);
      ConcatAssoc(x, Kept(a[1..]), Kept(b));
    } else {
      assert a + b == b;
    }
  }

  /** The applied decorators are the non-ignored ones, innermost first. */
  lemma {:induction false} AppliedOrderIsReversedFilter(ds: seq<Decorator>)
    ensures AppliedOrder(ds) == Kept(Reverse(ds))
  {
    if ds != [] {
      AppliedOrderIsReversedFilter(ds[1..]);
      KeptConcat(Reverse(ds[1..]), [ds[0]]);
      assert [ds[0]][1..] == [];
    }
  }

  /** A decorator gets a statement exactly when it is in the list and its
      name is not ignored. */
  lemma {:induction false} AppliedOrderMembers(ds: seq<Decorator>, d: Decorator)
    ensures d in AppliedOrder(ds) <==> d in ds && !Ignored(d)
  {
    if ds != [] {
      AppliedOrderMembers(ds[1..], d);
      assert ds == [ds[0]] + ds[1..];
    }
  }

  /** `contextmanager` only warns: it is still applied. */
  lemma ContextManagerApplied(ds: seq<Decorator>, i: nat)
    requires i < |ds| && ds[i].name == Some("contextmanager")
    ensures ds[i] in AppliedOrder(ds)
  {
    ContextManagerNotIgnored(ds[i]);
    AppliedOrderMembers(ds, ds[i]);
  }

  lemma ContextManagerNotIgnored(d: Decorator)
    requires d.name == Some("contextmanager")
    ensures !Ignored(d)
  {
    assert |d.name.value| == 14;
    assert forall k :: 0 <= k < |IgnoreNames| ==> |IgnoreNames[k]| < 14;
  }

  /** The chain succeeds exactly when every decorator's name matches and
      every applied call decorator parses. */
  lemma {:induction false} ChainOkIff(init: Chain, ds: seq<Decorator>)
    ensures ChainOf(init, ds).Ok? <==>
      forall i :: 0 <= i < |ds| ==> ds[i].name.Some? && (!Ignored(ds[i]) && ds[i].isCall ==> Parses(ds[i].full))
  {
    if ds != [] {
      ChainOkIff(init, ds[1..]);
      assert forall i :: 1 <= i < |ds| ==> ds[1..][i - 1] == ds[i];
      assert forall i :: 0 <= i < |ds| - 1 ==> ds[1..][i] == ds[i + 1];
    }
  }

  /** The chain links: the first statement applies to `_orig_<name>`, each
      later one to the previous result, each result is named after its
      decorator, and the last result is the one the function returns. */
  predicate Linked(name: string, c: Chain, a: seq<Decorator>)
  {
    |c.stmts| == |a|
    && (forall k :: 0 <= k < |a| ==> a[k].name.Some?)
    && (forall k :: 0 <= k < |a| ==>
          c.stmts[k].decoed == "_decoedby_" + a[k].name.value
          && c.stmts[k].target == (if k == 0 then "_orig_" + name else "_decoedby_" + a[k - 1].name.value)
          && (c.stmts[k].WrapCall? <==> !a[k].isCall))
    && c.decoed == (if a == [] then "" else "_decoedby_" + a[|a| - 1].name.value)
    && c.target == (if a == [] then "_orig_" + name else c.decoed)
  }

  lemma LinkedSnoc(name: string, c: Chain, a: seq<Decorator>, d: Decorator, stmt: DecoStmt)
    requires Linked(name, c, a)
    requires d.name.Some?
    requires stmt.decoed == "_decoedby_" + d.name.value && stmt.target == c.target
    requires stmt.WrapCall? <==> !d.isCall
    ensures Linked(name, Chain(c.stmts + [stmt], stmt.decoed, stmt.decoed), a + [d])
  {
    var stmts, a' := c.stmts + [stmt], a + [d];
    forall k | 0 <= k < |a'|
      ensures stmts[k].decoed == "_decoedby_" + a'[k].name.value
      ensures stmts[k].target == (if k == 0 then "_orig_" + name else "_decoedby_" + a'[k - 1].name.value)
      ensures stmts[k].WrapCall? <==> !a'[k].isCall
    {
      if k < |a| {
        assert stmts[k] == c.stmts[k] && a'[k] == a[k];
        if k > 0 {
          assert a'[k - 1] == a[k - 1];
        }
      } else {
        assert stmts[k] == stmt && a'[k] == d;
        if k > 0 {
          assert a'[k - 1] == a[|a| - 1];
        }
      }
    }
    var c' := Chain(stmts, stmt.decoed, stmt.decoed);
    assert |c'.stmts| == |a'| && a' != [] && a'[|a'| - 1] == d;
    assert c'.decoed == "_decoedby_" + a'[|a'| - 1].name.value;
    assert c'.target == (if a' == [] then "_orig_" + name else c'.decoed);
    assert c'.decoed == (if a' == [] then "" else "_decoedby_" + a'[|a'| - 1].name.value);
    assert Linked(name, c', a');
  }

  /** Every successful chain is linked along the applied decorators. */
  lemma {:induction false} ChainLinks(name: string, ds: seq<Decorator>)
    requires ChainOf(Start(name), ds).Ok?
    ensures Linked(name, ChainOf(Start(name), ds).value, AppliedOrder(ds))
  {
    if ds != [] {
      ChainLinks(name, ds[1..]);
      var c := ChainOf(Start(name), ds[1..]).value;
      assert ChainOf(Start(name), ds) == Step(c, ds[0]);
      if Ignored(ds[0]) {
        assert AppliedOrder(ds) == AppliedOrder(ds[1..]);
      } else {
        var decoed := "_decoedby_" + ds[0].name.value;
        var stmt := DecoStatement(ds[0], decoed, c.target).value;
        assert ChainOf(Start(name), ds).value == Chain(c.stmts + [stmt], decoed, decoed);
        assert AppliedOrder(ds) == AppliedOrder(ds[1..]) + [ds[0]];
        LinkedSnoc(name, c, AppliedOrder(ds[1..]), ds[0], stmt);
      }
    }
  }

  /** A chain that failed stays failed once more decorators come before it. */
  lemma {:induction false} ChainErrSticks(init: Chain, ds: seq<Decorator>, i: nat)
    requires i <= |ds| && ChainOf(init, ds[i..]).Err?
    ensures ChainOf(init, ds) == ChainOf(init, ds[i..])
  {
    if i > 0 {
      assert ds[i - 1..][1..] == ds[i..];
      ChainErrSticks(init, ds, i - 1);
    } else {
      assert ds[0..] == ds;
    }
  }

  // ---------------------------------------------------------------------
  // The rewrite

  function AsNodes(stmts: seq<DecoStmt>): (r: seq<Node>)
    ensures |r| == |stmts| && forall k :: 0 <= k < |r| ==> r[k] == DecoApply(stmts[k])
  {
    seq(|stmts|, k requires 0 <= k < |stmts| => DecoApply(stmts[k]))
  }

  /** `visit_FunctionDef` after its children were visited: the decorator list
      is cleared; when some decorator produced a statement the body becomes
      the original definition, the statements and the forwarding return. */
  function Rewrite(name: string, args: Arguments, decos: seq<Decorator>, body: seq<Node>): Result<Node>
  {
    var c :- ChainOf(Start(name), decos);
    Ok(Built(name, args, c, body))
  }

  /** The definition rebuilt from a finished chain. */
  function Built(name: string, args: Arguments, c: Chain, body: seq<Node>): Node
  {
    if c.stmts == [] then FunctionDef(name, args, [], body)
    else
      var orig := FunctionDef("_orig_" + name, args, [], body);
      FunctionDef(name, args, [], [orig] + AsNodes(c.stmts) + [ReturnCall(c.decoed, args.positional)])
  }

  /** The whole transformation: children first, then the definition. */
  function Transformed(n: Node): Result<Node>
    decreases n, 1
  {
    match n
    case FunctionDef(name, args, decos, body) =>
      var b :- TransformedAll(body);
      Rewrite(name, args, decos, b)
    case Block(kind, children) =>
      var cs :- TransformedAll(children);
      Ok(Block(kind, cs))
    case _ => Ok(n)
  }

  function TransformedAll(ns: seq<Node>): Result<seq<Node>>
    decreases ns, 0
  {
    if ns == [] then Ok([])
    else
      var front :- TransformedAll(ns[..|ns| - 1]);
      var last :- Transformed(ns[|ns| - 1]);
      Ok(front + [last])
  }

  /** No definition anywhere in the tree keeps a decorator. */
  predicate Undecorated(n: Node)
  {
    match n
    case FunctionDef(_, _, decos, body) => decos == [] && forall k :: 0 <= k < |body| ==> Undecorated(body[k])
    case Block(_, cs) => forall k :: 0 <= k < |cs| ==> Undecorated(cs[k])
    case _ => true
  }

  /** The rewrite succeeds exactly when every decorator's name matches and
      every applied call decorator parses; otherwise it raises
      AttributeError. */
  lemma RewriteOkIff(name: string, args: Arguments, decos: seq<Decorator>, body: seq<Node>)
    ensures Rewrite(name, args, decos, body).Ok? <==>
      forall i :: 0 <= i < |decos| ==> decos[i].name.Some? && (!Ignored(decos[i]) && decos[i].isCall ==> Parses(decos[i].full))
    ensures Rewrite(name, args, decos, body).Err? ==> Rewrite(name, args, decos, body).error == AttributeError
  {
    ChainOkIff(Start(name), decos);
    ChainErrIsAttribute(Start(name), decos);
  }

  /** The layout of a rewritten definition `n` of `name`, `args` and `body`
      whose applied decorators are `a`: an undecorated definition of the
      same name and parameters; with no applied decorator the body is
      untouched; otherwise it is `_orig_<name>` with the old parameters, body
      and no decorators, one statement per applied decorator in that order,
      chained from `_orig_<name>`, and a return calling the last result with
      the positional parameter names. */
  predicate Laid(n: Node, name: string, args: Arguments, a: seq<Decorator>, body: seq<Node>)
  {
    n.FunctionDef? && n.name == name && n.args == args && n.decorators == []
    && (a == [] ==> n.body == body)
    && (forall k :: 0 <= k < |a| ==> a[k].name.Some?)
    && (a != [] ==>
          |n.body| == |a| + 2
          && n.body[0] == FunctionDef("_orig_" + name, args, [], body)
          && n.body[|a| + 1] == ReturnCall("_decoedby_" + a[|a| - 1].name.value, args.positional)
          && forall k :: 1 <= k <= |a| ==>
               n.body[k].DecoApply?
               && n.body[k].stmt.decoed == "_decoedby_" + a[k - 1].name.value
               && n.body[k].stmt.target == (if k == 1 then "_orig_" + name else "_decoedby_" + a[k - 2].name.value)
               && (n.body[k].stmt.WrapCall? <==> !a[k - 1].isCall))
  }

  lemma BuiltLaid(name: string, args: Arguments, c: Chain, a: seq<Decorator>, body: seq<Node>)
    requires Linked(name, c, a)
    ensures Laid(Built(name, args, c, body), name, args, a, body)
  {
    if c.stmts != [] {
      var nodes := AsNodes(c.stmts);
      var m := [FunctionDef("_orig_" + name, args, [], body)] + nodes + [ReturnCall(c.decoed, args.positional)];
      assert Built(name, args, c, body).body == m;
      forall k | 1 <= k <= |a|
        ensures m[k] == DecoApply(c.stmts[k - 1])
      {
        assert m[k] == nodes[k - 1];
      }
    }
  }

  /** Every successful rewrite has that layout. */
  lemma RewriteLayout(name: string, args: Arguments, decos: seq<Decorator>, body: seq<Node>)
    requires Rewrite(name, args, decos, body).Ok?
    ensures Laid(Rewrite(name, args, decos, body).value, name, args, AppliedOrder(decos), body)
  {
    ChainLinks(name, decos);
    BuiltLaid(name, args, ChainOf(Start(name), decos).value, AppliedOrder(decos), body);
  }

  lemma {:induction false} ChainErrIsAttribute(init: Chain, ds: seq<Decorator>)
    ensures ChainOf(init, ds).Err? ==> ChainOf(init, ds).error == AttributeError
  {
    if ds != [] {
      ChainErrIsAttribute(init, ds[1..]);
    }
  }

  /** A definition whose decorators are all ignored keeps its body. */
  lemma AllIgnoredKeepsBody(name: string, args: Arguments, decos: seq<Decorator>, body: seq<Node>)
    requires forall i :: 0 <= i < |decos| ==> Ignored(decos[i])
    ensures Rewrite(name, args, decos, body) == Ok(FunctionDef(name, args, [], body))
  {
    RewriteOkIff(name, args, decos, body);
    RewriteLayout(name, args, decos, body);
    if AppliedOrder(decos) != [] {
      var d := AppliedOrder(decos)[0];
      AppliedOrderMembers(decos, d);
    }
  }

  /** After the transformation no definition keeps a decorator, and the
      number of statements in a list is unchanged. */
  lemma {:induction false} TransformedUndecorated(n: Node)
    requires Transformed(n).Ok?
    ensures Undecorated(Transformed(n).value)
    decreases n, 1
  {
    match n
    case FunctionDef(name, args, decos, body) =>
      TransformedAllUndecorated(body);
      var b := TransformedAll(body).value;
      RewriteLayout(name, args, decos, b);
      var m := Transformed(n).value;
      if AppliedOrder(decos) != [] {
        assert Undecorated(m.body[0]);
        forall k | 0 <= k < |m.body|
          ensures Undecorated(m.body[k])
        {
        }
      }
    case Block(kind, children) =>
      TransformedAllUndecorated(children);
    case _ =>
  }

  lemma {:induction false} TransformedAllUndecorated(ns: seq<Node>)
    requires TransformedAll(ns).Ok?
    ensures |TransformedAll(ns).value| == |ns|
    ensures forall k :: 0 <= k < |ns| ==> Undecorated(TransformedAll(ns).value[k])
    decreases ns, 0
  {
    if ns != [] {
      TransformedAllUndecorated(ns[..|ns| - 1]);
      TransformedUndecorated(ns[|ns| - 1]);
    }
  }

  /** A tree without decorators is left exactly as it is. */
  lemma {:induction false} UndecoratedFixed(n: Node)
    requires Undecorated(n)
    ensures Transformed(n) == Ok(n)
    decreases n, 1
  {
    match n
    case FunctionDef(name, args, decos, body) =>
      UndecoratedAllFixed(body);
      assert ChainOf(Start(name), decos) == Ok(Start(name));
    case Block(kind, children) =>
      UndecoratedAllFixed(children);
    case _ =>
  }

  lemma {:induction false} UndecoratedAllFixed(ns: seq<Node>)
    requires forall k :: 0 <= k < |ns| ==> Undecorated(ns[k])
    ensures TransformedAll(ns) == Ok(ns)
    decreases ns, 0
  {
    if ns != [] {
      UndecoratedAllFixed(ns[..|ns| - 1]);
      UndecoratedFixed(ns[|ns| - 1]);
      assert ns[..|ns| - 1] + [ns[|ns| - 1]] == ns;
    }
  }

  /** Transforming a transformed tree changes nothing. */
  lemma TransformIdempotent(n: Node)
    requires Transformed(n).Ok?
    ensures Transformed(Transformed(n).value) == Transformed(n)
  {
    TransformedUndecorated(n);
    UndecoratedFixed(Transformed(n).value);
  }

  // ---------------------------------------------------------------------
  // The visitor

  /** A failed prefix makes the whole list fail the same way. */
  lemma {:induction false} AllErrSticks(ns: seq<Node>, j: nat)
    requires j <= |ns| && TransformedAll(ns[..j]).Err?
    ensures TransformedAll(ns) == TransformedAll(ns[..j])
    decreases |ns|
  {
    if j < |ns| {
      var front := ns[..|ns| - 1];
      assert front[..j] == ns[..j];
      AllErrSticks(front, j);
    } else {
      assert ns[..j] == ns;
    }
  }

  /** `visit`: definitions go to `VisitFunctionDef`; every other statement
      has its children visited. */
  method Visit(n: Node) returns (r: Result<Node>)
    ensures r == Transformed(n)
    decreases n, 2
  {
    match n
    case FunctionDef(_, _, _, _) =>
      r := VisitFunctionDef(n);
    case Block(kind, children) =>
      var cs := VisitAll(children);
      if cs.Err? {
        return Err(cs.error);
      }
      r := Ok(Block(kind, cs.value));
    case _ =>
      r := Ok(n);
  }

  /** `generic_visit` over a list of statements, in order. */
  method VisitAll(ns: seq<Node>) returns (r: Result<seq<Node>>)
    ensures r == TransformedAll(ns)
    decreases ns, 0
  {
    var out: seq<Node> := [];
    var i := 0;
    while i < |ns|
      invariant 0 <= i <= |ns|
      invariant TransformedAll(ns[..i]) == Ok(out)
    {
      var n := Visit(ns[i]);
      assert ns[..i + 1][..i] == ns[..i];
      if n.Err? {
        AllErrSticks(ns, i + 1);
        return Err(n.error);
      }
      out := out + [n.value];
      i := i + 1;
    }
    assert ns[..|ns|] == ns;
    r := Ok(out);
  }

  /** `visit_FunctionDef`: nested statements first, then the decorators in
      reverse, threading the target name through the statements. */
  method VisitFunctionDef(node: Node) returns (r: Result<Node>)
    requires node.FunctionDef?
    ensures r == Transformed(node)
    decreases node, 1
  {
    var body := VisitAll(node.body);
    if body.Err? {
      return Err(body.error);
    }
    var decos := node.decorators;
    var stmts: seq<DecoStmt> := [];
    var target := "_orig_" + node.name;
    var decoed := "";
    var i := |decos|;
    while i > 0
      invariant 0 <= i <= |decos|
      invariant ChainOf(Start(node.name), decos[i..]) == Ok(Chain(stmts, target, decoed))
    {
      i := i - 1;
      var deco := decos[i];
      assert decos[i..][1..] == decos[i + 1..];
      if deco.name.None? {
        ChainErrSticks(Start(node.name), decos, i);
        return Err(AttributeError);
      }
      if deco.name.value in IgnoreNames {
        continue;
      }
      decoed := "_decoedby_" + deco.name.value;
      var stmt := DecoStatement(deco, decoed, target);
      if stmt.Err? {
        ChainErrSticks(Start(node.name), decos, i);
        return Err(stmt.error);
      }
      stmts := stmts + [stmt.value];
      target := decoed;
    }
    assert decos[0..] == decos;
    if stmts == [] {
      return Ok(FunctionDef(node.name, node.args, [], body.value));
    }
    var orig := FunctionDef("_orig_" + node.name, node.args, [], body.value);
    r := Ok(FunctionDef(node.name, node.args, [], [orig] + AsNodes(stmts) + [ReturnCall(decoed, node.args.positional)]));
  }

  /** The transformer holds the tree it rewrites. */
  class DecoratorTransformer {
    var root: Node

    constructor (root: Node)
      ensures this.root == root
    {
      this.root := root;
    }

    /** `transform`: visits the root; the tree afterwards is the transformed
        tree, and a failure leaves the model's root as it was. */
    method Transform() returns (r: Result<()>)
      modifies this
      ensures Transformed(old(root)).Ok? ==> r.Ok? && root == Transformed(old(root)).value
      ensures Transformed(old(root)).Err? ==> r == Err(Transformed(old(root)).error) && root == old(root)
    {
      var t := Visit(root);
      if t.Err? {
        return Err(t.error);
      }
      root := t.value;
      r := Ok(());
    }
  }
}
