/**
 * Console commands: every `Command` owns a set of aliases, and one global
 * alias table (`COMMANDS`) says which command each alias names. A command
 * also holds its parameter resolvers (required or optional) and an action.
 */
module Commands {
  import opened Wrappers
  import opened JavaLang
  import opened Sequences

  /** A parameter resolver, seen through what the command asks of it: its text and whether it is optional. */
  datatype Resolver = Resolver(text: string, optional: bool)

  /** A command action; `EmptyAction` is `Action.EMPTY_ACTION`. */
  datatype Action = EmptyAction | Handler(id: nat)

  /** The two `IllegalArgumentException`s of `addAlias`. */
  datatype AliasError = NullAlias | EmptyAlias

  /** `toString()` on a command with no alias left fails in `iterator().next()`. */
  datatype NoSuchElement = NoSuchElement

  /** The calls `execute` makes into resolvers and the action. */
  datatype Call = Resolve(resolver: nat, arg: string) | RunAction(action: Action, args: seq<string>)

  // ---------------------------------------------------------------------
  // Pure descriptions of the resolver list.

  /** The number of resolvers that are not optional. */
  function CountRequired(rs: seq<Resolver>): (n: nat) {
    if rs == [] then 0 else CountRequired(rs[..|rs| - 1]) + (if rs[|rs| - 1].optional then 0 else 1)
  }

  lemma {:induction false} CountRequiredBounds(rs: seq<Resolver>)
    ensures CountRequired(rs) <= |rs|
    ensures CountRequired(rs) == |rs| <==> forall i :: 0 <= i < |rs| ==> !rs[i].optional
    ensures CountRequired(rs) == 0 <==> forall i :: 0 <= i < |rs| ==> rs[i].optional
  {
    if rs != [] {
      CountRequiredBounds(rs[..|rs| - 1]);
    }
  }

  /** `"[p] "` for an optional resolver, `"<p> "` for a required one. */
  function Bracketed(r: Resolver): (s: string)
    ensures |s| == |r.text| + 3 && s[|s| - 1] == ' '
    ensures s[0] == (if r.optional then '[' else '<')
    ensures s[|s| - 2] == (if r.optional then ']' else '>')
  {
    if r.optional then "[" + r.text + "] " else "<" + r.text + "> "
  }

  /** What the `StringBuilder` of `getParametersHint` holds after the loop. */
  function HintText(rs: seq<Resolver>): (text: string) {
    if rs == [] then "" else HintText(rs[..|rs| - 1]) + Bracketed(rs[|rs| - 1])
  }

  lemma {:induction false} HintTextShape(rs: seq<Resolver>)
    requires rs != []
    ensures |HintText(rs)| >= 3
    ensures HintText(rs)[0] == (if rs[0].optional then '[' else '<')
    ensures HintText(rs)[|HintText(rs)| - 1] == ' '
    ensures HintText(rs)[|HintText(rs)| - 2] == (if rs[|rs| - 1].optional then ']' else '>')
  {
    var init := rs[..|rs| - 1];
    if init != [] {
      HintTextShape(init);
      assert init[0] == rs[0];
    }
  }

  /** The hint drops exactly the blank after the last bracket, and is empty without resolvers. */
  lemma ParametersHintDropsTrailingBlank(rs: seq<Resolver>)
    ensures rs == [] ==> Trim(HintText(rs)) == ""
    ensures rs != [] ==> Trim(HintText(rs)) == HintText(rs)[..|HintText(rs)| - 1]
  {
    if rs != [] {
      HintTextShape(rs);
      TrimDropsOneTrailingBlank(HintText(rs));
    }
  }

  /** `execute` reaches the action when every `args[i]`, i = 1..n, exists. */
  predicate ArgumentsSuffice(n: nat, args: seq<string>) {
    n == 0 || n < |args|
  }

  /** The calls `execute` makes: resolver `i - 1` on `args[i]` for i = 1..n while `args[i]` exists, then the action if it was reached. */
  function ExecutionCalls(action: Action, n: nat, args: seq<string>): (calls: seq<Call>) {
    var m := if ArgumentsSuffice(n, args) then n else if |args| == 0 then 0 else |args| - 1;
    seq(m, k requires 0 <= k < m => Resolve(k, args[k + 1]))
      + (if ArgumentsSuffice(n, args) then [RunAction(action, args)] else [])
  }

  /** The resolver calls come in order, each on the argument after its index, and the action runs last exactly when the arguments suffice. */
  lemma ExecutionCallsShape(action: Action, n: nat, args: seq<string>)
    ensures ArgumentsSuffice(n, args) ==>
      |ExecutionCalls(action, n, args)| == n + 1 && ExecutionCalls(action, n, args)[n] == RunAction(action, args)
    ensures !ArgumentsSuffice(n, args) ==>
      |ExecutionCalls(action, n, args)| == (if |args| == 0 then 0 else |args| - 1)
      && forall k :: 0 <= k < |ExecutionCalls(action, n, args)| ==> ExecutionCalls(action, n, args)[k].Resolve?
    ensures forall k :: 0 <= k < |ExecutionCalls(action, n, args)| && ExecutionCalls(action, n, args)[k].Resolve? ==>
      ExecutionCalls(action, n, args)[k] == Resolve(k, args[k + 1])
  {
  }

  /** The text of `toString()`; `None` where `iterator().next()` throws. */
  function Describe(aliases: seq<string>, rs: seq<Resolver>): (text: Option<string>) {
    if aliases == [] then None
    else if CountRequired(rs) == 0 then Some(aliases[0])
    else Some(aliases[0] + " " + Trim(HintText(rs)))
  }

  /** With no required parameter the text is the first alias alone, optional resolvers or not; otherwise the alias, a blank and the hint. */
  lemma DescribeStartsWithFirstAlias(aliases: seq<string>, rs: seq<Resolver>)
    ensures Describe(aliases, rs).None? <==> aliases == []
    ensures aliases != [] && (forall i :: 0 <= i < |rs| ==> rs[i].optional) ==> Describe(aliases, rs) == Some(aliases[0])
    ensures aliases != [] && (exists i :: 0 <= i < |rs| && !rs[i].optional) ==>
      Describe(aliases, rs) == Some(aliases[0] + " " + HintText(rs)[..|HintText(rs)| - 1])
  {
    CountRequiredBounds(rs);
    ParametersHintDropsTrailingBlank(rs);
  }

  /** `s` with every occurrence of `a` removed (a `Set.remove` on an ordered set). */
  function Without(s: seq<string>, a: string): (r: seq<string>)
    ensures forall b :: b in r <==> b in s && b != a
    ensures a !in s ==> r == s
    ensures Distinct(s) ==> Distinct(r)
  {
    if s == [] then []
    else if s[0] == a then Without(s[1..], a)
    else
      var t := Without(s[1..], a);
      assert Distinct(s) ==> s[0] !in s[1..];
      assert forall i :: 0 <= i < |t| ==> ([s[0]] + t)[i + 1] == t[i];
      [s[0]] + t
  }

  /**
   * The alias table and every command's alias set agree: an alias is in
   * exactly the alias set of the command the table maps it to, and no alias
   * set repeats an alias.
   */
  ghost predicate Consistent<C>(commands: map<string, C>, owned: map<C, seq<string>>) {
    && (forall a :: a in commands ==> commands[a] in owned && a in owned[commands[a]])
    && (forall c, a :: c in owned && a in owned[c] ==> a in commands && commands[a] == c)
    && (forall c :: c in owned ==> Distinct(owned[c]))
  }

  /** The alias sets after `me.addAlias(a)`: `a` leaves its previous owner's set and is appended to `me`'s. */
  ghost function MoveAlias<C>(commands: map<string, C>, owned: map<C, seq<string>>, a: string, me: C): map<C, seq<string>> {
    var o1 := if me in owned then owned else owned[me := []];
    var o2 := if a in commands && commands[a] in o1 then o1[commands[a] := Without(o1[commands[a]], a)] else o1;
    o2[me := o2[me] + [a]]
  }

  /** What `MoveAlias` gives each command: `me` ends with `a` last, the previous owner loses `a`, the rest keep their sets. */
  lemma MoveAliasAt<C>(commands: map<string, C>, owned: map<C, seq<string>>, a: string, me: C, c: C)
    requires Consistent(commands, owned)
    requires c in owned || c == me
    ensures c in MoveAlias(commands, owned, a, me)
    ensures c == me ==>
      MoveAlias(commands, owned, a, me)[c] == Without(if me in owned then owned[me] else [], a) + [a]
    ensures c != me ==>
      MoveAlias(commands, owned, a, me)[c] == if a in commands && commands[a] == c then Without(owned[c], a) else owned[c]
    ensures a in MoveAlias(commands, owned, a, me)[c] <==> c == me
  {
  }

  /** After the move every table entry still points at a command whose set holds the alias. */
  lemma MoveAliasKeepsEntries<C>(commands: map<string, C>, owned: map<C, seq<string>>, a: string, me: C)
    requires Consistent(commands, owned)
    ensures var cm, o := commands[a := me], MoveAlias(commands, owned, a, me);
      forall b :: b in cm ==> cm[b] in o && b in o[cm[b]]
  {
    var cm, o := commands[a := me], MoveAlias(commands, owned, a, me);
    forall b | b in cm
      ensures cm[b] in o && b in o[cm[b]]
    {
      MoveAliasAt(commands, owned, a, me, cm[b]);
    }
  }

  /** After the move every alias in a command's set is mapped to that command. */
  lemma MoveAliasKeepsOwners<C>(commands: map<string, C>, owned: map<C, seq<string>>, a: string, me: C)
    requires Consistent(commands, owned)
    ensures var cm, o := commands[a := me], MoveAlias(commands, owned, a, me);
      forall c, b :: c in o && b in o[c] ==> b in cm && cm[b] == c
  {
    var cm, o := commands[a := me], MoveAlias(commands, owned, a, me);
    forall c, b | c in o && b in o[c]
      ensures b in cm && cm[b] == c
    {
      assert c in owned || c == me;
      MoveAliasAt(commands, owned, a, me, c);
    }
  }

  /** After the move no alias set repeats an alias. */
  lemma MoveAliasKeepsDistinct<C>(commands: map<string, C>, owned: map<C, seq<string>>, a: string, me: C)
    requires Consistent(commands, owned)
    ensures var o := MoveAlias(commands, owned, a, me);
      forall c :: c in o ==> Distinct(o[c])
  {
    var o := MoveAlias(commands, owned, a, me);
    forall c | c in o
      ensures Distinct(o[c])
    {
      assert c in owned || c == me;
      MoveAliasAt(commands, owned, a, me, c);
      if c == me {
        var s := Without(if me in owned then owned[me] else [], a);
        assert Distinct(s) && a !in s;
        assert forall i :: 0 <= i < |s| ==> (s + [a])[i] == s[i];
      }
    }
  }

  /** `addAlias` keeps the table and the alias sets consistent. */
  lemma MoveAliasKeepsConsistent<C>(commands: map<string, C>, owned: map<C, seq<string>>, a: string, me: C)
    requires Consistent(commands, owned)
    ensures Consistent(commands[a := me], MoveAlias(commands, owned, a, me))
  {
    MoveAliasKeepsEntries(commands, owned, a, me);
    MoveAliasKeepsOwners(commands, owned, a, me);
    MoveAliasKeepsDistinct(commands, owned, a, me);
  }

  // ---------------------------------------------------------------------

  /** The static alias table `Command.COMMANDS`, with the alias set of every command it has seen. */
  class Registry {
    var commands: map<string, Command>
    /** The alias sets of the commands registered so far, mirrored from their `aliases` fields. */
    ghost var owned: map<Command, seq<string>>

    ghost predicate Valid()
      reads this, owned.Keys
    {
      && Consistent(commands, owned)
      && forall c :: c in owned ==> c.aliases == owned[c]
    }

    constructor ()
      ensures Valid() && commands == map[] && owned == map[]
    {
      commands := map[];
      owned := map[];
    }

    /** `Command.get(alias)`. */
    function Get(alias: string): (r: Option<Command>)
      reads this
      ensures r.Some? <==> alias in commands
      ensures r.Some? ==> r.value == commands[alias]
    {
      if alias in commands then Some(commands[alias]) else None
    }

    /** `Command.search(prefix)`, without the trie's key order. */
    function Search(prefix: string): (r: map<string, Command>)
      reads this
      ensures forall a :: a in r <==> a in commands && prefix <= a
      ensures forall a :: a in r ==> r[a] == commands[a]
    {
      map a | a in commands && prefix <= a :: commands[a]
    }

    /** `c.isAlias(a)` holds exactly when the table maps `a` to `c`. */
    lemma IsAliasIffOwner(c: Command, a: string)
      requires Valid() && c in owned
      ensures c.IsAlias(a) <==> Get(a) == Some(c)
    {
    }
  }

  class Command {
    var aliases: seq<string>
    const resolvers: seq<Resolver>
    const action: Action

    /** The field set-up of `new Command(alias, action, resolvers...)`; a null action becomes `EMPTY_ACTION`. */
    constructor Init(action: Option<Action>, resolvers: seq<Resolver>)
      ensures aliases == [] && this.resolvers == resolvers
      ensures this.action == if action.Some? then action.value else EmptyAction
    {
      aliases := [];
      this.resolvers := resolvers;
      this.action := if action.Some? then action.value else EmptyAction;
    }

    /** `addAlias(alias)`: takes the alias away from its previous owner and gives it to this command. */
    method AddAlias(reg: Registry, alias: Option<string>) returns (r: Outcome<AliasError>)
      requires reg.Valid()
      requires this in reg.owned || aliases == []
      modifies this, reg, reg.owned.Keys
      ensures reg.Valid()
      ensures alias == None ==> r == Fail(NullAlias)
      ensures alias == Some("") ==> r == Fail(EmptyAlias)
      ensures r.Pass? <==> alias.Some? && alias.value != ""
      ensures r.Fail? ==> reg.commands == old(reg.commands) && reg.owned == old(reg.owned) && aliases == old(aliases)
      ensures r.Pass? ==>
        && reg.commands == old(reg.commands)[alias.value := this]
        && reg.owned == MoveAlias(old(reg.commands), old(reg.owned), alias.value, this)
        && aliases == Without(old(aliases), alias.value) + [alias.value]
    {
      if alias.None? {
        return Fail(NullAlias);
      }
      var a := alias.value;
      if a == "" {
        return Fail(EmptyAlias);
      }
      ghost var commands0, owned0 := reg.commands, reg.owned;
      ghost var target := MoveAlias(commands0, owned0, a, this);
      MoveAliasKeepsConsistent(commands0, owned0, a, this);
      if a in reg.commands {
        var prev := reg.commands[a];
        prev.aliases := Without(prev.aliases, a);
      }
      reg.commands := reg.commands[a := this];
      if a !in aliases {
        aliases := aliases + [a];
      }
      reg.owned := target;
      forall c | c in target
        ensures c.aliases == target[c]
      {
        MoveAliasAt(commands0, owned0, a, this, c);
      }
      r := Pass;
    }

    /** `isAlias(alias)`. */
    predicate IsAlias(alias: string)
      reads this
    {
      alias in aliases
    }

    /** `getNumRequiredParameters()`. */
    method NumRequiredParameters() returns (n: nat)
      ensures n == CountRequired(resolvers)
    {
      n := 0;
      var i := 0;
      while i < |resolvers|
        invariant 0 <= i <= |resolvers|
        invariant n == CountRequired(resolvers[..i])
      {
        assert resolvers[..i + 1][..i] == resolvers[..i];
        if !resolvers[i].optional {
          n := n + 1;
        }
        i := i + 1;
      }
      assert resolvers[..i] == resolvers;
    }

    /** `getParametersHint()`. */
    method ParametersHint() returns (h: string)
      ensures h == Trim(HintText(resolvers))
    {
      var sb := "";
      var i := 0;
      while i < |resolvers|
        invariant 0 <= i <= |resolvers|
        invariant sb == HintText(resolvers[..i])
      {
        assert resolvers[..i + 1][..i] == resolvers[..i];
        var pr := resolvers[i];
        var piece := if pr.optional then "[" + pr.text + "] " else "<" + pr.text + "> ";
        sb := sb + piece;
        i := i + 1;
      }
      assert resolvers[..i] == resolvers;
      h := Trim(sb);
    }

    /** `execute(client, args)`: `ok` is false where `args[i]` is out of bounds. */
    method Execute(args: seq<string>) returns (calls: seq<Call>, ok: bool)
      ensures ok <==> ArgumentsSuffice(CountRequired(resolvers), args)
      ensures calls == ExecutionCalls(action, CountRequired(resolvers), args)
    {
      var n := NumRequiredParameters();
      calls := [];
      var i := 1;
      while i <= n
        invariant 1 <= i <= n + 1
        invariant i == 1 || i <= |args|
        invariant calls == seq(i - 1, k requires 0 <= k < i - 1 => Resolve(k, args[k + 1]))
      {
        if i >= |args| {
          return calls, false;
        }
        calls := calls + [Resolve(i - 1, args[i])];
        i := i + 1;
      }
      calls := calls + [RunAction(action, args)];
      ok := true;
    }

    /** `toString()`. */
    method ToString() returns (r: Result<string, NoSuchElement>)
      ensures r.Success? <==> aliases != []
      ensures r.Success? ==> Describe(aliases, resolvers) == Some(r.value)
    {
      if aliases == [] {
        return Failure(NoSuchElement);
      }
      var n := NumRequiredParameters();
      if n == 0 {
        return Success(aliases[0]);
      }
      var hint := ParametersHint();
      r := Success(aliases[0] + " " + hint);
    }
  }

  /** `new Command(alias, action, resolvers...)`: registration fails, leaving the table alone, on a null or empty alias. */
  method NewCommand(reg: Registry, alias: Option<string>, action: Option<Action>, resolvers: seq<Resolver>)
    returns (r: Result<Command, AliasError>)
    requires reg.Valid()
    modifies reg, reg.owned.Keys
    ensures reg.Valid()
    ensures r.Failure? <==> alias.None? || alias.value == ""
    ensures r.Failure? ==> reg.commands == old(reg.commands) && reg.owned == old(reg.owned)
    ensures r.Failure? ==> forall p :: p in old(reg.owned) ==> p.aliases == old(p.aliases)
    ensures r.Success? ==>
      && fresh(r.value)
      && reg.commands == old(reg.commands)[alias.value := r.value]
      && reg.owned == MoveAlias(old(reg.commands), old(reg.owned), alias.value, r.value)
      && r.value.aliases == [alias.value]
      && r.value.resolvers == resolvers
      && r.value.action == (if action.Some? then action.value else EmptyAction)
    ensures r.Success? ==> forall p :: p in old(reg.owned) ==> alias.value !in p.aliases
  {
    var c := new Command.Init(action, resolvers);
    var o := c.AddAlias(reg, alias);
    if o.Fail? {
      return Failure(o.error);
    }
    r := Success(c);
    forall p | p in old(reg.owned)
      ensures alias.value !in p.aliases
    {
      MoveAliasAt(old(reg.commands), old(reg.owned), alias.value, c, p);
    }
  }
}
