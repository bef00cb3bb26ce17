/** A device model (device_model.go): the connections and variables of one
    edge device, and the finishing steps of its JSON decoding, which build
    the expression environment from the variables' caches, check every
    variable key, compile the scripts of computed variables and report all
    problems in one sorted message. The expression compiler is a parameter:
    given a script and the environment it returns a program or its error
    message. */
module DeviceModels {
  import opened Wrappers
  import opened TimeSeries
  import opened Variables
  import opened Text

  type Compiler = (string, map<string, Cache>) -> Result<Program, string>

  const Header: string := "Script errors:\n"

  /** A character of the class \w: an ASCII letter, digit or underscore. */
  predicate IsWordChar(c: char) {
    'a' <= c <= 'z' || 'A' <= c <= 'Z' || '0' <= c <= '9' || c == '_'
  }

  /** The key matches `^\w+$`. */
  predicate IsWordKey(key: string) {
    |key| > 0 && forall i :: 0 <= i < |key| ==> IsWordChar(key[i])
  }

  lemma WordKeyExamples()
    ensures IsWordKey("temperature_1") && IsWordKey("T2")
    ensures !IsWordKey("bad-key") && !IsWordKey("") && !IsWordKey("a b")
  {
    assert "bad-key"[3] == '-';
    assert "a b"[1] == ' ';
  }

  /** A computed variable: no connection, and a script to compile. */
  predicate IsComputed(v: Variable) {
    v.connection == "" && v.script != ""
  }

  /** The problems reported for one map entry, in the order they are
      found: a key that is not a word, a key that differs from the
      variable's own, a script that does not compile. */
  function KeyErrors(key: string, v: Variable, env: map<string, Cache>, compile: Compiler): (errs: seq<string>)
    ensures errs == [] <==>
      IsWordKey(key) && key == v.key && !(IsComputed(v) && compile(v.script, env).Err?)
    ensures |errs| <= 3
  {
    (if !IsWordKey(key) then ["Invalid variable key: " + key] else [])
    + (if key != v.key then ["Variable key mismatch: " + key + " != " + v.key] else [])
    + (if IsComputed(v) && compile(v.script, env).Err? then [key + ": " + compile(v.script, env).error] else [])
  }

  /** The program a variable holds after decoding: the compiled script of
      a computed variable whose script compiles, otherwise what it held
      before. */
  function ProgramAfter(v: Variable, before: Option<Program>, env: map<string, Cache>, compile: Compiler)
    : Option<Program>
  {
    if IsComputed(v) && compile(v.script, env).Ok? then Some(compile(v.script, env).value) else before
  }

  /** The multiset union of f(k) over the keys. */
  ghost function Gather(keys: set<string>, f: string -> multiset<string>): multiset<string>
    decreases keys
  {
    if keys == {} then multiset{}
    else
      var k := Pick(keys);
      Gather(keys - {k}, f) + f(k)
  }

  /** Some element of a non-empty set. */
  ghost function Pick(keys: set<string>): (k: string)
    requires keys != {}
    ensures k in keys
  {
    var k :| k in keys; k
  }

  /** The union does not depend on the order the keys are taken in: any
      key can be taken out first. */
  lemma {:induction false} GatherRemove(keys: set<string>, k: string, f: string -> multiset<string>)
    requires k in keys
    ensures Gather(keys, f) == Gather(keys - {k}, f) + f(k)
    decreases keys
  {
    var j := Pick(keys);
    if j != k {
      GatherRemove(keys - {j}, k, f);
      GatherRemove(keys - {k}, j, f);
      assert keys - {j} - {k} == keys - {k} - {j};
    }
  }

  /** The problems of each key, none for a key not in the map. */
  function Problems(vars: map<string, Variable>, env: map<string, Cache>, compile: Compiler)
    : string -> multiset<string>
  {
    k => if k in vars then multiset(KeyErrors(k, vars[k], env, compile)) else multiset{}
  }

  /** All problems of the entries with the given keys, in no order. */
  ghost function ErrorsOf(keys: set<string>, vars: map<string, Variable>, env: map<string, Cache>, compile: Compiler)
    : multiset<string>
  {
    Gather(keys, Problems(vars, env, compile))
  }

  lemma ErrorsOfRemove(keys: set<string>, k: string, vars: map<string, Variable>,
                       env: map<string, Cache>, compile: Compiler)
    requires k in keys && k in vars
    ensures ErrorsOf(keys, vars, env, compile) ==
      ErrorsOf(keys - {k}, vars, env, compile) + multiset(KeyErrors(k, vars[k], env, compile))
  {
    GatherRemove(keys, k, Problems(vars, env, compile));
  }

  predicate Distinct(ks: seq<string>) {
    forall i, j :: 0 <= i < j < |ks| ==> ks[i] != ks[j]
  }

  /** The problems of the entries visited in the given order, in the order
      they are found. */
  function ErrorsAlong(order: seq<string>, vars: map<string, Variable>, env: map<string, Cache>, compile: Compiler)
    : (errs: seq<string>)
    requires forall k :: k in order ==> k in vars
    ensures |errs| <= 3 * |order|
  {
    if order == [] then []
    else
      var n := |order| - 1;
      ErrorsAlong(order[..n], vars, env, compile) + KeyErrors(order[n], vars[order[n]], env, compile)
  }

  /** Whatever the order the entries are visited in, the problems found are
      those of all the entries. */
  lemma {:induction false} ErrorsAlongAll(order: seq<string>, keys: set<string>, vars: map<string, Variable>,
                                          env: map<string, Cache>, compile: Compiler)
    requires Distinct(order) && keys <= vars.Keys
    requires forall k :: k in order <==> k in keys
    ensures multiset(ErrorsAlong(order, vars, env, compile)) == ErrorsOf(keys, vars, env, compile)
    decreases |order|
  {
    if order != [] {
      var n := |order| - 1;
      var k := order[n];
      DropLast(order, keys);
      ErrorsAlongAll(order[..n], keys - {k}, vars, env, compile);
      ErrorsOfRemove(keys, k, vars, env, compile);
    } else {
      assert keys == {};
    }
  }

  /** Visiting one more entry extends the visit order and its problems. */
  lemma OrderStep(order: seq<string>, k: string, todo: set<string>, vars: map<string, Variable>,
                  env: map<string, Cache>, compile: Compiler)
    requires Distinct(order) && todo <= vars.Keys && k in todo
    requires forall j :: j in order <==> j in vars && j !in todo
    ensures Distinct(order + [k])
    ensures forall j :: j in order + [k] <==> j in vars && j !in todo - {k}
    ensures ErrorsAlong(order + [k], vars, env, compile) ==
      ErrorsAlong(order, vars, env, compile) + KeyErrors(k, vars[k], env, compile)
  {
    assert (order + [k])[..|order|] == order;
  }

  lemma DropLast(order: seq<string>, keys: set<string>)
    requires order != [] && Distinct(order)
    requires forall k :: k in order <==> k in keys
    ensures var n := |order| - 1;
      Distinct(order[..n]) && order[n] in keys &&
      forall k :: k in order[..n] <==> k in keys - {order[n]}
  {
    var n := |order| - 1;
    assert order == order[..n] + [order[n]];
  }

  /** A problem is reported for an entry exactly when it is among the
      entry's own problems. */
  lemma {:induction false} ErrorsOfContains(keys: set<string>, k: string, vars: map<string, Variable>,
                                            env: map<string, Cache>, compile: Compiler)
    requires keys <= vars.Keys && k in keys
    ensures multiset(KeyErrors(k, vars[k], env, compile)) <= ErrorsOf(keys, vars, env, compile)
  {
    ErrorsOfRemove(keys, k, vars, env, compile);
  }

  /** No entry has a problem exactly when no problem is reported. */
  lemma {:induction false} ErrorsOfEmpty(keys: set<string>, vars: map<string, Variable>,
                                         env: map<string, Cache>, compile: Compiler)
    requires keys <= vars.Keys
    ensures ErrorsOf(keys, vars, env, compile) == multiset{} <==>
      forall k :: k in keys ==> KeyErrors(k, vars[k], env, compile) == []
    decreases keys
  {
    if keys != {} {
      var k :| k in keys;
      ErrorsOfRemove(keys, k, vars, env, compile);
      ErrorsOfEmpty(keys - {k}, vars, env, compile);
      if ErrorsOf(keys, vars, env, compile) == multiset{} {
        forall j | j in keys ensures KeyErrors(j, vars[j], env, compile) == [] {
          ErrorsOfContains(keys, j, vars, env, compile);
          assert multiset(KeyErrors(j, vars[j], env, compile)) == multiset{};
        }
      }
    }
  }

  /** The environment scripts compile against: each variable's cache under
      its key, variables without a cache left out. */
  function EnvOf(vars: map<string, Variable>): map<string, Cache>
    reads vars.Values`cache
  {
    map k | k in vars && vars[k].cache != null :: vars[k].cache
  }

  /** Every variable with a cache is in the environment under its own key,
      and nothing else is. */
  lemma EnvOfEntries(vars: map<string, Variable>)
    ensures var env := EnvOf(vars);
      env.Keys <= vars.Keys &&
      (forall k :: k in vars ==> (k in env <==> vars[k].cache != null)) &&
      (forall k :: k in env ==> env[k] == vars[k].cache)
  {
  }

  /** The error message: the header, then the problems sorted and one per
      line. Sorting makes it independent of the order they were found in. */
  function Report(errs: seq<string>): string {
    Header + Join(Sort(errs), "\n")
  }

  /** What decoding returns for the problems found: no error when there
      are none, the report otherwise. */
  function Outcome(errs: seq<string>): Option<string> {
    if errs == [] then None else Some(Report(errs))
  }

  /** The outcome depends only on which problems were found, not on the
      order the map was visited in. */
  lemma {:induction false} OutcomeIgnoresOrder(a: seq<string>, b: seq<string>)
    requires multiset(a) == multiset(b)
    ensures Outcome(a) == Outcome(b)
  {
    SortedUnique(Sort(a), Sort(b));
    if a == [] {
      assert |b| == |multiset(b)| == 0;
    }
  }

  /** Some sequence holding exactly the elements of m. */
  ghost function Listing(m: multiset<string>): (s: seq<string>)
    ensures multiset(s) == m
    decreases |m|
  {
    if m == multiset{} then []
    else
      var x :| x in m;
      [x] + Listing(m - multiset{x})
  }

  /** The outcome for a multiset of problems, however they were listed. */
  ghost function ReportOf(m: multiset<string>): Option<string> {
    Outcome(Listing(m))
  }

  lemma OutcomeIsReportOf(errs: seq<string>)
    ensures Outcome(errs) == ReportOf(multiset(errs))
  {
    OutcomeIgnoresOrder(errs, Listing(multiset(errs)));
  }

  /** Decoding fails exactly when some entry has a problem, and the report
      then has a line for every problem of every entry. */
  lemma DecodeFailsIff(vars: map<string, Variable>, env: map<string, Cache>, compile: Compiler)
    ensures var report := ReportOf(ErrorsOf(vars.Keys, vars, env, compile));
      (report.None? <==> forall k :: k in vars ==> KeyErrors(k, vars[k], env, compile) == []) &&
      (report.Some? ==>
        forall k, e :: k in vars && e in KeyErrors(k, vars[k], env, compile) ==>
          e in Sort(Listing(ErrorsOf(vars.Keys, vars, env, compile))))
  {
    var m := ErrorsOf(vars.Keys, vars, env, compile);
    var errs := Listing(m);
    ErrorsOfEmpty(vars.Keys, vars, env, compile);
    if m == multiset{} {
      assert errs == [] by {
        assert |errs| == |multiset(errs)| == 0;
      }
    }
    forall k, e | k in vars && e in KeyErrors(k, vars[k], env, compile) ensures e in Sort(errs) {
      ErrorsOfContains(vars.Keys, k, vars, env, compile);
      assert e in multiset(KeyErrors(k, vars[k], env, compile));
      assert e in multiset(Sort(errs));
    }
  }

  /** The loop that gathers the environment, one map entry at a time. */
  method BuildEnv(vars: map<string, Variable>) returns (env: map<string, Cache>)
    ensures env == EnvOf(vars)
  {
    env := map[];
    var rest := vars.Keys;
    while rest != {}
      invariant rest <= vars.Keys
      invariant env == map k | k in vars.Keys - rest && vars[k].cache != null :: vars[k].cache
      decreases rest
    {
      var k :| k in rest;
      if vars[k].cache != null {
        env := env[k := vars[k].cache];
      }
      rest := rest - {k};
    }
    assert vars.Keys - rest == vars.Keys;
  }

  /** The checks of one map entry in the order they are made; a script
      that compiles leaves its program on the variable. */
  method CheckEntry(key: string, v: Variable, env: map<string, Cache>, compile: Compiler) returns (found: seq<string>)
    modifies v`program
    ensures found == KeyErrors(key, v, env, compile)
    ensures v.program == ProgramAfter(v, old(v.program), env, compile)
  {
    found := [];
    if !IsWordKey(key) {
      found := found + ["Invalid variable key: " + key];
    }
    if key != v.key {
      found := found + ["Variable key mismatch: " + key + " != " + v.key];
    }
    if v.connection == "" && v.script != "" {
      match compile(v.script, env) {
        case Err(e) => found := found + [key + ": " + e];
        case Ok(p) => v.program := Some(p);
      }
    }
  }

  /** The variables of objs in seen hold the program decoding leaves them,
      the others the one they held before. */
  ghost predicate CompiledSoFar(objs: set<Variable>, seen: set<Variable>, before: map<Variable, Option<Program>>,
                                env: map<string, Cache>, compile: Compiler)
    reads objs`program
  {
    forall v :: v in objs ==>
      v in before && v.program == if v in seen then ProgramAfter(v, before[v], env, compile) else before[v]
  }

  /** One step of the loop: checking an entry again leaves its program as
      it is, since compiling the same script gives the same result. */
  method Visit(key: string, v: Variable, ghost objs: set<Variable>, ghost seen: set<Variable>,
               ghost before: map<Variable, Option<Program>>, env: map<string, Cache>, compile: Compiler)
    returns (found: seq<string>)
    requires v in objs && CompiledSoFar(objs, seen, before, env, compile)
    modifies v`program
    ensures found == KeyErrors(key, v, env, compile)
    ensures CompiledSoFar(objs, seen + {v}, before, env, compile)
  {
    found := CheckEntry(key, v, env, compile);
  }

  /** The loop over the entries: every entry is checked once, in any
      order, and the problems found are gathered. */
  method CheckAll(vars: map<string, Variable>, env: map<string, Cache>, compile: Compiler) returns (errs: seq<string>)
    modifies vars.Values`program
    ensures multiset(errs) == ErrorsOf(vars.Keys, vars, env, compile)
    ensures forall k :: k in vars ==>
      vars[k].program == ProgramAfter(vars[k], old(vars[k].program), env, compile)
  {
    errs := [];
    var todo := vars.Keys;
    ghost var order: seq<string> := [];
    ghost var seen: set<Variable> := {};
    ghost var before := map v | v in vars.Values :: v.program;
    while todo != {}
      invariant todo <= vars.Keys && Distinct(order)
      invariant forall k :: k in order <==> k in vars && k !in todo
      invariant errs == ErrorsAlong(order, vars, env, compile)
      invariant forall k :: k in order ==> vars[k] in seen
      invariant CompiledSoFar(vars.Values, seen, before, env, compile)
      decreases todo
    {
      var k :| k in todo;
      var v := vars[k];
      var found := Visit(k, v, vars.Values, seen, before, env, compile);
      OrderStep(order, k, todo, vars, env, compile);
      errs := errs + found;
      order := order + [k];
      seen := seen + {v};
      todo := todo - {k};
    }
    ErrorsAlongAll(order, vars.Keys, vars, env, compile);
    forall k | k in vars
      ensures vars[k].program == ProgramAfter(vars[k], old(vars[k].program), env, compile)
    {
      assert vars[k] in vars.Values;
    }
  }

  /** The variable checks of decoding: the environment is gathered, every
      entry is checked and compiled, and the problems found are reported
      together. */
  method CompileAll(vars: map<string, Variable>, compile: Compiler) returns (err: Option<string>)
    modifies vars.Values`program
    ensures err == ReportOf(ErrorsOf(vars.Keys, vars, old(EnvOf(vars)), compile))
    ensures forall k :: k in vars ==>
      vars[k].program == ProgramAfter(vars[k], old(vars[k].program), old(EnvOf(vars)), compile)
  {
    var env := BuildEnv(vars);
    var errs := CheckAll(vars, env, compile);
    err := Outcome(errs);
    OutcomeIsReportOf(errs);
  }

  class DeviceModel {
    /** Connection name to connection type; None is a nil map. */
    var connections: Option<map<string, string>>
    /** Variable key to variable; None is a nil map. */
    var variables: Option<map<string, Variable>>

    /** The maps as json.Unmarshal decodes them. */
    constructor (connections: Option<map<string, string>>, variables: Option<map<string, Variable>>)
      ensures this.connections == connections && this.variables == variables
    {
      this.connections := connections;
      this.variables := variables;
    }

    ghost function Objects(): set<Variable>
      reads this
    {
      if variables.Some? then variables.value.Values else {}
    }

    /** The finishing steps of UnmarshalJSON: nil maps become empty, scripts
        of computed variables are compiled against the environment, and the
        problems of all entries are reported together, sorted. A program is
        stored for every script that compiles, whether or not other entries
        have problems. */
    method FinishDecode(compile: Compiler) returns (err: Option<string>)
      modifies this`connections, this`variables, Objects()`program
      ensures connections == Some(old(connections).GetOr(map[]))
      ensures variables == Some(old(variables).GetOr(map[]))
      ensures var vars := variables.value;
        err == ReportOf(ErrorsOf(vars.Keys, vars, old(EnvOf(vars)), compile))
      ensures var vars := variables.value;
        forall k :: k in vars ==>
          vars[k].program == ProgramAfter(vars[k], old(vars[k].program), old(EnvOf(vars)), compile)
    {
      var vars := variables.GetOr(map[]);
      err := CompileAll(vars, compile);
      connections := Some(connections.GetOr(map[]));
      variables := Some(vars);
    }
  }
}
