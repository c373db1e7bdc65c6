/**
 Environment and arguments of a child: `KEY=VALUE` pairs on the command line
 (src/config.rs) and the lists handed to `execve` (src/core/platform/linux.rs).
 */
module Environment {
  import opened Wrappers

  type Pair = (string, string)
  type Env = map<string, string>

  // ----- one pair -----

  function Find(s: string, c: char): Option<nat> {
    if s == [] then None
    else if s[0] == c then Some(0)
    else var rest := Find(s[1..], c); if rest.Some? then Some(rest.value + 1) else None
  }

  lemma {:induction false} FindIsFirst(s: string, c: char)
    ensures Find(s, c).None? <==> c !in s
    ensures Find(s, c).Some? ==> var p := Find(s, c).value; p < |s| && s[p] == c && c !in s[..p]
  {
    if s != [] && s[0] != c {
      FindIsFirst(s[1..], c);
      assert s == [s[0]] + s[1..];
      if Find(s[1..], c).Some? {
        var p := Find(s[1..], c).value;
        assert s[..p + 1] == [s[0]] + s[1..][..p];
      }
    }
  }

  /** `parse_kv_pair`: split at the first equals sign. */
  function ParseKv(s: string): Option<Pair> {
    var p := Find(s, '=');
    if p.Some? then
      FindIsFirst(s, '=');
      Some((s[..p.value], s[p.value + 1..]))
    else None
  }

  function PrintKv(k: string, v: string): string {
    k + "=" + v
  }

  /** Parsing succeeds iff there is an equals sign, and printing the result gives the text back. */
  lemma PrintOfParse(s: string)
    ensures ParseKv(s).Some? <==> '=' in s
    ensures ParseKv(s).Some? ==> var (k, v) := ParseKv(s).value; PrintKv(k, v) == s && '=' !in k
  {
    FindIsFirst(s, '=');
    if ParseKv(s).Some? {
      var p := Find(s, '=').value;
      assert s == s[..p] + [s[p]] + s[p + 1..];
    }
  }

  /** A printed pair is read back as itself exactly if its key has no equals sign. */
  lemma ParseOfPrint(k: string, v: string)
    ensures ParseKv(PrintKv(k, v)) == Some((k, v)) <==> '=' !in k
    ensures ParseKv(PrintKv(k, v)).Some?
  {
    var s := PrintKv(k, v);
    assert s[|k|] == '=';
    PrintOfParse(s);
    FindIsFirst(s, '=');
    var p := Find(s, '=').value;
    forall i | 0 <= i < p ensures s[i] != '=' {
      assert s[..p][i] == s[i];
    }
    if p < |k| {
      assert k[p] == s[p];
    } else {
      assert s[..p] == k && s[p + 1..] == v;
    }
  }

  // ----- many pairs -----

  /** Pairs collected into a map: a later pair replaces an earlier one of the same key. */
  function Collect(pairs: seq<Pair>): Env {
    if pairs == [] then map[]
    else var n := |pairs| - 1; Collect(pairs[..n])[pairs[n].0 := pairs[n].1]
  }

  predicate LastOf(pairs: seq<Pair>, j: nat) {
    j < |pairs| && forall i | j < i < |pairs| :: pairs[i].0 != pairs[j].0
  }

  ghost predicate Given(pairs: seq<Pair>, k: string) {
    exists j :: 0 <= j < |pairs| && pairs[j].0 == k
  }

  lemma GivenNext(pairs: seq<Pair>, k: string)
    requires pairs != []
    ensures var n := |pairs| - 1; Given(pairs, k) <==> Given(pairs[..n], k) || pairs[n].0 == k
  {
    var n := |pairs| - 1;
    if j :| 0 <= j < n && pairs[j].0 == k {
      assert pairs[..n][j].0 == k;
    }
    if Given(pairs[..n], k) {
      var j :| 0 <= j < n && pairs[..n][j].0 == k;
      assert pairs[j].0 == k;
    }
  }

  lemma {:induction false} CollectHasTheGiven(pairs: seq<Pair>, k: string)
    ensures k in Collect(pairs) <==> Given(pairs, k)
  {
    if pairs != [] {
      CollectHasTheGiven(pairs[..|pairs| - 1], k);
      GivenNext(pairs, k);
    }
  }

  lemma {:induction false} CollectHasTheLast(pairs: seq<Pair>, j: nat)
    requires LastOf(pairs, j)
    ensures pairs[j].0 in Collect(pairs) && Collect(pairs)[pairs[j].0] == pairs[j].1
  {
    var n := |pairs| - 1;
    if j < n {
      CollectHasTheLast(pairs[..n], j);
      assert pairs[n].0 != pairs[j].0;
    }
  }

  /** The map holds, for every key given at all, the value given last. */
  lemma {:induction false} LastPairWins(pairs: seq<Pair>, k: string, j: nat)
    ensures k in Collect(pairs) <==> Given(pairs, k)
    ensures LastOf(pairs, j) ==> pairs[j].0 in Collect(pairs) && Collect(pairs)[pairs[j].0] == pairs[j].1
  {
    CollectHasTheGiven(pairs, k);
    if LastOf(pairs, j) {
      CollectHasTheLast(pairs, j);
    }
  }

  /** All pairs or none: one malformed pair refuses the whole list. */
  function ParseAll(texts: seq<string>): Option<seq<Pair>> {
    if texts == [] then Some([])
    else
      var n := |texts| - 1;
      var front, last := ParseAll(texts[..n]), ParseKv(texts[n]);
      if front.Some? && last.Some? then Some(front.value + [last.value]) else None
  }

  function ParseEnv(texts: seq<string>): Option<Env> {
    var pairs := ParseAll(texts);
    if pairs.Some? then Some(Collect(pairs.value)) else None
  }

  lemma {:induction false} ParseAllNext(texts: seq<string>, text: string)
    ensures ParseAll(texts + [text]) ==
            if ParseAll(texts).Some? && ParseKv(text).Some? then Some(ParseAll(texts).value + [ParseKv(text).value])
            else None
  {
    assert (texts + [text])[..|texts|] == texts;
  }

  /** The list is accepted exactly if every text has an equals sign. */
  lemma {:induction false} AcceptedIffAllHaveEqualsSigns(texts: seq<string>)
    ensures ParseEnv(texts).Some? <==> forall t :: t in texts ==> '=' in t
  {
    if texts != [] {
      var n := |texts| - 1;
      AcceptedIffAllHaveEqualsSigns(texts[..n]);
      PrintOfParse(texts[n]);
      assert texts == texts[..n] + [texts[n]];
    }
  }

  /** Of the texts given, one more `KEY=VALUE` sets its key, whatever was set before; so the last of each key wins. */
  lemma LastTextWins(texts: seq<string>, k: string, v: string)
    requires ParseEnv(texts).Some? && '=' !in k
    ensures ParseEnv([]) == Some(map[])
    ensures ParseEnv(texts + [k + "=" + v]) == Some(ParseEnv(texts).value[k := v])
  {
    var pairs := ParseAll(texts).value;
    ParseOfPrint(k, v);
    ParseAllNext(texts, PrintKv(k, v));
    assert (pairs + [(k, v)])[..|pairs|] == pairs;
  }

  predicate PlainKeys(env: Env) {
    forall k | k in env :: '=' !in k
  }

  lemma {:induction false} ParsedKeysArePlain(texts: seq<string>)
    ensures ParseEnv(texts).Some? ==> PlainKeys(ParseEnv(texts).value)
  {
    if texts != [] && ParseAll(texts).Some? {
      var n := |texts| - 1;
      ParsedKeysArePlain(texts[..n]);
      PrintOfParse(texts[n]);
      var front := ParseAll(texts[..n]).value;
      assert ParseAll(texts).value[..n] == front by { ParseAllLength(texts[..n]); }
      ParseAllLength(texts);
    }
  }

  lemma {:induction false} ParseAllLength(texts: seq<string>)
    ensures ParseAll(texts).Some? ==> |ParseAll(texts).value| == |texts|
  {
    if texts != [] {
      ParseAllLength(texts[..|texts| - 1]);
    }
  }

  // ----- the environment of a child -----

  /** An order in which a map's entries may be visited. */
  ghost predicate IsOrderOf(keys: seq<string>, env: Env) {
    && (forall k :: k in keys <==> k in env)
    && forall i, j | 0 <= i < j < |keys| :: keys[i] != keys[j]
  }

  function Printed(keys: seq<string>, env: Env): seq<string>
    requires forall k | k in keys :: k in env
  {
    seq(|keys|, i requires 0 <= i < |keys| => PrintKv(keys[i], env[keys[i]]))
  }

  ghost predicate IsPrintOf(list: seq<string>, env: Env) {
    exists keys :: IsOrderOf(keys, env) && list == Printed(keys, env)
  }

  /** The configured variables inserted over the inherited ones. */
  method Merge(inherited: Env, configured: Env) returns (final: Env)
    ensures final == inherited + configured
  {
    final := inherited;
    var todo := configured.Keys;
    while todo != {}
      invariant todo <= configured.Keys
      invariant final == inherited + (configured - todo)
      decreases todo
    {
      var k :| k in todo;
      final := final[k := configured[k]];
      todo := todo - {k};
    }
    assert configured - {} == configured;
  }

  /** The list of `KEY=VALUE` texts, in any order; `None` is the panic on an interior NUL. */
  method PrintEnv(env: Env) returns (envp: Option<seq<string>>)
    ensures envp.None? <==> exists k :: k in env && ('\0' in k || '\0' in env[k])
    ensures envp.Some? ==> IsPrintOf(envp.value, env)
  {
    var list: seq<string>, keys: seq<string>, todo := [], [], env.Keys;
    while todo != {}
      invariant todo <= env.Keys
      invariant forall k :: k in keys <==> k in env && k !in todo
      invariant forall i, j | 0 <= i < j < |keys| :: keys[i] != keys[j]
      invariant (forall k | k in keys :: k in env) && list == Printed(keys, env)
      invariant forall k | k in keys :: '\0' !in k && '\0' !in env[k]
      decreases todo
    {
      var k :| k in todo;
      if '\0' in PrintKv(k, env[k]) {
        assert '\0' in k || '\0' in env[k];
        return None;
      }
      assert forall c | c in k || c in env[k] :: c in PrintKv(k, env[k]);
      list, keys, todo := list + [PrintKv(k, env[k])], keys + [k], todo - {k};
    }
    assert IsOrderOf(keys, env);
    return Some(list);
  }

  method BuildEnvp(inherited: Env, configured: Env) returns (envp: Option<seq<string>>)
    ensures envp.None? <==>
            exists k :: k in inherited + configured && ('\0' in k || '\0' in (inherited + configured)[k])
    ensures envp.Some? ==> IsPrintOf(envp.value, inherited + configured)
  {
    var final := Merge(inherited, configured);
    envp := PrintEnv(final);
  }

  /** The command itself, then its arguments; `None` is the panic on an interior NUL. */
  method BuildArgv(command: string, args: seq<string>) returns (argv: Option<seq<string>>)
    ensures argv.None? <==> exists k :: 0 <= k < |[command] + args| && '\0' in ([command] + args)[k]
    ensures argv.Some? ==> argv.value == [command] + args
  {
    if '\0' in command {
      assert '\0' in ([command] + args)[0];
      return None;
    }
    var list := [command];
    for k := 0 to |args|
      invariant list == [command] + args[..k]
      invariant forall i | 0 <= i <= k :: '\0' !in ([command] + args)[i]
    {
      if '\0' in args[k] {
        assert '\0' in ([command] + args)[k + 1];
        return None;
      }
      list := list + [args[k]];
    }
    return Some(list);
  }

  lemma {:induction false} ParseOfPrinted(keys: seq<string>, env: Env)
    requires forall k | k in keys :: k in env && '=' !in k
    ensures ParseEnv(Printed(keys, env)) == Some(map k | k in env && k in keys :: env[k])
  {
    var list := Printed(keys, env);
    if keys != [] {
      var n := |keys| - 1;
      assert keys == keys[..n] + [keys[n]];
      ParseOfPrinted(keys[..n], env);
      assert list[..n] == Printed(keys[..n], env);
      ParseOfPrint(keys[n], env[keys[n]]);
      var front := ParseAll(list[..n]).value;
      assert ParseAll(list) == Some(front + [(keys[n], env[keys[n]])]);
      assert (front + [(keys[n], env[keys[n]])])[..|front|] == front;
    }
    assert Collect(ParseAll(list).value) == map k | k in env && k in keys :: env[k];
  }

  /** A child that reads its environment as it was written sees the printed map exactly if no key has an equals sign. */
  lemma PrintedEnvironmentIsReadBack(list: seq<string>, env: Env)
    requires IsPrintOf(list, env)
    ensures ParseEnv(list) == Some(env) <==> PlainKeys(env)
  {
    var keys :| IsOrderOf(keys, env) && list == Printed(keys, env);
    if PlainKeys(env) {
      ParseOfPrinted(keys, env);
      assert env == map k | k in env && k in keys :: env[k];
    }
    ParsedKeysArePlain(list);
  }

  /**
   Whatever the configuration, from the command line or from a file: the child reads
   the configured variables over the inherited ones, each once, exactly if no
   configured key has an equals sign and no inherited key that stays has one.
   */
  lemma EnvironmentReachesTheChild(inherited: Env, configured: Env, envp: seq<string>)
    requires IsPrintOf(envp, inherited + configured)
    ensures ParseEnv(envp) == Some(inherited + configured) <==>
            PlainKeys(configured) && forall k | k in inherited && k !in configured :: '=' !in k
    ensures |envp| == |(inherited + configured).Keys|
  {
    PrintedEnvironmentIsReadBack(envp, inherited + configured);
    assert forall k :: k in inherited + configured <==> k in inherited || k in configured;
    EachKeyOnce(envp, inherited + configured);
  }

  /** From the command line the configured keys are always plain, so only the inherited ones matter. */
  lemma CommandLineReachesTheChild(texts: seq<string>, inherited: Env, envp: seq<string>)
    requires ParseEnv(texts).Some?
    requires IsPrintOf(envp, inherited + ParseEnv(texts).value)
    ensures ParseEnv(envp) == Some(inherited + ParseEnv(texts).value) <==> PlainKeys(inherited)
  {
    EnvironmentReachesTheChild(inherited, ParseEnv(texts).value, envp);
    ParsedKeysArePlain(texts);
  }

  /** A configuration file can set a key with an equals sign: the child reads another variable instead. */
  lemma FileKeyIsMisread() returns (configured: Env, envp: seq<string>)
    ensures configured == map["A=B" := "c"] && envp == ["A=B=c"] && IsPrintOf(envp, map[] + configured)
    ensures ParseEnv(envp) == Some(map["A" := "B=c"]) && configured != map["A" := "B=c"]
  {
    configured, envp := map["A=B" := "c"], ["A=B=c"];
    OnePairIsPrinted("A=B", "c", map[] + configured);
    OnePairIsParsed("A", "B=c");
    assert PrintKv("A=B", "c") == "A=B=c" == PrintKv("A", "B=c");
    assert "A=B" in configured && "A=B" !in map["A" := "B=c"] by { assert |"A=B"| != |"A"|; }
  }

  /** The only equals sign an inherited key can have is its first character; then the child reads an empty key. */
  lemma InheritedKeyIsMisread() returns (inherited: Env, envp: seq<string>)
    ensures inherited == map["=X" := "1"] && envp == ["=X=1"] && IsPrintOf(envp, inherited + map[])
    ensures ParseEnv(envp) == Some(map["" := "X=1"]) && inherited != map["" := "X=1"]
  {
    inherited, envp := map["=X" := "1"], ["=X=1"];
    OnePairIsPrinted("=X", "1", inherited + map[]);
    OnePairIsParsed("", "X=1");
    assert PrintKv("=X", "1") == "=X=1" == PrintKv("", "X=1");
    assert "=X" in inherited && "=X" !in map["" := "X=1"] by { assert |"=X"| != |""|; }
  }

  lemma OnePairIsPrinted(k: string, v: string, env: Env)
    requires env == map[k := v]
    ensures IsPrintOf([PrintKv(k, v)], env)
  {
    assert IsOrderOf([k], env) && [PrintKv(k, v)] == Printed([k], env);
  }

  lemma OnePairIsParsed(k: string, v: string)
    requires '=' !in k
    ensures ParseEnv([PrintKv(k, v)]) == Some(map[k := v])
  {
    var env := map[k := v];
    ParseOfPrinted([k], env);
    assert [PrintKv(k, v)] == Printed([k], env);
    assert env == map x | x in env && x in [k] :: env[x];
  }

  lemma EachKeyOnce(list: seq<string>, env: Env)
    requires IsPrintOf(list, env)
    ensures |list| == |env.Keys|
  {
    var keys :| IsOrderOf(keys, env) && list == Printed(keys, env);
    assert forall k :: k in keys <==> k in env.Keys;
    DistinctCount(keys, env.Keys);
  }

  lemma {:induction false} DistinctCount(keys: seq<string>, s: set<string>)
    requires forall k :: k in keys <==> k in s
    requires forall i, j | 0 <= i < j < |keys| :: keys[i] != keys[j]
    ensures |keys| == |s|
  {
    if keys != [] {
      var n := |keys| - 1;
      assert keys == keys[..n] + [keys[n]];
      DistinctCount(keys[..n], s - {keys[n]});
    } else {
      assert s == {};
    }
  }
}
