/**
 Process configuration (src/config.rs): the restart policy and its text form,
 the security policy and the two ways of writing one down, and the restart
 budget spent by `respawn` (src/core/task.rs).
 */
module Config {
  import opened Wrappers
  import opened Text

  // ----- restart policy -----

  datatype RestartPolicy = NoRestart | Capped(limit: nat) | Infinite

  function LowerChar(c: char): char {
    if 'A' <= c <= 'Z' then c - 'A' + 'a' else c
  }

  function Lower(s: string): (l: string)
    ensures |l| == |s|
  {
    seq(|s|, k requires 0 <= k < |s| => LowerChar(s[k]))
  }

  /** `RestartPolicy::parse`: a number first, then one of two words in any case. */
  function ParseRestart(value: string): Option<RestartPolicy> {
    if ParseUsize(value).Some? then Some(Capped(ParseUsize(value).value))
    else if Lower(value) == "none" then Some(NoRestart)
    else if Lower(value) == "infinite" then Some(Infinite)
    else None
  }

  function PrintRestart(p: RestartPolicy): string {
    match p
    case NoRestart => "none"
    case Capped(limit) => Decimal(limit)
    case Infinite => "infinite"
  }

  /** Every policy a `usize` can express has a text that parses to it. */
  lemma RestartRoundTrip(p: RestartPolicy)
    requires p.Capped? ==> p.limit <= USIZE_MAX
    ensures ParseRestart(PrintRestart(p)) == Some(p)
  {
    if p.Capped? {
      ParseOfDecimal(p.limit);
    } else {
      var s := PrintRestart(p);
      assert !IsDigit(s[0]) && s[0] != '+';
      assert Lower(s) == s;
      if p.Infinite? {
        assert |Lower(s)| != |"none"|;
      }
    }
  }

  predicate Is(c: char, lower: char, upper: char) {
    c == lower || c == upper
  }

  predicate SpellsNone(s: string) {
    |s| == 4 && Is(s[0], 'n', 'N') && Is(s[1], 'o', 'O') && Is(s[2], 'n', 'N') && Is(s[3], 'e', 'E')
  }

  predicate SpellsInfinite(s: string) {
    && |s| == 8 && Is(s[0], 'i', 'I') && Is(s[1], 'n', 'N') && Is(s[2], 'f', 'F') && Is(s[3], 'i', 'I')
    && Is(s[4], 'n', 'N') && Is(s[5], 'i', 'I') && Is(s[6], 't', 'T') && Is(s[7], 'e', 'E')
  }

  lemma LowersTo(c: char, lower: char)
    requires 'a' <= lower <= 'z'
    ensures LowerChar(c) == lower <==> c == lower || c as int == lower as int - 32
  {
  }

  lemma SpellsNoneIffLowers(s: string)
    ensures Lower(s) == "none" <==> SpellsNone(s)
  {
    if |s| == 4 {
      LowersTo(s[0], 'n');
      LowersTo(s[1], 'o');
      LowersTo(s[2], 'n');
      LowersTo(s[3], 'e');
      assert Lower(s) == [LowerChar(s[0]), LowerChar(s[1]), LowerChar(s[2]), LowerChar(s[3])];
    }
  }

  lemma SpellsInfiniteIffLowers(s: string)
    ensures Lower(s) == "infinite" <==> SpellsInfinite(s)
  {
    forall k | 0 <= k < |s| && |s| == 8
      ensures LowerChar(s[k]) == "infinite"[k] <==> s[k] == "infinite"[k] || s[k] == "INFINITE"[k] {
      LowersTo(s[k], "infinite"[k]);
    }
    assert |s| == 8 && SpellsInfinite(s) ==> Lower(s) == "infinite";
    assert |s| == 8 && Lower(s) == "infinite" ==> forall k :: 0 <= k < 8 ==> LowerChar(s[k]) == "infinite"[k];
  }

  /** Which texts give which policy: numbers, and the two words in any case; all others are refused. */
  lemma RestartTextIsExact(s: string, n: nat)
    ensures ParseRestart(s) == Some(Capped(n)) <==> ParseUsize(s) == Some(n)
    ensures ParseRestart(s) == Some(NoRestart) <==> SpellsNone(s)
    ensures ParseRestart(s) == Some(Infinite) <==> SpellsInfinite(s)
  {
    SpellsNoneIffLowers(s);
    SpellsInfiniteIffLowers(s);
    if ParseUsize(s).Some? {
      NumbersAreNoWords(s);
    }
  }

  lemma NumbersAreNoWords(s: string)
    requires ParseUsize(s).Some?
    ensures s != "" && (s[0] == '+' || '0' <= s[0] <= '9') && !SpellsNone(s) && !SpellsInfinite(s)
  {
    ParseUsizeIsExact(s, ParseUsize(s).value);
    var digits: string :| (s == digits || s == "+" + digits) && digits != "" && AllDigits(digits);
    assert s[0] == '+' || s[0] == digits[0];
  }

  // ----- security policy -----

  datatype SecurityProfile = Default | Isolated | ReadOnly | Sandboxed | Custom

  datatype SecurityPolicy = SecurityPolicy(
    profile: SecurityProfile, noNet: bool, noFs: bool, readOnlyFs: bool,
    noProcess: bool, noThread: bool, noIpc: bool, noSysman: bool)

  const DEFAULT_POLICY := SecurityPolicy(Default, false, false, false, false, false, false, true)

  function FromProfile(profile: SecurityProfile): SecurityPolicy {
    match profile
    case Default => DEFAULT_POLICY
    case Isolated => DEFAULT_POLICY.(profile := profile, noNet := true, noProcess := true, noIpc := true)
    case ReadOnly => DEFAULT_POLICY.(profile := profile, readOnlyFs := true)
    case Sandboxed =>
      DEFAULT_POLICY.(profile := profile, noNet := true, readOnlyFs := true, noProcess := true,
                      noThread := true, noIpc := true, noSysman := true)
    case Custom => DEFAULT_POLICY.(profile := Custom)
  }

  datatype SecurityArgs = SecurityArgs(
    profile: Option<SecurityProfile>, noNet: bool, readOnlyFs: bool,
    noProcess: bool, noThread: bool, noIpc: bool, allowSysman: bool)

  /** A policy as a configuration file gives it: any field may be absent. */
  datatype RawPolicy = RawPolicy(
    profile: Option<SecurityProfile>, noNet: Option<bool>, noFs: Option<bool>, readOnlyFs: Option<bool>,
    noProcess: Option<bool>, noThread: Option<bool>, noIpc: Option<bool>, noSysman: Option<bool>)

  function Or<T>(given: Option<T>, default: T): T {
    if given.Some? then given.value else default
  }

  /** Command line flags only ever add restrictions, except the one that allows system manipulation. */
  function ArgsPolicy(args: SecurityArgs): SecurityPolicy {
    var base := FromProfile(Or(args.profile, Default));
    SecurityPolicy(base.profile, base.noNet || args.noNet, base.noFs, base.readOnlyFs || args.readOnlyFs,
                   base.noProcess || args.noProcess, base.noThread || args.noThread,
                   base.noIpc || args.noIpc, base.noSysman && !args.allowSysman)
  }

  /** A file's fields replace those of its profile; its `no_fs` is read but never applied. */
  function FilePolicy(raw: RawPolicy): SecurityPolicy {
    var base := FromProfile(Or(raw.profile, Default));
    SecurityPolicy(base.profile, Or(raw.noNet, base.noNet), base.noFs, Or(raw.readOnlyFs, base.readOnlyFs),
                   Or(raw.noProcess, base.noProcess), Or(raw.noThread, base.noThread),
                   Or(raw.noIpc, base.noIpc), Or(raw.noSysman, base.noSysman))
  }

  /** `From<&SecurityArgs>`, assignment by assignment. */
  method PolicyFromArgs(args: SecurityArgs) returns (policy: SecurityPolicy)
    ensures policy == ArgsPolicy(args)
  {
    policy := FromProfile(if args.profile.Some? then args.profile.value else Default);
    if args.noNet { policy := policy.(noNet := true); }
    if args.readOnlyFs { policy := policy.(readOnlyFs := true); }
    if args.noProcess { policy := policy.(noProcess := true); }
    if args.noThread { policy := policy.(noThread := true); }
    if args.noIpc { policy := policy.(noIpc := true); }
    if args.allowSysman { policy := policy.(noSysman := false); }
  }

  /** The overlay of `deserialize`, assignment by assignment. */
  method PolicyFromFile(raw: RawPolicy) returns (limits: SecurityPolicy)
    ensures limits == FilePolicy(raw)
  {
    limits := FromProfile(if raw.profile.Some? then raw.profile.value else Default);
    limits := OverlayAccess(limits, raw);
    limits := OverlayRest(limits, raw);
  }

  method OverlayAccess(base: SecurityPolicy, raw: RawPolicy) returns (limits: SecurityPolicy)
    ensures limits == base.(noNet := Or(raw.noNet, base.noNet), readOnlyFs := Or(raw.readOnlyFs, base.readOnlyFs),
                            noProcess := Or(raw.noProcess, base.noProcess))
  {
    limits := base;
    if raw.noNet.Some? { limits := limits.(noNet := raw.noNet.value); }
    if raw.readOnlyFs.Some? { limits := limits.(readOnlyFs := raw.readOnlyFs.value); }
    if raw.noProcess.Some? { limits := limits.(noProcess := raw.noProcess.value); }
  }

  method OverlayRest(base: SecurityPolicy, raw: RawPolicy) returns (limits: SecurityPolicy)
    ensures limits == base.(noThread := Or(raw.noThread, base.noThread), noIpc := Or(raw.noIpc, base.noIpc),
                            noSysman := Or(raw.noSysman, base.noSysman))
  {
    limits := base;
    if raw.noThread.Some? { limits := limits.(noThread := raw.noThread.value); }
    if raw.noIpc.Some? { limits := limits.(noIpc := raw.noIpc.value); }
    if raw.noSysman.Some? { limits := limits.(noSysman := raw.noSysman.value); }
  }

  predicate Has(given: Option<SecurityProfile>, a: SecurityProfile, b: SecurityProfile) {
    given == Some(a) || given == Some(b)
  }

  /** What the command line means, flag by flag: a restriction is set by its flag or by one of these profiles. */
  lemma CommandLineMeans(args: SecurityArgs)
    ensures var p := ArgsPolicy(args);
            && p.noNet == (args.noNet || Has(args.profile, Isolated, Sandboxed))
            && p.readOnlyFs == (args.readOnlyFs || Has(args.profile, ReadOnly, Sandboxed))
            && p.noProcess == (args.noProcess || Has(args.profile, Isolated, Sandboxed))
            && p.noThread == (args.noThread || args.profile == Some(Sandboxed))
            && p.noIpc == (args.noIpc || Has(args.profile, Isolated, Sandboxed))
            && p.noSysman == !args.allowSysman && p.noFs == false
            && p.profile == (if args.profile.Some? then args.profile.value else Default)
  {
  }

  /** What a file means: a field that is given decides, one that is not is left to the profile. */
  lemma FileMeans(raw: RawPolicy)
    ensures var p := FilePolicy(raw);
            && p.noNet == (if raw.noNet.Some? then raw.noNet.value else Has(raw.profile, Isolated, Sandboxed))
            && p.readOnlyFs
               == (if raw.readOnlyFs.Some? then raw.readOnlyFs.value else Has(raw.profile, ReadOnly, Sandboxed))
            && p.noProcess
               == (if raw.noProcess.Some? then raw.noProcess.value else Has(raw.profile, Isolated, Sandboxed))
            && p.noThread == (if raw.noThread.Some? then raw.noThread.value else raw.profile == Some(Sandboxed))
            && p.noIpc == (if raw.noIpc.Some? then raw.noIpc.value else Has(raw.profile, Isolated, Sandboxed))
            && p.noSysman == (if raw.noSysman.Some? then raw.noSysman.value else true) && p.noFs == false
            && p.profile == (if raw.profile.Some? then raw.profile.value else Default)
  {
  }

  predicate ValidPolicy(p: SecurityPolicy) {
    !(p.noFs && p.readOnlyFs)
  }

  function Flag(set_: bool): Option<bool> {
    if set_ then Some(true) else None
  }

  /** The file that says the same as the command line. */
  function AsFile(args: SecurityArgs): RawPolicy {
    RawPolicy(args.profile, Flag(args.noNet), None, Flag(args.readOnlyFs), Flag(args.noProcess),
              Flag(args.noThread), Flag(args.noIpc), if args.allowSysman then Some(false) else None)
  }

  /** Command line and configuration file give the same policy for the same flags. */
  lemma CommandLineAndFileAgree(args: SecurityArgs)
    ensures ArgsPolicy(args) == FilePolicy(AsFile(args))
  {
  }

  /** No command line and no file, not even one that asks for it, produces a policy with `no_fs`. */
  lemma NoFsIsNeverSet(args: SecurityArgs, raw: RawPolicy)
    ensures !ArgsPolicy(args).noFs && ValidPolicy(ArgsPolicy(args))
    ensures !FilePolicy(raw).noFs && ValidPolicy(FilePolicy(raw))
  {
  }

  // ----- the whole configuration -----

  datatype ProcessConfig = ProcessConfig(
    name: string, command: string, args: seq<string>, cwd: Option<string>,
    env: map<string, string>, restart: RestartPolicy, security: SecurityPolicy)

  /** `respawn`: whether to restart, and the configuration it leaves behind. */
  function Respawn(config: ProcessConfig): (bool, ProcessConfig) {
    match config.restart
    case Capped(limit) =>
      if limit <= 1 then (false, config) else (true, config.(restart := Capped(limit - 1)))
    case NoRestart => (false, config)
    case Infinite => (true, config)
  }
}
