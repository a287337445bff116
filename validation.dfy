/**
 * The component bookkeeping and dependency checks of the system
 * integration validator (validation.py): a component's health update,
 * the built-in component graph, the edge checks of
 * `_validate_dependencies`, the depth-first startup order and the
 * overall-status flag.
 *
 * The validator's component dictionary is read here as a `Graph` value:
 * its keys in insertion order and each key's dependency list, which no
 * operation of the validator changes after construction.
 */
module SystemValidation {
  import opened Wrappers
  import opened Sets

  datatype ComponentHealth = Healthy | Degraded | Failed | Starting | Unknown {
    function Value(): string {
      match this
      case Healthy => "✅ HEALTHY"
      case Degraded => "⚠️  DEGRADED"
      case Failed => "❌ FAILED"
      case Starting => "🔄 STARTING"
      case Unknown => "❓ UNKNOWN"
    }
  }

  /** A value of a component's `metrics` dictionary. */
  datatype Metric = MetricText(text: string) | MetricReal(r: real)

  /** `SystemComponent`; timestamps are the ISO texts of the clock readings
      passed in as `now`. */
  class SystemComponent {
    var name: string
    var version: string
    var health: ComponentHealth
    var lastCheck: string
    var responseTime: real
    var dependencies: seq<string>
    var metrics: map<string, Metric>
    var errorCount: int
    var startupTime: Option<string>

    constructor (name: string, version: string, now: string, dependencies: seq<string> := [])
      ensures this.name == name && this.version == version && this.dependencies == dependencies
      ensures health == Starting && lastCheck == now && responseTime == 0.0
      ensures metrics == map[] && errorCount == 0 && startupTime == None
    {
      this.name := name;
      this.version := version;
      this.dependencies := dependencies;
      health := Starting;
      lastCheck := now;
      responseTime := 0.0;
      metrics := map[];
      errorCount := 0;
      startupTime := None;
    }

    /** `update_health` at `now`: the health, the check time, the response
        time and the two metrics entries change, nothing else does. */
    method UpdateHealth(health: ComponentHealth, now: string, responseTime: real := 0.0)
      modifies this
      ensures this.health == health && lastCheck == now && this.responseTime == responseTime
      ensures metrics == old(metrics)["last_update" := MetricText(now)]["response_time" := MetricReal(responseTime)]
      ensures name == old(name) && version == old(version) && dependencies == old(dependencies)
      ensures errorCount == old(errorCount) && startupTime == old(startupTime)
    {
      this.health := health;
      lastCheck := now;
      this.responseTime := responseTime;
      metrics := metrics["last_update" := MetricText(lastCheck)];
      metrics := metrics["response_time" := MetricReal(responseTime)];
    }
  }

  // ------------------------------------------------------------------
  // The component graph
  // ------------------------------------------------------------------

  predicate Distinct<T(==)>(s: seq<T>) {
    forall i, j :: 0 <= i < j < |s| ==> s[i] != s[j]
  }

  function Elems<T(!new)>(s: seq<T>): (r: set<T>)
    ensures forall x :: x in r <==> x in s
  {
    set x | x in s
  }

  /** A component dictionary: its keys in insertion order and each
      component's dependency list. */
  datatype Graph<K> = Graph(names: seq<K>, deps: map<K, seq<K>>) {
    /** The keys are distinct and are exactly the dictionary's keys. */
    predicate Valid() {
      Distinct(names) && (forall n :: n in names ==> n in deps) && (forall n :: n in deps ==> n in names)
    }

    /** Every listed dependency is a component. */
    predicate Closed() {
      forall n, d :: n in deps && d in deps[n] ==> d in deps
    }
  }

  /** A chain of components, each depending on the next. */
  predicate IsPath<K(!new)>(g: Graph<K>, p: seq<K>) {
    |p| >= 1 && (forall i :: 0 <= i < |p| ==> p[i] in g.deps) &&
    forall i :: 1 <= i < |p| ==> p[i] in g.deps[p[i - 1]]
  }

  /** A chain whose last component depends on its first. */
  predicate IsCycle<K(!new)>(g: Graph<K>, p: seq<K>) {
    IsPath(g, p) && p[0] in g.deps[p[|p| - 1]]
  }

  ghost predicate HasCycle<K(!new)>(g: Graph<K>) {
    exists p :: IsCycle(g, p)
  }

  /** A ranking under which every dependency ranks strictly lower. */
  predicate RankedBy<K(!new)>(g: Graph<K>, rank: K -> nat) {
    forall n, d :: n in g.deps && d in g.deps[n] ==> rank(d) < rank(n)
  }

  lemma {:induction false} RankDecreasesAlongPath<K(!new)>(g: Graph<K>, rank: K -> nat, p: seq<K>, j: nat)
    requires RankedBy(g, rank) && IsPath(g, p) && 0 < j < |p|
    ensures rank(p[j]) < rank(p[0])
  {
    if j > 1 {
      RankDecreasesAlongPath(g, rank, p, j - 1);
    }
  }

  /** A ranked graph has no cycle. */
  lemma RankedIsAcyclic<K(!new)>(g: Graph<K>, rank: K -> nat)
    requires RankedBy(g, rank)
    ensures !HasCycle(g)
  {
    if p :| IsCycle(g, p) {
      assert rank(p[0]) < rank(p[|p| - 1]);
      if |p| > 1 {
        RankDecreasesAlongPath(g, rank, p, |p| - 1);
      }
    }
  }

  /** Two components that list each other (or one that lists itself) form a cycle. */
  lemma MutualIsCycle<K(!new)>(g: Graph<K>, a: K, b: K)
    requires a in g.deps && b in g.deps[a] && b in g.deps && a in g.deps[b]
    ensures HasCycle(g)
  {
    assert IsCycle(g, [a, b]);
  }

  // ------------------------------------------------------------------
  // _initialize_components
  // ------------------------------------------------------------------

  /** The components of `_initialize_components`. */
  datatype Builtin =
    | CliInterface | AsciiRenderer | ColorManager | ScannerEngine | HttpClient
    | RateLimiter | PlatformRegistry | ResultProcessor | DataValidator | Formatter
    | SessionManager | ConfigManager | FileSystem | RedisClient | ProxyManager
    | TemplateEngine | InputHandler | ValidatorComponent
  {
    /** The dictionary key. */
    function Key(): string {
      match this
      case CliInterface => "cli_interface"
      case AsciiRenderer => "ascii_renderer"
      case ColorManager => "color_manager"
      case ScannerEngine => "scanner_engine"
      case HttpClient => "http_client"
      case RateLimiter => "rate_limiter"
      case PlatformRegistry => "platform_registry"
      case ResultProcessor => "result_processor"
      case DataValidator => "data_validator"
      case Formatter => "formatter"
      case SessionManager => "session_manager"
      case ConfigManager => "config_manager"
      case FileSystem => "file_system"
      case RedisClient => "redis_client"
      case ProxyManager => "proxy_manager"
      case TemplateEngine => "template_engine"
      case InputHandler => "input_handler"
      case ValidatorComponent => "validator"
    }

    /** The component's `name`; every `version` is "1.0.0". */
    function DisplayName(): string {
      match this
      case CliInterface => "CLI Interface"
      case AsciiRenderer => "ASCII Renderer"
      case ColorManager => "Color Manager"
      case ScannerEngine => "Scanner Engine"
      case HttpClient => "HTTP Client"
      case RateLimiter => "Rate Limiter"
      case PlatformRegistry => "Platform Registry"
      case ResultProcessor => "Result Processor"
      case DataValidator => "Data Validator"
      case Formatter => "Formatter"
      case SessionManager => "Session Manager"
      case ConfigManager => "Config Manager"
      case FileSystem => "File System"
      case RedisClient => "Redis Client"
      case ProxyManager => "Proxy Manager"
      case TemplateEngine => "Template Engine"
      case InputHandler => "Input Handler"
      case ValidatorComponent => "Validator"
    }

    function Dependencies(): seq<Builtin> {
      match this
      case CliInterface => [AsciiRenderer, InputHandler]
      case AsciiRenderer => [ColorManager]
      case ScannerEngine => [HttpClient, RateLimiter, PlatformRegistry]
      case HttpClient => [SessionManager, ProxyManager]
      case RateLimiter => [RedisClient]
      case PlatformRegistry => [ConfigManager]
      case ResultProcessor => [DataValidator, Formatter]
      case Formatter => [TemplateEngine]
      case ConfigManager => [FileSystem]
      case InputHandler => [ValidatorComponent]
      case _ => []
    }

    /** The component's position in the dictionary. */
    function Index(): nat {
      match this
      case CliInterface => 0
      case AsciiRenderer => 1
      case ColorManager => 2
      case ScannerEngine => 3
      case HttpClient => 4
      case RateLimiter => 5
      case PlatformRegistry => 6
      case ResultProcessor => 7
      case DataValidator => 8
      case Formatter => 9
      case SessionManager => 10
      case ConfigManager => 11
      case FileSystem => 12
      case RedisClient => 13
      case ProxyManager => 14
      case TemplateEngine => 15
      case InputHandler => 16
      case ValidatorComponent => 17
    }

    /** A rank above the rank of every dependency of the component. */
    function Rank(): nat {
      match this
      case CliInterface | ScannerEngine => 3
      case PlatformRegistry | ResultProcessor => 2
      case AsciiRenderer | HttpClient | RateLimiter | Formatter | ConfigManager | InputHandler => 1
      case _ => 0
    }
  }

  const BuiltinVersion: string := "1.0.0"

  /** The components in dictionary order. */
  const BuiltinOrder: seq<Builtin> := [
    CliInterface, AsciiRenderer, ColorManager, ScannerEngine, HttpClient,
    RateLimiter, PlatformRegistry, ResultProcessor, DataValidator, Formatter,
    SessionManager, ConfigManager, FileSystem, RedisClient, ProxyManager,
    TemplateEngine, InputHandler, ValidatorComponent]

  const BuiltinGraph: Graph<Builtin> :=
    Graph(BuiltinOrder, map c: Builtin | c in BuiltinOrder :: c.Dependencies())

  /** The keys of the built-in dictionary, in order. */
  const BuiltinKeys: seq<string> :=
    seq(|BuiltinOrder|, i requires 0 <= i < |BuiltinOrder| => BuiltinOrder[i].Key())

  /** The 18 keys are distinct, so the enumeration stands for the dictionary. */
  lemma BuiltinKeysDistinct()
    ensures |BuiltinKeys| == 18 && Distinct(BuiltinKeys)
  {
    OrderIndices();
    forall i, j | 0 <= i < j < 18
      ensures BuiltinKeys[i] != BuiltinKeys[j]
    {
      if BuiltinKeys[i] == BuiltinKeys[j] {
        KeyInjective(BuiltinOrder[i], BuiltinOrder[j]);
      }
    }
  }

  /** Each position of the order holds the component of that index, and
      every component is listed. */
  lemma OrderIndices()
    ensures |BuiltinOrder| == 18
    ensures forall i :: 0 <= i < 18 ==> BuiltinOrder[i].Index() == i
    ensures forall c: Builtin :: c.Index() < 18 && BuiltinOrder[c.Index()] == c
  {
  }

  /** Different components have different keys. */
  lemma KeyInjective(a: Builtin, b: Builtin)
    requires a.Key() == b.Key()
    ensures a == b
  {
    KeyLetters(a);
    KeyLetters(b);
    LettersInjective(a, b);
  }

  /** The first and third letters of a component's key. */
  function Letters(c: Builtin): (char, char) {
    match c
      case CliInterface => ('c', 'i')
      case AsciiRenderer => ('a', 'c')
      case ColorManager => ('c', 'l')
      case ScannerEngine => ('s', 'a')
      case HttpClient => ('h', 't')
      case RateLimiter => ('r', 't')
      case PlatformRegistry => ('p', 'a')
      case ResultProcessor => ('r', 's')
      case DataValidator => ('d', 't')
      case Formatter => ('f', 'r')
      case SessionManager => ('s', 's')
      case ConfigManager => ('c', 'n')
      case FileSystem => ('f', 'l')
      case RedisClient => ('r', 'd')
      case ProxyManager => ('p', 'o')
      case TemplateEngine => ('t', 'm')
      case InputHandler => ('i', 'p')
      case ValidatorComponent => ('v', 'l')
  }

  lemma KeyLetters(c: Builtin)
    ensures |c.Key()| > 2 && (c.Key()[0], c.Key()[2]) == Letters(c)
  {
  }

  lemma LettersInjective(a: Builtin, b: Builtin)
    requires Letters(a) == Letters(b)
    ensures a == b
  {
  }

  /** Every dependency ranks strictly lower than its component. */
  lemma DependenciesRankLower(c: Builtin)
    ensures forall d :: d in c.Dependencies() ==> d in BuiltinOrder && d.Rank() < c.Rank()
  {
    OrderIndices();
  }

  /** The built-in graph is a dictionary of 18 components with distinct
      keys, every dependency exists, and it has no cycle. */
  lemma BuiltinGraphShape()
    ensures BuiltinGraph.Valid() && |BuiltinGraph.names| == 18
    ensures BuiltinGraph.Closed()
    ensures RankedBy(BuiltinGraph, (c: Builtin) => c.Rank())
    ensures !HasCycle(BuiltinGraph)
  {
    forall n | n in BuiltinGraph.deps
      ensures forall d :: d in BuiltinGraph.deps[n] ==> d in BuiltinGraph.deps && d.Rank() < n.Rank()
    {
      DependenciesRankLower(n);
    }
    RankedIsAcyclic(BuiltinGraph, (c: Builtin) => c.Rank());
  }

  // ------------------------------------------------------------------
  // _validate_dependencies: the edge checks
  // ------------------------------------------------------------------

  datatype Issue<K> = MissingDependency(component: K, dependency: K)
                    | CircularDependency(component: K, dependency: K)

  function IssueMessage(i: Issue<string>): string {
    match i
    case MissingDependency(c, d) => "Missing dependency: " + c + " -> " + d
    case CircularDependency(c, d) => "Circular dependency: " + c + " <-> " + d
  }

  datatype Edge<K> = Edge(component: K, dependency: K)

  function EdgeMessage(e: Edge<string>): string {
    e.component + " -> " + e.dependency
  }

  /** The issues the check of component `a` adds for the dependency list `ds`. */
  function DepIssues<K(!new)>(g: Graph<K>, a: K, ds: seq<K>): (r: seq<Issue<K>>)
    ensures |r| <= |ds|
  {
    if ds == [] then []
    else
      var b := ds[|ds| - 1];
      DepIssues(g, a, ds[..|ds| - 1]) +
      (if b !in g.deps then [MissingDependency(a, b)]
       else if a in g.deps[b] then [CircularDependency(a, b)]
       else [])
  }

  /** The edges the check of component `a` validates for the dependency list `ds`. */
  function DepValidated<K(!new)>(g: Graph<K>, a: K, ds: seq<K>): (r: seq<Edge<K>>)
    ensures |r| <= |ds|
  {
    if ds == [] then []
    else
      var b := ds[|ds| - 1];
      DepValidated(g, a, ds[..|ds| - 1]) +
      (if b in g.deps && a !in g.deps[b] then [Edge(a, b)] else [])
  }

  /** The issues of the components `ns`, in order. */
  function AllIssues<K(!new)>(g: Graph<K>, ns: seq<K>): seq<Issue<K>>
    requires forall x :: x in ns ==> x in g.deps
  {
    if ns == [] then []
    else
      var a := ns[|ns| - 1];
      AllIssues(g, ns[..|ns| - 1]) + DepIssues(g, a, g.deps[a])
  }

  /** The validated edges of the components `ns`, in order. */
  function AllValidated<K(!new)>(g: Graph<K>, ns: seq<K>): seq<Edge<K>>
    requires forall x :: x in ns ==> x in g.deps
  {
    if ns == [] then []
    else
      var a := ns[|ns| - 1];
      AllValidated(g, ns[..|ns| - 1]) + DepValidated(g, a, g.deps[a])
  }

  /** Each dependency `b` of `a` yields a missing issue when `b` is not a
      component, a circular issue when `b` lists `a`, and a validated edge
      otherwise. */
  lemma {:induction false} DepChecksMembers<K(!new)>(g: Graph<K>, a: K, ds: seq<K>, x: K, b: K)
    ensures MissingDependency(x, b) in DepIssues(g, a, ds) <==> (x == a && b in ds && b !in g.deps)
    ensures CircularDependency(x, b) in DepIssues(g, a, ds) <==> (x == a && b in ds && b in g.deps && a in g.deps[b])
    ensures Edge(x, b) in DepValidated(g, a, ds) <==> (x == a && b in ds && b in g.deps && a !in g.deps[b])
  {
    if ds != [] {
      DepChecksMembers(g, a, ds[..|ds| - 1], x, b);
      assert ds == ds[..|ds| - 1] + [ds[|ds| - 1]];
    }
  }

  /** Over the components `ns`, the issues and validated edges are exactly
      the edge outcomes above. */
  lemma {:induction false} AllChecksMembers<K(!new)>(g: Graph<K>, ns: seq<K>, x: K, b: K)
    requires forall y :: y in ns ==> y in g.deps
    ensures MissingDependency(x, b) in AllIssues(g, ns) <==> (x in ns && b in g.deps[x] && b !in g.deps)
    ensures CircularDependency(x, b) in AllIssues(g, ns) <==>
              (x in ns && b in g.deps[x] && b in g.deps && x in g.deps[b])
    ensures Edge(x, b) in AllValidated(g, ns) <==> (x in ns && b in g.deps[x] && b in g.deps && x !in g.deps[b])
  {
    if ns != [] {
      var a := ns[|ns| - 1];
      AllChecksMembers(g, ns[..|ns| - 1], x, b);
      DepChecksMembers(g, a, g.deps[a], x, b);
      assert ns == ns[..|ns| - 1] + [a];
    }
  }

  /** Some component and one of its dependencies list each other. */
  ghost predicate HasMutualPair<K(!new)>(g: Graph<K>) {
    exists a, b :: a in g.deps && b in g.deps[a] && b in g.deps && a in g.deps[b]
  }

  /** With every dependency present the only issues are circular ones, and
      there are none exactly when no two components list each other. */
  lemma IssuesAreMutualPairs<K(!new)>(g: Graph<K>)
    requires g.Valid() && g.Closed()
    ensures forall issue :: issue in AllIssues(g, g.names) ==> issue.CircularDependency?
    ensures AllIssues(g, g.names) == [] <==> !HasMutualPair(g)
  {
    var r := AllIssues(g, g.names);
    forall issue | issue in r
      ensures issue.CircularDependency?
    {
      AllChecksMembers(g, g.names, issue.component, issue.dependency);
    }
    if HasMutualPair(g) {
      var a, b :| a in g.deps && b in g.deps[a] && b in g.deps && a in g.deps[b];
      AllChecksMembers(g, g.names, a, b);
    }
    if r != [] {
      AllChecksMembers(g, g.names, r[0].component, r[0].dependency);
    }
  }

  /** The check only looks at pairs: the three-component cycle a -> b -> c -> a
      yields no issue, although the graph has a cycle. */
  lemma LongCycleNotReported<K(!new)>(a: K, b: K, c: K)
    requires a != b && b != c && a != c
    ensures var g := Graph([a, b, c], map[a := [b], b := [c], c := [a]]);
            g.Valid() && g.Closed() && AllIssues(g, g.names) == [] && HasCycle(g)
  {
    var g := Graph([a, b, c], map[a := [b], b := [c], c := [a]]);
    assert IsCycle(g, [a, b, c]);
    if HasMutualPair(g) {
      var x, y :| x in g.deps && y in g.deps[x] && y in g.deps && x in g.deps[y];
    }
    IssuesAreMutualPairs(g);
  }

  /** A graph whose dependencies all exist and that has no cycle produces no issue. */
  lemma AcyclicHasNoIssues<K(!new)>(g: Graph<K>)
    requires g.Valid() && g.Closed() && !HasCycle(g)
    ensures AllIssues(g, g.names) == []
  {
    if HasMutualPair(g) {
      var a, b :| a in g.deps && b in g.deps[a] && b in g.deps && a in g.deps[b];
      MutualIsCycle(g, a, b);
    }
    IssuesAreMutualPairs(g);
  }

  /** The built-in graph produces no issue. */
  lemma BuiltinHasNoIssues()
    ensures AllIssues(BuiltinGraph, BuiltinGraph.names) == []
  {
    BuiltinGraphShape();
    AcyclicHasNoIssues(BuiltinGraph);
  }

  // ------------------------------------------------------------------
  // _calculate_startup_order
  // ------------------------------------------------------------------

  /** Every component listed has all its dependencies listed before it. */
  predicate DependenciesFirst<K(!new)>(g: Graph<K>, order: seq<K>) {
    forall i :: 0 <= i < |order| ==>
      order[i] in g.deps && forall d :: d in g.deps[order[i]] ==> d in order[..i]
  }

  /** Every component listed is a component whose dependencies were all visited. */
  predicate Expanded<K(!new)>(g: Graph<K>, order: seq<K>, visited: set<K>) {
    forall i :: 0 <= i < |order| ==>
      order[i] in g.deps && forall d :: d in g.deps[order[i]] ==> d in visited
  }

  /** The state of the depth-first search: the visited components are
      components, the finished ones are listed once each, the visited but
      unfinished ones are `inProgress`, and the list is closed under
      dependencies unless the graph has a cycle. */
  ghost predicate SearchState<K(!new)>(g: Graph<K>, visited: set<K>, order: seq<K>, inProgress: set<K>) {
    visited <= g.deps.Keys && Elems(order) <= visited && Distinct(order) &&
    visited - Elems(order) == inProgress &&
    Expanded(g, order, visited) &&
    (HasCycle(g) || DependenciesFirst(g, order))
  }

  /** The search only adds: visited grows and the order is extended. */
  ghost predicate Extends<K(!new)>(visited: set<K>, order: seq<K>, visited': set<K>, order': seq<K>) {
    visited <= visited' && |order| <= |order'| && order'[..|order|] == order && Elems(order) <= Elems(order')
  }

  lemma ExtendsTrans<K(!new)>(v1: set<K>, o1: seq<K>, v2: set<K>, o2: seq<K>, v3: set<K>, o3: seq<K>)
    requires Extends(v1, o1, v2, o2) && Extends(v2, o2, v3, o3)
    ensures Extends(v1, o1, v3, o3)
  {
    assert o3[..|o1|] == o3[..|o2|][..|o1|];
  }

  /** Entering a new component marks it in progress. */
  lemma Enter<K(!new)>(g: Graph<K>, visited: set<K>, order: seq<K>, inProgress: set<K>, n: K)
    requires SearchState(g, visited, order, inProgress) && n in g.deps && n !in visited
    ensures SearchState(g, visited + {n}, order, inProgress + {n})
    ensures Extends(visited, order, visited + {n}, order)
  {
  }

  /** Finishing a component whose dependencies are all visited (and, unless
      there is a cycle, all listed) lists it. */
  lemma Finish<K(!new)>(g: Graph<K>, visited: set<K>, order: seq<K>, inProgress: set<K>, n: K)
    requires SearchState(g, visited, order, inProgress + {n}) && n !in inProgress && n in visited
    requires n in g.deps && forall d :: d in g.deps[n] ==> d in visited && (HasCycle(g) || d in order)
    ensures SearchState(g, visited, order + [n], inProgress)
    ensures Extends(visited, order, visited, order + [n])
    ensures n in order + [n]
  {
    var order' := order + [n];
    assert n !in Elems(order);
    assert order'[..|order|] == order;
    assert Elems(order') == Elems(order) + {n};
    assert Expanded(g, order', visited) by {
      forall i | 0 <= i < |order'|
        ensures order'[i] in g.deps && forall d :: d in g.deps[order'[i]] ==> d in visited
      {
        if i < |order| {
          assert order'[i] == order[i];
        }
      }
    }
    if !HasCycle(g) {
      forall i | 0 <= i < |order'|
        ensures order'[i] in g.deps && forall d :: d in g.deps[order'[i]] ==> d in order'[..i]
      {
        if i < |order| {
          assert order'[i] == order[i] && order'[..i] == order[..i];
        } else {
          assert order'[..i] == order;
        }
      }
    }
  }

  /** The components `xs` are visited, and listed unless there is a cycle. */
  ghost predicate Covered<K(!new)>(g: Graph<K>, xs: seq<K>, visited: set<K>, order: seq<K>) {
    forall x :: x in xs ==> x in visited && (HasCycle(g) || x in order)
  }

  lemma CoveredExtends<K(!new)>(g: Graph<K>, xs: seq<K>, x: K, v: set<K>, o: seq<K>, v': set<K>, o': seq<K>)
    requires Covered(g, xs, v, o) && Extends(v, o, v', o')
    requires x in v' && (HasCycle(g) || x in o')
    ensures Covered(g, xs + [x], v', o')
  {
    forall y | y in xs + [x]
      ensures y in v' && (HasCycle(g) || y in o')
    {
      if y != x {
        assert y in xs;
        assert y in Elems(o) ==> y in Elems(o');
      }
    }
  }

  lemma FewerUnvisited<K(!new)>(keys: set<K>, before: set<K>, after: set<K>, n: K)
    requires before <= after && n in keys && n in after && n !in before
    ensures |keys - after| < |keys - before|
  {
    SubsetCard(keys - after, keys - before - {n});
  }

  /** A visited component that is neither finished nor new is on the
      stack, and then it closes a cycle. */
  lemma CycleFromStack<K(!new)>(g: Graph<K>, stack: seq<K>, n: K)
    requires stack != [] && IsPath(g, stack) && n in g.deps[stack[|stack| - 1]] && n in stack
    ensures HasCycle(g)
  {
    var k :| 0 <= k < |stack| && stack[k] == n;
    var p := stack[k..];
    assert p[|p| - 1] == stack[|stack| - 1];
    forall i | 1 <= i < |p|
      ensures p[i] in g.deps[p[i - 1]]
    {
      assert p[i] == stack[k + i] && p[i - 1] == stack[k + i - 1];
    }
    assert IsCycle(g, p);
  }

  /** The stack extended by a component it leads to is a chain. */
  lemma PushPath<K(!new)>(g: Graph<K>, stack: seq<K>, n: K)
    requires n in g.deps
    requires stack != [] ==> IsPath(g, stack) && n in g.deps[stack[|stack| - 1]]
    ensures IsPath(g, stack + [n])
  {
    var p := stack + [n];
    forall i | 1 <= i < |p|
      ensures p[i] in g.deps[p[i - 1]]
    {
      if i < |stack| {
        assert p[i] == stack[i] && p[i - 1] == stack[i - 1];
      }
    }
  }

  lemma DistinctCard<T(!new)>(s: seq<T>)
    requires Distinct(s)
    ensures |Elems(s)| == |s|
  {
    if s != [] {
      var init, last := s[..|s| - 1], s[|s| - 1];
      assert Distinct(init) by {
        forall i, j | 0 <= i < j < |init| ensures init[i] != init[j] {
          assert init[i] == s[i] && init[j] == s[j];
        }
      }
      DistinctCard(init);
      assert s == init + [last];
      assert last !in Elems(init) by {
        forall k | 0 <= k < |init| ensures init[k] != last {
          assert init[k] == s[k];
        }
      }
      assert Elems(s) == Elems(init) + {last};
    }
  }

  /** `visit(n)` with the visited set, the order so far and, as a ghost,
      the chain of components whose visits are in progress. `ok` is false
      when a `KeyError` escapes. */
  method Visit<K(!new)>(g: Graph<K>, n: K, visited: set<K>, order: seq<K>, ghost stack: seq<K>)
    returns (ok: bool, visited': set<K>, order': seq<K>)
    requires SearchState(g, visited, order, Elems(stack))
    requires stack == [] ==> n in g.deps
    requires stack != [] ==> IsPath(g, stack) && n in g.deps[stack[|stack| - 1]]
    ensures !ok ==> !g.Closed()
    ensures ok ==> SearchState(g, visited', order', Elems(stack)) && Extends(visited, order, visited', order')
    ensures ok ==> n in visited' && (HasCycle(g) || n in order')
    decreases |g.deps.Keys - visited|, 1
  {
    if n in visited {
      if n !in order {
        assert n in Elems(stack);
        CycleFromStack(g, stack, n);
      }
      return true, visited, order;
    }
    if n !in g.deps {
      return false, visited + {n}, order;
    }
    Enter(g, visited, order, Elems(stack), n);
    PushPath(g, stack, n);
    assert Elems(stack + [n]) == Elems(stack) + {n};
    assert n !in Elems(stack);
    ok, visited', order' := VisitDependencies(g, n, visited, visited + {n}, order, stack + [n]);
    if !ok {
      return;
    }
    ExtendsTrans(visited, order, visited + {n}, order, visited', order');
    Finish(g, visited', order', Elems(stack), n);
    ExtendsTrans(visited, order, visited', order', visited', order' + [n]);
    order' := order' + [n];
  }

  /** The loop of `visit(n)` over the dependencies of `n`, the last
      component of `path`; `before` is the visited set on entering `n`. */
  method VisitDependencies<K(!new)>(g: Graph<K>, n: K, ghost before: set<K>, visited: set<K>,
                                    order: seq<K>, ghost path: seq<K>)
    returns (ok: bool, visited': set<K>, order': seq<K>)
    requires path != [] && path[|path| - 1] == n && IsPath(g, path)
    requires n in g.deps && n in visited && n !in before && before <= visited
    requires SearchState(g, visited, order, Elems(path))
    ensures !ok ==> !g.Closed()
    ensures ok ==> SearchState(g, visited', order', Elems(path)) && Extends(visited, order, visited', order')
    ensures ok ==> Covered(g, g.deps[n], visited', order')
    decreases |g.deps.Keys - before|, 0
  {
    visited', order' := visited, order;
    var ds := g.deps[n];
    assert Extends(visited, order, visited', order');
    for i := 0 to |ds|
      invariant SearchState(g, visited', order', Elems(path))
      invariant Extends(visited, order, visited', order')
      invariant Covered(g, ds[..i], visited', order')
    {
      assert ds[..i + 1] == ds[..i] + [ds[i]];
      FewerUnvisited(g.deps.Keys, before, visited', n);
      ghost var (v0, o0) := (visited', order');
      var sub;
      sub, visited', order' := Visit(g, ds[i], visited', order', path);
      if !sub {
        return false, visited', order';
      }
      ExtendsTrans(visited, order, v0, o0, visited', order');
      CoveredExtends(g, ds[..i], ds[i], v0, o0, visited', order');
    }
    assert ds[..|ds|] == ds;
    ok := true;
  }

  /** Once every component has been visited with nothing in progress, the
      order lists each component once, and every dependency exists. */
  lemma SearchComplete<K(!new)>(g: Graph<K>, visited: set<K>, order: seq<K>)
    requires g.Valid() && SearchState(g, visited, order, {})
    requires forall j :: 0 <= j < |g.names| ==> g.names[j] in visited
    ensures g.Closed()
    ensures Distinct(order) && Elems(order) == Elems(g.names) && |order| == |g.names|
    ensures !HasCycle(g) ==> DependenciesFirst(g, order)
  {
    assert g.deps.Keys <= visited by {
      forall n | n in g.deps
        ensures n in visited
      {
        var k :| 0 <= k < |g.names| && g.names[k] == n;
      }
    }
    assert visited == g.deps.Keys;
    forall x | x in visited
      ensures x in Elems(order)
    {
      assert x !in visited - Elems(order);
    }
    assert Elems(order) == visited;
    forall n, d | n in g.deps && d in g.deps[n]
      ensures d in g.deps
    {
      var k :| 0 <= k < |order| && order[k] == n;
    }
    DistinctCard(order);
    DistinctCard(g.names);
  }

  /** `_calculate_startup_order`: `None` when a `KeyError` escapes, which
      happens exactly when some dependency is not a component. Otherwise
      every component appears exactly once, and when the graph has no cycle
      each component's dependencies come before it. */
  method CalculateStartupOrder<K(!new)>(g: Graph<K>) returns (r: Option<seq<K>>)
    requires g.Valid()
    ensures r.None? <==> !g.Closed()
    ensures r.Some? ==> Distinct(r.value) && Elems(r.value) == Elems(g.names) && |r.value| == |g.names|
    ensures r.Some? && !HasCycle(g) ==> DependenciesFirst(g, r.value)
  {
    var visited: set<K> := {};
    var order: seq<K> := [];
    assert Elems<K>([]) == {};
    for i := 0 to |g.names|
      invariant SearchState(g, visited, order, {})
      invariant forall j :: 0 <= j < i ==> g.names[j] in visited
    {
      var ok;
      ok, visited, order := Visit(g, g.names[i], visited, order, []);
      if !ok {
        return None;
      }
    }
    SearchComplete(g, visited, order);
    return Some(order);
  }

  // ------------------------------------------------------------------
  // _validate_dependencies
  // ------------------------------------------------------------------

  datatype DependencyReport<K> = DependencyReport(
    validated: seq<Edge<K>>,
    issues: seq<Issue<K>>,
    startupOrder: seq<K>,
    hasIssues: bool)

  /** `_validate_dependencies`: the edge checks in dictionary order, then
      the startup order. The method returns (`Some`) exactly when every
      dependency is a component; otherwise the startup order's `KeyError`
      escapes (`None`), so a missing-dependency issue is never returned. */
  method ValidateDependencies<K(!new)>(g: Graph<K>) returns (r: Option<DependencyReport<K>>)
    requires g.Valid()
    ensures r.None? <==> !g.Closed()
    ensures r.Some? ==> r.value.issues == AllIssues(g, g.names)
    ensures r.Some? ==> r.value.validated == AllValidated(g, g.names)
    ensures r.Some? ==> r.value.hasIssues == (r.value.issues != [])
    ensures r.Some? ==> Distinct(r.value.startupOrder) && Elems(r.value.startupOrder) == Elems(g.names)
    ensures r.Some? && !HasCycle(g) ==> DependenciesFirst(g, r.value.startupOrder)
  {
    var issues: seq<Issue<K>> := [];
    var validated: seq<Edge<K>> := [];
    for i := 0 to |g.names|
      invariant issues == AllIssues(g, g.names[..i])
      invariant validated == AllValidated(g, g.names[..i])
    {
      var a := g.names[i];
      assert g.names[..i + 1][..i] == g.names[..i];
      var more, edges := CheckComponent(g, a, g.deps[a]);
      issues, validated := issues + more, validated + edges;
    }
    assert g.names[..|g.names|] == g.names;
    var order := CalculateStartupOrder(g);
    if order.None? {
      return None;
    }
    return Some(DependencyReport(validated, issues, order.value, |issues| > 0));
  }

  /** The inner loop of `_validate_dependencies`: the checks of component
      `a` against each of its dependencies `ds`, in order. */
  method CheckComponent<K(!new)>(g: Graph<K>, a: K, ds: seq<K>)
    returns (issues: seq<Issue<K>>, validated: seq<Edge<K>>)
    ensures issues == DepIssues(g, a, ds) && validated == DepValidated(g, a, ds)
  {
    issues, validated := [], [];
    for j := 0 to |ds|
      invariant issues == DepIssues(g, a, ds[..j])
      invariant validated == DepValidated(g, a, ds[..j])
    {
      var b := ds[j];
      assert ds[..j + 1][..j] == ds[..j];
      if b !in g.deps {
        issues := issues + [MissingDependency(a, b)];
      } else if a in g.deps[b] {
        issues := issues + [CircularDependency(a, b)];
      } else {
        validated := validated + [Edge(a, b)];
      }
    }
    assert ds[..|ds|] == ds;
  }

  /** The built-in graph validates without issue, and its startup order
      lists all 18 components once, dependencies first. */
  method ValidateBuiltin() returns (r: DependencyReport<Builtin>)
    ensures r.issues == [] && !r.hasIssues
    ensures Distinct(r.startupOrder) && |r.startupOrder| == 18
    ensures DependenciesFirst(BuiltinGraph, r.startupOrder)
  {
    BuiltinGraphShape();
    BuiltinHasNoIssues();
    var report := ValidateDependencies(BuiltinGraph);
    r := report.value;
    DistinctCard(r.startupOrder);
    DistinctCard(BuiltinGraph.names);
  }

  // ------------------------------------------------------------------
  // _calculate_overall_status
  // ------------------------------------------------------------------

  /** One positional argument: a dictionary, with its `has_issues` and
      `status` entries where present, or something else. */
  datatype StatusArg = NotADict | StatusDict(hasIssues: Option<bool>, status: Option<string>)

  predicate Unhealthy(a: StatusArg) {
    a.StatusDict? && (a.hasIssues == Some(true) || a.status == Some("failed"))
  }

  /** The `all_healthy` flag of `_calculate_overall_status`, for which it
      returns "HEALTHY". */
  method AllHealthy(args: seq<StatusArg>) returns (allHealthy: bool)
    ensures allHealthy <==> forall i :: 0 <= i < |args| ==> !Unhealthy(args[i])
  {
    allHealthy := true;
    for i := 0 to |args|
      invariant allHealthy <==> forall j :: 0 <= j < i ==> !Unhealthy(args[j])
    {
      if args[i].StatusDict? {
        if args[i].hasIssues == Some(true) {
          allHealthy := false;
        }
        if args[i].status == Some("failed") {
          allHealthy := false;
        }
      }
    }
  }

  /** The dependency report as an argument of the overall status. */
  function ReportArg<K>(r: DependencyReport<K>): StatusArg {
    StatusDict(Some(r.hasIssues), None)
  }

  /** A dependency report counts against the overall status exactly when it has issues. */
  lemma ReportHealth<K>(r: DependencyReport<K>)
    ensures Unhealthy(ReportArg(r)) <==> r.hasIssues
  {
  }
}
