/** Deployment configurations and the set of deployments keyed by name
    (deployment/deployment.py). Git and Jenkins are abstract inputs. */
module DeploymentStore {
  import opened Values
  import opened Text

  type Config = map<string, Value>

  const TextFields: set<string> :=
    {"name", "git_path", "git_url", "git_branch", "jenkins_job", "deploy_key",
     "script", "bigboat_url", "bigboat_key", "bigboat_compose"}

  /** The JSON types the frontend stores under the known keys; other keys may hold anything. */
  predicate WellTyped(c: Config) {
    && (forall k :: k in TextFields && k in c ==> c[k].Text?)
    && ("artifacts" in c ==> c["artifacts"].Flag?)
    && ("services" in c ==> c["services"].Names?)
    && ("secret_files" in c ==> c["secret_files"].Files?)
  }

  /** A single deployment: a read-only mapping over its configuration. */
  datatype Deployment = Deployment(config: Config) {

    /** `deployment[key]`. */
    function Item(key: string): (r: Result<Value>)
      ensures r.Ok? <==> key in config
      ensures r.Err? ==> r.error == KeyError(key)
    {
      if key in config then Ok(config[key]) else Err(KeyError(key))
    }

    /** `deployment.get(key, default)`, the `Mapping` mixin over `Item`. */
    function Get(key: string, default: Value): Value {
      match Item(key)
      case Ok(v) => v
      case Err(_) => default
    }

    /** `deployment.get(key, default)` for a text field. */
    function GetText(key: string, default: string): string
      requires WellTyped(config) && key in TextFields
    {
      if key in config then config[key].text else default
    }

    /** `len(deployment)`: the number of configured keys. */
    function Len(): (n: nat)
      ensures n == |config.Keys|
    {
      |config|
    }
  }

  /** For a well-typed configuration, `deployment.get(key, default)` of a text
      field is text: the typed read `GetText` the core uses agrees with it. */
  lemma GetTextIsGet(d: Deployment, key: string, default: string)
    requires WellTyped(d.config) && key in TextFields
    ensures d.Get(key, Text(default)) == Text(d.GetText(key, default))
    ensures d.Get(key, Text(default)).Text?
  {
  }

  /** What `Deployments._convert` accepts: a bare name, a dict, or a `Deployment`. */
  datatype Arg = Bare(name: string) | Dict(config: Config) | Existing(deployment: Deployment)

  /** `Deployments._convert`. */
  function Convert(a: Arg): (d: Deployment)
    ensures a.Bare? ==> d.config == map["name" := Text(a.name)]
    ensures a.Dict? ==> d.config == a.config
    ensures a.Existing? ==> d == a.deployment
  {
    match a
    case Bare(s) => Deployment(map["name" := Text(s)])
    case Dict(c) => Deployment(c)
    case Existing(d) => d
  }

  /** `deployment["name"]`, raising `KeyError` when the name is missing. */
  function NameOf(d: Deployment): (r: Result<string>)
    requires WellTyped(d.config)
    ensures r.Ok? <==> "name" in d.config
    ensures r.Ok? ==> d.config["name"] == Text(r.value)
    ensures r.Err? ==> r.error == KeyError("name")
  {
    if "name" in d.config then Ok(d.config["name"].text) else Err(KeyError("name"))
  }

  predicate ArgOk(a: Arg) {
    WellTyped(Convert(a).config)
  }

  /** The `Deployments` state: names in insertion order and the table behind them. */
  datatype Store = Store(order: seq<string>, table: map<string, Deployment>)

  ghost predicate StoreValid(s: Store) {
    && Distinct(s.order)
    && (forall n :: n in s.table <==> n in s.order)
    && (forall n :: n in s.table ==> WellTyped(s.table[n].config) && NameOf(s.table[n]) == Ok(n))
  }

  /** The deployments in iteration order. */
  function Listed(s: Store): (ds: seq<Deployment>)
    requires forall n :: n in s.order ==> n in s.table
    ensures |ds| == |s.order|
    ensures forall i :: 0 <= i < |ds| ==> ds[i] == s.table[s.order[i]]
  {
    seq(|s.order|, i requires 0 <= i < |s.order| => s.table[s.order[i]])
  }

  /** `Deployments.add` on the abstract state: a duplicate name is ignored. */
  function AddTo(s: Store, a: Arg): (r: Result<Store>)
    requires ArgOk(a)
    ensures r.Err? <==> NameOf(Convert(a)).Err?
    ensures r.Err? ==> r.error == KeyError("name")
  {
    match NameOf(Convert(a))
    case Err(e) => Err(e)
    case Ok(n) =>
      if n in s.table then Ok(s) else Ok(Store(s.order + [n], s.table[n := Convert(a)]))
  }

  /** `Deployments(configs)`: the configurations added one by one, from the left. */
  function Collect(args: seq<Arg>): Result<Store>
    requires forall i :: 0 <= i < |args| ==> ArgOk(args[i])
  {
    if args == [] then Ok(Store([], map[]))
    else match Collect(args[..|args| - 1])
      case Err(e) => Err(e)
      case Ok(s) => AddTo(s, args[|args| - 1])
  }

  /** `Deployments.write` at the list level: one config dict per deployment, in order. */
  function Written(s: Store): (configs: seq<Arg>)
    requires forall n :: n in s.order ==> n in s.table
    ensures |configs| == |s.order|
    ensures forall i :: 0 <= i < |configs| ==> configs[i] == Dict(s.table[s.order[i]].config)
  {
    seq(|s.order|, i requires 0 <= i < |s.order| => Dict(s.table[s.order[i]].config))
  }

  /** The distinct elements of a sequence in first-occurrence order. */
  function Dedup(xs: seq<string>): (r: seq<string>)
  {
    if xs == [] then []
    else var d := Dedup(xs[..|xs| - 1]);
      if xs[|xs| - 1] in d then d else d + [xs[|xs| - 1]]
  }

  /** The source of a deployment's code (gatherer's `Source`), abstracted to its fields. */
  datatype Source = Source(name: string, url: string, credentialsPath: string)

  const MisconfiguredGit := "Cannot retrieve Git repository: misconfiguration"

  /** `Deployment.get_source`: `ValueError` without `git_url`; `KeyError` for a
      missing `name` or `deploy_key`. */
  function GetSource(d: Deployment): (r: Result<Source>)
    requires WellTyped(d.config)
    ensures r.Err? && r.error.ValueError? <==> "git_url" !in d.config
    ensures r.Ok? ==> "name" in d.config && "deploy_key" in d.config
    ensures "git_url" in d.config && "name" !in d.config ==> r == Err(KeyError("name"))
    ensures "git_url" in d.config && "name" in d.config && "deploy_key" !in d.config ==> r == Err(KeyError("deploy_key"))
    ensures r.Ok? ==> r.value == Source(d.config["name"].text, d.config["git_url"].text, d.config["deploy_key"].text)
  {
    if "git_url" !in d.config then Err(ValueError(MisconfiguredGit))
    else if "name" !in d.config then Err(KeyError("name"))
    else if "deploy_key" !in d.config then Err(KeyError("deploy_key"))
    else Ok(Source(d.config["name"].text, d.config["git_url"].text, d.config["deploy_key"].text))
  }

  /** Git as seen by the core: whether a checkout exists at a path, its HEAD commit,
      and whether a revision is the upstream HEAD of the source's branch. */
  datatype Git = Git(
    hasCheckout: string -> bool,
    head: string -> string,
    upToDate: (Source, string) -> bool)

  /** `Deployment.is_up_to_date`. */
  function IsUpToDate(d: Deployment, git: Git): (r: Result<bool>)
    requires WellTyped(d.config)
    ensures GetSource(d).Err? && GetSource(d).error.ValueError? ==> r == Ok(false)
    ensures r == Ok(true) ==> GetSource(d).Ok? && "git_path" in d.config
    ensures r == Ok(true) ==> git.hasCheckout(d.config["git_path"].text)
    ensures r == Ok(true) ==> git.upToDate(GetSource(d).value, git.head(d.config["git_path"].text))
    ensures GetSource(d).Err? && !GetSource(d).error.ValueError? ==> r == Err(GetSource(d).error)
    ensures GetSource(d).Ok? && "git_path" !in d.config ==> r == Err(KeyError("git_path"))
    ensures GetSource(d).Ok? && "git_path" in d.config ==>
      var path := d.config["git_path"].text;
      r == Ok(git.hasCheckout(path) && git.upToDate(GetSource(d).value, git.head(path)))
  {
    match GetSource(d)
    case Err(e) => if e.ValueError? then Ok(false) else Err(e)
    case Ok(source) =>
      if "git_path" !in d.config then Err(KeyError("git_path"))
      else
        var path := d.config["git_path"].text;
        if !git.hasCheckout(path) then Ok(false)
        else Ok(git.upToDate(source, git.head(path)))
  }

  /** `xs` without the element `n`, the others in their order. */
  function Without(xs: seq<string>, n: string): (r: seq<string>)
    ensures forall x :: x in r <==> x in xs && x != n
    ensures Distinct(xs) ==> Distinct(r)
    ensures n !in xs ==> r == xs
    ensures Distinct(xs) ==> forall i :: 0 <= i < |xs| && xs[i] == n ==> r == xs[..i] + xs[i + 1..]
  {
    if xs == [] then []
    else
      var rest := Without(xs[1..], n);
      assert Distinct(xs) ==> Distinct(xs[1..]);
      if xs[0] == n then
        assert Distinct(xs) ==> n !in xs[1..];
        rest
      else
        assert forall i :: 0 <= i < |rest| ==> rest[i] in xs[1..];
        assert [xs[0]] + xs[1..] == xs;
        WithoutCons(xs, n, rest);
        [xs[0]] + rest
  }

  /** Putting back an element other than `n` in front keeps `n` deleted in place. */
  lemma WithoutCons(xs: seq<string>, n: string, rest: seq<string>)
    requires xs != [] && xs[0] != n
    requires Distinct(xs[1..]) ==> forall i :: 0 <= i < |xs[1..]| && xs[1..][i] == n ==> rest == xs[1..][..i] + xs[1..][i + 1..]
    ensures Distinct(xs) ==> forall i :: 0 <= i < |xs| && xs[i] == n ==> [xs[0]] + rest == xs[..i] + xs[i + 1..]
  {
    if Distinct(xs) {
      assert Distinct(xs[1..]);
      forall i | 0 <= i < |xs| && xs[i] == n
        ensures [xs[0]] + rest == xs[..i] + xs[i + 1..]
      {
        assert xs[1..][i - 1] == n;
        assert xs[..i] == [xs[0]] + xs[1..][..i - 1];
        assert xs[i + 1..] == xs[1..][i..];
      }
    }
  }

  /** `Deployments.discard` on the abstract state: an absent name changes nothing. */
  function DiscardFrom(s: Store, a: Arg): (r: Result<Store>)
    requires ArgOk(a)
    ensures r.Err? <==> NameOf(Convert(a)).Err?
    ensures r.Err? ==> r.error == KeyError("name")
  {
    match NameOf(Convert(a))
    case Err(e) => Err(e)
    case Ok(n) =>
      if n !in s.table then Ok(s) else Ok(Store(Without(s.order, n), s.table - {n}))
  }

  /** Once adding a configuration fails, constructing from a longer list fails the same way. */
  lemma {:induction false} CollectErrPersists(args: seq<Arg>, i: nat)
    requires forall j :: 0 <= j < |args| ==> ArgOk(args[j])
    requires i <= |args| && Collect(args[..i]).Err?
    ensures Collect(args) == Collect(args[..i])
  {
    if i < |args| {
      assert args[..|args| - 1][..i] == args[..i];
      CollectErrPersists(args[..|args| - 1], i);
    } else {
      assert args[..i] == args;
    }
  }

  /** A set of deployments (`Deployments`): an insertion-ordered table keyed by name. */
  class Deployments {
    var order: seq<string>
    var table: map<string, Deployment>

    ghost predicate Valid()
      reads this
    {
      StoreValid(State())
    }

    function State(): Store
      reads this
    {
      Store(order, table)
    }

    constructor Empty()
      ensures Valid() && order == [] && table == map[]
    {
      order := [];
      table := map[];
    }

    /** `Deployments(configs)`: adds each configuration in turn; a configuration
        without a name raises `KeyError` and no set is built. */
    static method Create(args: seq<Arg>) returns (r: Result<Deployments>)
      requires forall i :: 0 <= i < |args| ==> ArgOk(args[i])
      ensures r.Ok? <==> Collect(args).Ok?
      ensures r.Err? ==> r.error == Collect(args).error
      ensures r.Ok? ==> fresh(r.value) && r.value.Valid() && r.value.State() == Collect(args).value
    {
      var ds := new Deployments.Empty();
      var i := 0;
      while i < |args|
        invariant 0 <= i <= |args|
        invariant fresh(ds) && ds.Valid()
        invariant Collect(args[..i]) == Ok(ds.State())
      {
        assert args[..i + 1][..i] == args[..i];
        var err := ds.Add(args[i]);
        if err.Some? {
          CollectErrPersists(args, i + 1);
          return Err(err.value);
        }
        i := i + 1;
      }
      assert args[..i] == args;
      return Ok(ds);
    }

    /** `value in deployments`: whether the converted value's name is stored. */
    method Contains(a: Arg) returns (r: Result<bool>)
      requires Valid() && ArgOk(a)
      ensures r.Ok? <==> NameOf(Convert(a)).Ok?
      ensures r.Err? ==> r.error == KeyError("name")
      ensures r.Ok? ==> (r.value <==> NameOf(Convert(a)).value in order)
    {
      match NameOf(Convert(a))
      case Err(e) => r := Err(e);
      case Ok(n) => r := Ok(n in table);
    }

    /** `deployments.get(value)`: `KeyError` exactly when the name is not stored. */
    method Get(a: Arg) returns (r: Result<Deployment>)
      requires Valid() && ArgOk(a)
      ensures NameOf(Convert(a)).Err? ==> r == Err(KeyError("name"))
      ensures NameOf(Convert(a)).Ok? ==>
        var n := NameOf(Convert(a)).value;
        (r.Ok? <==> n in order) && (r.Err? ==> r.error == KeyError(n))
        && (r.Ok? ==> r.value == table[n] && NameOf(r.value) == Ok(n))
    {
      match NameOf(Convert(a))
      case Err(e) => r := Err(e);
      case Ok(n) =>
        if n in table { r := Ok(table[n]); } else { r := Err(KeyError(n)); }
    }

    /** `iter(deployments)`: every stored deployment once, in insertion order. */
    method Iterate() returns (ds: seq<Deployment>)
      requires Valid()
      ensures |ds| == |order|
      ensures forall i :: 0 <= i < |ds| ==> ds[i] == table[order[i]] && NameOf(ds[i]) == Ok(order[i])
    {
      ds := Listed(State());
    }

    /** `len(deployments)`: the number of distinct names stored. */
    method Length() returns (n: nat)
      requires Valid()
      ensures n == |order| == |table|
    {
      DistinctCardinality(order, table.Keys);
      n := |table|;
    }

    /** `deployments.add(value)`: a new name is appended; a stored name is left
        as it is, whatever the new configuration holds. */
    method Add(a: Arg) returns (err: Option<Error>)
      requires Valid() && ArgOk(a)
      modifies this
      ensures Valid()
      ensures err.None? <==> AddTo(old(State()), a).Ok?
      ensures err.None? ==> State() == AddTo(old(State()), a).value
      ensures err.Some? ==> err.value == KeyError("name") && State() == old(State())
    {
      var d := Convert(a);
      match NameOf(d)
      case Err(e) => err := Some(e);
      case Ok(n) =>
        err := None;
        if n in table {
          return;
        }
        order := order + [n];
        table := table[n := d];
    }

    /** `deployments.discard(value)`: removes that name only; an absent name is not an error. */
    method Discard(a: Arg) returns (err: Option<Error>)
      requires Valid() && ArgOk(a)
      modifies this
      ensures Valid()
      ensures err.None? <==> DiscardFrom(old(State()), a).Ok?
      ensures err.None? ==> State() == DiscardFrom(old(State()), a).value
      ensures err.Some? ==> err.value == KeyError("name") && State() == old(State())
    {
      match NameOf(Convert(a))
      case Err(e) => err := Some(e);
      case Ok(n) =>
        err := None;
        if n !in table {
          return;
        }
        order := Without(order, n);
        table := table - {n};
    }
  }

  /** A sequence without repetitions has as many elements as the set of its elements. */
  lemma {:induction false} DistinctCardinality(xs: seq<string>, s: set<string>)
    requires Distinct(xs) && forall x :: x in s <==> x in xs
    ensures |s| == |xs|
  {
    if xs != [] {
      var last := xs[|xs| - 1];
      var init := xs[..|xs| - 1];
      assert forall x :: x in init ==> x in xs;
      assert last !in init by {
        forall i | 0 <= i < |init| ensures init[i] != last { assert init[i] == xs[i]; }
      }
      forall x ensures x in s - {last} <==> x in init {
        if x in xs && x != last {
          var k :| 0 <= k < |xs| && xs[k] == x;
          assert k < |xs| - 1 && init[k] == x;
        }
      }
      DistinctCardinality(init, s - {last});
    }
  }
}
