/** `modify_docker_compose_file` of the bank monitor: load the compose template
    for the interface, overwrite a fixed set of keys under `services.bank`, chosen
    by the algorithm and the interface, and write the result as
    `docker-compose_modify.yaml`. The YAML documents are trees; loading and dumping
    them is not modelled. */
module Compose {
  import opened Base

  /** A YAML document as `yaml.safe_load` returns it. */
  datatype Yaml =
    | Mapping(entries: map<string, Yaml>)
    | Sequence(items: seq<Yaml>)
    | Scalar(text: string)
    | Integer(value: int)
    | Null

  /** The exceptions the rewrite can raise: `open` on a missing template, a
      `KeyError` on a missing key, a `TypeError` on subscripting a non-mapping. */
  datatype ComposeError = NoTemplate(file: string) | MissingKey(key: string) | NotAMapping

  /** `d[p0][p1]...`, when every step exists. */
  function Get(d: Yaml, path: seq<string>): Option<Yaml>
    decreases |path|
  {
    if path == [] then Some(d)
    else if d.Mapping? && path[0] in d.entries then Get(d.entries[path[0]], path[1..])
    else None
  }

  function Parent(path: seq<string>): seq<string>
    requires path != []
  {
    path[..|path| - 1]
  }

  /** The assignment `d[p0]...[pn] = v` can be made: the parent exists and is a
      mapping. */
  predicate Settable(d: Yaml, path: seq<string>)
    requires path != []
  {
    Get(d, Parent(path)).Some? && Get(d, Parent(path)).value.Mapping?
  }

  /** `d[p0]...[pn] = v` on a copy of `d`: every step but the last must exist,
      and the last may add a key. */
  function Set(d: Yaml, path: seq<string>, v: Yaml): (r: Result<Yaml, ComposeError>)
    requires path != []
    ensures r.Success? ==> r.value.Mapping?
    decreases |path|
  {
    if !d.Mapping? then Failure(NotAMapping)
    else if |path| == 1 then Success(Mapping(d.entries[path[0] := v]))
    else if path[0] !in d.entries then Failure(MissingKey(path[0]))
    else match Set(d.entries[path[0]], path[1..], v)
      case Failure(e) => Failure(e)
      case Success(child) => Success(Mapping(d.entries[path[0] := child]))
  }

  predicate Prefix(p: seq<string>, q: seq<string>) {
    |p| <= |q| && q[..|p|] == p
  }

  /** Neither path lies under the other. */
  predicate Unrelated(p: seq<string>, q: seq<string>) {
    !Prefix(p, q) && !Prefix(q, p)
  }

  /** An assignment succeeds exactly when it can be made. */
  lemma {:induction false} SetSucceeds(d: Yaml, path: seq<string>, v: Yaml)
    requires path != []
    ensures Set(d, path, v).Success? <==> Settable(d, path)
    decreases |path|
  {
    if d.Mapping? && |path| > 1 {
      assert Parent(path) == [path[0]] + Parent(path[1..]);
      assert Parent(path)[1..] == Parent(path[1..]);
      if path[0] in d.entries {
        SetSucceeds(d.entries[path[0]], path[1..], v);
      }
    } else if |path| == 1 {
      assert Parent(path) == [];
    }
  }

  /** After the assignment the path holds the value. */
  lemma {:induction false} SetGet(d: Yaml, path: seq<string>, v: Yaml)
    requires path != [] && Set(d, path, v).Success?
    ensures Get(Set(d, path, v).value, path) == Some(v)
    decreases |path|
  {
    if |path| > 1 {
      SetGet(d.entries[path[0]], path[1..], v);
    }
  }

  /** The assignment changes no path that is neither above nor below it. */
  lemma {:induction false} SetOther(d: Yaml, path: seq<string>, v: Yaml, q: seq<string>)
    requires path != [] && Set(d, path, v).Success? && Unrelated(path, q)
    ensures Get(Set(d, path, v).value, q) == Get(d, q)
    decreases |path|
  {
    assert path[..0] == [];
    assert q != [];
    assert q[..1] == [q[0]];
    if q[0] == path[0] && |path| > 1 {
      PrefixTail(path, q);
      PrefixTail(q, path);
      SetOther(d.entries[path[0]], path[1..], v, q[1..]);
    }
  }

  /** Dropping a common first key keeps the prefix relation. */
  lemma PrefixTail(p: seq<string>, q: seq<string>)
    requires p != [] && q != [] && p[0] == q[0]
    ensures Prefix(p[1..], q[1..]) <==> Prefix(p, q)
  {
    if |p| <= |q| {
      assert q[..|p|] == [q[0]] + q[1..][..|p| - 1];
    }
  }

  /** Every mapping above the assigned path is still a mapping afterwards. */
  lemma {:induction false} SetAbove(d: Yaml, path: seq<string>, v: Yaml, q: seq<string>)
    requires path != [] && Set(d, path, v).Success? && Prefix(q, path) && |q| < |path|
    ensures Get(Set(d, path, v).value, q).Some? && Get(Set(d, path, v).value, q).value.Mapping?
    decreases |path|
  {
    if q != [] {
      assert q[0] == path[0];
      assert Prefix(q[1..], path[1..]);
      SetAbove(d.entries[path[0]], path[1..], v, q[1..]);
    }
  }

  /** A step above an existing path is a mapping. */
  lemma {:induction false} GetAbove(d: Yaml, q: seq<string>, path: seq<string>)
    requires Prefix(q, path) && |q| < |path| && Get(d, path).Some?
    ensures Get(d, q).Some? && Get(d, q).value.Mapping?
    decreases |q|
  {
    if q != [] {
      assert q[0] == path[0];
      assert Prefix(q[1..], path[1..]);
      GetAbove(d.entries[path[0]], q[1..], path[1..]);
    }
  }

  /** An assignment keeps every other assignment possible (or impossible) whose
      parent lies above it or beside it. */
  lemma SetKeepsSettable(d: Yaml, path: seq<string>, v: Yaml, q: seq<string>)
    requires path != [] && q != [] && Set(d, path, v).Success?
    requires (Prefix(Parent(q), path) && |Parent(q)| < |path|) || Unrelated(path, Parent(q))
    ensures Settable(Set(d, path, v).value, q) <==> Settable(d, q)
  {
    if Unrelated(path, Parent(q)) {
      SetOther(d, path, v, Parent(q));
    } else {
      SetSucceeds(d, path, v);
      SetAbove(d, path, v, Parent(q));
      if |Parent(q)| < |Parent(path)| {
        assert Parent(path)[..|Parent(q)|] == path[..|Parent(q)|];
        GetAbove(d, Parent(q), Parent(path));
      } else {
        assert Parent(q) == Parent(path);
      }
    }
  }

  /** One `data[...][...] = value` statement. */
  datatype Assignment = Assignment(path: seq<string>, value: Yaml)

  /** The statements in order, stopping at the first that raises. */
  function Apply(d: Yaml, steps: seq<Assignment>): Result<Yaml, ComposeError>
    requires forall i :: 0 <= i < |steps| ==> steps[i].path != []
    decreases |steps|
  {
    if steps == [] then Success(d)
    else match Set(d, steps[0].path, steps[0].value)
      case Failure(e) => Failure(e)
      case Success(next) => Apply(next, steps[1..])
  }

  /** Two assigned paths that can be made in either order without one undoing the
      other's shape: they are the same or beside each other, and the parent of the
      second lies above or beside the first. */
  predicate Compatible(p: seq<string>, q: seq<string>)
    requires q != []
  {
    && (p == q || Unrelated(p, q))
    && ((Prefix(Parent(q), p) && |Parent(q)| < |p|) || Unrelated(p, Parent(q)))
  }

  /** The assigned paths are leaves: every two of them are compatible. */
  predicate Leaves(steps: seq<Assignment>) {
    && (forall i :: 0 <= i < |steps| ==> steps[i].path != [])
    && (forall i, j :: 0 <= i < |steps| && 0 <= j < |steps| ==> Compatible(steps[i].path, steps[j].path))
  }

  /** The last value assigned to `q`. */
  function LastAssigned(steps: seq<Assignment>, q: seq<string>): Option<Yaml> {
    if steps == [] then None
    else match LastAssigned(steps[1..], q)
      case Some(v) => Some(v)
      case None => if steps[0].path == q then Some(steps[0].value) else None
  }

  /** Nothing was assigned to `q` exactly when no statement names it. */
  lemma {:induction false} LastAssignedNone(steps: seq<Assignment>, q: seq<string>)
    ensures LastAssigned(steps, q).None? <==> forall i :: 0 <= i < |steps| ==> steps[i].path != q
  {
    if steps != [] {
      LastAssignedNone(steps[1..], q);
      assert forall i :: 1 <= i < |steps| ==> steps[i].path == steps[1..][i - 1].path;
    }
  }

  /** The statements after the first are leaves too. */
  lemma LeavesTail(steps: seq<Assignment>)
    requires Leaves(steps) && steps != []
    ensures Leaves(steps[1..])
  {
    assert forall i :: 0 <= i < |steps| - 1 ==> steps[1..][i] == steps[i + 1];
  }

  /** The statements all succeed exactly when each could be made on the template. */
  lemma {:induction false} ApplySucceeds(d: Yaml, steps: seq<Assignment>)
    requires Leaves(steps)
    ensures Apply(d, steps).Success? <==> forall i :: 0 <= i < |steps| ==> Settable(d, steps[i].path)
    decreases |steps|
  {
    if steps != [] {
      var p := steps[0].path;
      var rest := steps[1..];
      LeavesTail(steps);
      SetSucceeds(d, p, steps[0].value);
      if Set(d, p, steps[0].value).Success? {
        var next := Set(d, p, steps[0].value).value;
        ApplySucceeds(next, rest);
        forall i | 1 <= i < |steps| ensures Settable(next, steps[i].path) <==> Settable(d, steps[i].path) {
          assert Compatible(p, steps[i].path);
          SetKeepsSettable(d, p, steps[0].value, steps[i].path);
        }
        assert forall i :: 0 <= i < |rest| ==> rest[i] == steps[i + 1];
      }
    }
  }

  /** After the statements, an assigned path holds its last value and a path
      beside every assigned one holds what the template held. */
  lemma {:induction false} ApplyGet(d: Yaml, steps: seq<Assignment>, q: seq<string>)
    requires Leaves(steps) && Apply(d, steps).Success?
    ensures LastAssigned(steps, q).Some? ==> Get(Apply(d, steps).value, q) == LastAssigned(steps, q)
    ensures (forall i :: 0 <= i < |steps| ==> Unrelated(steps[i].path, q)) ==> Get(Apply(d, steps).value, q) == Get(d, q)
    decreases |steps|
  {
    if steps != [] {
      var p := steps[0].path;
      var next := Set(d, p, steps[0].value).value;
      var rest := steps[1..];
      assert Leaves(rest) by {
        assert forall i :: 0 <= i < |rest| ==> rest[i] == steps[i + 1];
      }
      ApplyGet(next, rest, q);
      LastAssignedNone(rest, q);
      if LastAssigned(rest, q).None? {
        if p == q {
          forall i | 0 <= i < |rest| ensures Unrelated(rest[i].path, q) {
            assert rest[i] == steps[i + 1];
            assert Compatible(rest[i].path, p);
          }
          SetGet(d, p, steps[0].value);
        } else if forall i :: 0 <= i < |steps| ==> Unrelated(steps[i].path, q) {
          forall i | 0 <= i < |rest| ensures Unrelated(rest[i].path, q) {
            assert rest[i] == steps[i + 1];
          }
          SetOther(d, p, steps[0].value, q);
        }
      } else {
        assert Prefix(q, q);
        assert forall i :: 0 <= i < |rest| ==> rest[i] == steps[i + 1];
      }
    }
  }

  const Bank: seq<string> := ["services", "bank"]
  const EnvDir: seq<string> := Bank + ["environment"]
  const Volumes: seq<string> := Bank + ["volumes"]
  const Image: seq<string> := Bank + ["image"]

  function Env(key: string): seq<string> {
    EnvDir + [key]
  }

  /** A key of the bank service itself (other than `environment`) or a key of its
      environment. */
  predicate Leaf(q: seq<string>) {
    || (|q| == 3 && q[..2] == Bank && q[2] != "environment")
    || (|q| == 4 && q[..3] == EnvDir)
  }

  /** Two such keys are the same or beside each other, and the parent of one lies
      above or beside the other. */
  lemma LeafPair(p: seq<string>, q: seq<string>)
    requires Leaf(p) && Leaf(q)
    ensures Compatible(p, q)
  {
    assert p[..2] == Bank by {
      if |p| == 4 {
        assert p[..2] == p[..3][..2];
      }
    }
  }

  /** The bank service's environment exists and is a mapping (so the service and
      `services` are mappings too). */
  predicate BankShape(d: Yaml) {
    Get(d, EnvDir).Some? && Get(d, EnvDir).value.Mapping?
  }

  /** Such a key can be assigned exactly when the template has that shape... or,
      for a key of the service itself, the service is a mapping. */
  lemma LeafSettable(d: Yaml, p: seq<string>)
    requires Leaf(p)
    ensures |p| == 4 ==> (Settable(d, p) <==> BankShape(d))
    ensures BankShape(d) ==> Settable(d, p)
  {
    if BankShape(d) && |p| == 3 {
      GetAbove(d, Bank, EnvDir);
    }
  }

  /** What an algorithm name selects: the image, the `ALGORITHM` value and the
      database driver used with the SQL interface. */
  datatype Runtime = Runtime(image: string, algorithm: string, driver: string)

  function RuntimeOf(algorithm: string): (r: Option<Runtime>)
    ensures r.Some? <==> algorithm in {"platform", "virtual", "coroutines", "goroutines"}
    ensures r.Some? ==> r.value.image in {"bank-java", "bank-kotlin", "bank-go"}
  {
    if algorithm == "platform" then Some(Runtime("bank-java", "PLATFORM", "JDBC"))
    else if algorithm == "virtual" then Some(Runtime("bank-java", "VIRTUAL", "JDBC"))
    else if algorithm == "coroutines" then Some(Runtime("bank-kotlin", "COROUTINE", "R2DBC"))
    else if algorithm == "goroutines" then Some(Runtime("bank-go", "GOROUTINE", "PGX"))
    else None
  }

  function VolumeList(mount: string): Yaml {
    Sequence([Scalar(mount)])
  }

  function GoVolume(goVolume: bool): seq<Assignment> {
    if goVolume then [Assignment(Volumes, VolumeList("./bankData:/app/bankData"))] else []
  }

  function SqlSteps(rt: Runtime, sql: bool): seq<Assignment> {
    if sql then [Assignment(Env("INTERFACE_TYPE"), Scalar(rt.driver)), Assignment(Env("DB_HOST"), Scalar("postgres"))]
    else []
  }

  /** The assignments of a known algorithm, in order: image and `ALGORITHM`, the
      Go volume, then the SQL settings. */
  function RuntimeSteps(rt: Runtime, goVolume: bool, sql: bool): seq<Assignment> {
    [Assignment(Image, Scalar(rt.image))] + [Assignment(Env("ALGORITHM"), Scalar(rt.algorithm))]
    + GoVolume(goVolume) + SqlSteps(rt, sql)
  }

  function RuntimeAssignments(algorithm: string, iface: string): seq<Assignment> {
    match RuntimeOf(algorithm)
    case None => []
    case Some(rt) => RuntimeSteps(rt, algorithm == "goroutines", iface == "SQL")
  }

  /** The assignments of the rewrite, in the order the function makes them. */
  function Assignments(algorithm: string, iface: string, accounts: string, transactions: int): seq<Assignment> {
    [Assignment(Volumes, VolumeList("./bankData:/bankData"))]
    + RuntimeAssignments(algorithm, iface)
    + ([Assignment(Env("NUMBER_OF_ACCOUNTS"), Scalar(accounts))]
       + [Assignment(Env("NUMBER_OF_TRANSACTIONS"), Integer(transactions))])
  }

  /** The paths the rewrite may assign. */
  predicate Touched(q: seq<string>) {
    || q == Volumes || q == Image || q == Env("ALGORITHM") || q == Env("INTERFACE_TYPE")
    || q == Env("DB_HOST") || q == Env("NUMBER_OF_ACCOUNTS") || q == Env("NUMBER_OF_TRANSACTIONS")
  }

  lemma TouchedIsLeaf(q: seq<string>)
    requires Touched(q)
    ensures Leaf(q)
  {
    assert forall k :: Env(k)[..3] == EnvDir;
  }

  lemma AssignmentsAreLeaves(algorithm: string, iface: string, accounts: string, transactions: int)
    ensures var steps := Assignments(algorithm, iface, accounts, transactions);
      && Leaves(steps)
      && (forall i :: 0 <= i < |steps| ==> Touched(steps[i].path))
  {
    var steps := Assignments(algorithm, iface, accounts, transactions);
    assert forall i :: 0 <= i < |steps| ==> Touched(steps[i].path);
    forall i, j | 0 <= i < |steps| && 0 <= j < |steps| ensures Compatible(steps[i].path, steps[j].path) {
      TouchedIsLeaf(steps[i].path);
      TouchedIsLeaf(steps[j].path);
      LeafPair(steps[i].path, steps[j].path);
    }
  }

  /** The rewrite's table, key by key: what each key holds afterwards, or `None`
      where the template's value stays. */
  function Expected(algorithm: string, iface: string, accounts: string, transactions: int, q: seq<string>)
    : Option<Yaml>
  {
    if q == Volumes then
      Some(VolumeList(if algorithm == "goroutines" then "./bankData:/app/bankData" else "./bankData:/bankData"))
    else if q == Env("NUMBER_OF_ACCOUNTS") then Some(Scalar(accounts))
    else if q == Env("NUMBER_OF_TRANSACTIONS") then Some(Integer(transactions))
    else match RuntimeOf(algorithm)
      case None => None
      case Some(rt) =>
        if q == Image then Some(Scalar(rt.image))
        else if q == Env("ALGORITHM") then Some(Scalar(rt.algorithm))
        else if iface == "SQL" && q == Env("INTERFACE_TYPE") then Some(Scalar(rt.driver))
        else if iface == "SQL" && q == Env("DB_HOST") then Some(Scalar("postgres"))
        else None
  }

  lemma {:induction false} LastAssignedAppend(a: seq<Assignment>, b: seq<Assignment>, q: seq<string>)
    ensures LastAssigned(a + b, q) == if LastAssigned(b, q).Some? then LastAssigned(b, q) else LastAssigned(a, q)
    decreases |a|
  {
    if a == [] {
      assert a + b == b;
    } else {
      assert (a + b)[1..] == a[1..] + b;
      LastAssignedAppend(a[1..], b, q);
    }
  }

  lemma LastAssignedOne(x: Assignment, q: seq<string>)
    ensures LastAssigned([x], q) == if x.path == q then Some(x.value) else None
  {
    assert [x][1..] == [];
  }

  lemma PathsDistinct()
    ensures Volumes != Image
    ensures Env("ALGORITHM") != Volumes && Env("ALGORITHM") != Image
    ensures Env("INTERFACE_TYPE") != Volumes && Env("INTERFACE_TYPE") != Image && Env("INTERFACE_TYPE") != Env("ALGORITHM")
    ensures Env("DB_HOST") != Volumes && Env("DB_HOST") != Image && Env("DB_HOST") != Env("ALGORITHM")
    ensures Env("DB_HOST") != Env("INTERFACE_TYPE")
    ensures Env("NUMBER_OF_ACCOUNTS") != Volumes && Env("NUMBER_OF_ACCOUNTS") != Image
    ensures Env("NUMBER_OF_ACCOUNTS") != Env("ALGORITHM") && Env("NUMBER_OF_ACCOUNTS") != Env("INTERFACE_TYPE")
    ensures Env("NUMBER_OF_ACCOUNTS") != Env("DB_HOST")
    ensures Env("NUMBER_OF_TRANSACTIONS") != Volumes && Env("NUMBER_OF_TRANSACTIONS") != Image
    ensures Env("NUMBER_OF_TRANSACTIONS") != Env("ALGORITHM") && Env("NUMBER_OF_TRANSACTIONS") != Env("INTERFACE_TYPE")
    ensures Env("NUMBER_OF_TRANSACTIONS") != Env("DB_HOST") && Env("NUMBER_OF_TRANSACTIONS") != Env("NUMBER_OF_ACCOUNTS")
  {
    assert Volumes[2] != Image[2];
    assert |Env("ALGORITHM")| != |Volumes|;
    assert Env("ALGORITHM")[3] != Env("INTERFACE_TYPE")[3];
    assert Env("ALGORITHM")[3] != Env("DB_HOST")[3];
    assert Env("ALGORITHM")[3] != Env("NUMBER_OF_ACCOUNTS")[3];
    assert Env("ALGORITHM")[3] != Env("NUMBER_OF_TRANSACTIONS")[3];
    assert Env("INTERFACE_TYPE")[3] != Env("DB_HOST")[3];
    assert Env("INTERFACE_TYPE")[3] != Env("NUMBER_OF_ACCOUNTS")[3];
    assert Env("INTERFACE_TYPE")[3] != Env("NUMBER_OF_TRANSACTIONS")[3];
    assert Env("DB_HOST")[3] != Env("NUMBER_OF_ACCOUNTS")[3];
    assert Env("DB_HOST")[3] != Env("NUMBER_OF_TRANSACTIONS")[3];
    assert Env("NUMBER_OF_ACCOUNTS")[3] != Env("NUMBER_OF_TRANSACTIONS")[3];
  }

  /** What the assignments of a known algorithm leave on a key. */
  function RuntimeExpected(rt: Runtime, goVolume: bool, sql: bool, q: seq<string>): Option<Yaml> {
    if q == Volumes then (if goVolume then Some(VolumeList("./bankData:/app/bankData")) else None)
    else if q == Image then Some(Scalar(rt.image))
    else if q == Env("ALGORITHM") then Some(Scalar(rt.algorithm))
    else if sql && q == Env("INTERFACE_TYPE") then Some(Scalar(rt.driver))
    else if sql && q == Env("DB_HOST") then Some(Scalar("postgres"))
    else None
  }

  lemma RuntimeStepsLast(rt: Runtime, goVolume: bool, sql: bool, q: seq<string>)
    ensures LastAssigned(RuntimeSteps(rt, goVolume, sql), q) == RuntimeExpected(rt, goVolume, sql, q)
  {
    PathsDistinct();
    var i := [Assignment(Image, Scalar(rt.image))];
    var a := [Assignment(Env("ALGORITHM"), Scalar(rt.algorithm))];
    var g := GoVolume(goVolume);
    var s := SqlSteps(rt, sql);
    LastAssignedAppend(i + a + g, s, q);
    LastAssignedAppend(i + a, g, q);
    LastAssignedAppend(i, a, q);
    LastAssignedOne(i[0], q);
    LastAssignedOne(a[0], q);
    if goVolume {
      LastAssignedOne(g[0], q);
    }
    if sql {
      LastAssignedAppend([s[0]], [s[1]], q);
      assert s == [s[0]] + [s[1]];
      LastAssignedOne(s[0], q);
      LastAssignedOne(s[1], q);
    }
  }

  /** The volume assignment first and the two counts last, around any `mid`. */
  lemma FrameLast(mid: seq<Assignment>, accounts: string, transactions: int, q: seq<string>)
    ensures LastAssigned([Assignment(Volumes, VolumeList("./bankData:/bankData"))] + mid
                         + ([Assignment(Env("NUMBER_OF_ACCOUNTS"), Scalar(accounts))]
                            + [Assignment(Env("NUMBER_OF_TRANSACTIONS"), Integer(transactions))]), q)
         == if q == Env("NUMBER_OF_TRANSACTIONS") then Some(Integer(transactions))
            else if q == Env("NUMBER_OF_ACCOUNTS") then Some(Scalar(accounts))
            else if LastAssigned(mid, q).Some? then LastAssigned(mid, q)
            else if q == Volumes then Some(VolumeList("./bankData:/bankData"))
            else None
  {
    var head := [Assignment(Volumes, VolumeList("./bankData:/bankData"))];
    var n := [Assignment(Env("NUMBER_OF_ACCOUNTS"), Scalar(accounts))];
    var t := [Assignment(Env("NUMBER_OF_TRANSACTIONS"), Integer(transactions))];
    LastAssignedAppend(head + mid, n + t, q);
    LastAssignedAppend(head, mid, q);
    LastAssignedAppend(n, t, q);
    LastAssignedOne(head[0], q);
    LastAssignedOne(n[0], q);
    LastAssignedOne(t[0], q);
  }

  /** The table for a known algorithm, on keys the algorithm part may set. */
  lemma KnownKeyFollowsTable(algorithm: string, iface: string, accounts: string, transactions: int,
                             q: seq<string>, rt: Runtime)
    requires RuntimeOf(algorithm) == Some(rt)
    requires q != Env("NUMBER_OF_ACCOUNTS") && q != Env("NUMBER_OF_TRANSACTIONS")
    ensures LastAssigned(Assignments(algorithm, iface, accounts, transactions), q)
         == Expected(algorithm, iface, accounts, transactions, q)
  {
    var goVolume, sql := algorithm == "goroutines", iface == "SQL";
    FrameLast(RuntimeSteps(rt, goVolume, sql), accounts, transactions, q);
    RuntimeStepsLast(rt, goVolume, sql, q);
    if q != Volumes {
      assert Expected(algorithm, iface, accounts, transactions, q) == RuntimeExpected(rt, goVolume, sql, q);
    }
  }

  /** The table for a known algorithm, on the two counts. */
  lemma KnownCountFollowsTable(algorithm: string, iface: string, accounts: string, transactions: int,
                               q: seq<string>, rt: Runtime)
    requires RuntimeOf(algorithm) == Some(rt)
    requires q == Env("NUMBER_OF_ACCOUNTS") || q == Env("NUMBER_OF_TRANSACTIONS")
    ensures LastAssigned(Assignments(algorithm, iface, accounts, transactions), q)
         == Expected(algorithm, iface, accounts, transactions, q)
  {
    FrameLast(RuntimeSteps(rt, algorithm == "goroutines", iface == "SQL"), accounts, transactions, q);
    PathsDistinct();
  }

  /** The statements of the rewrite follow the table: the last value assigned to
      a key is the table's. */
  lemma AssignmentsFollowTable(algorithm: string, iface: string, accounts: string, transactions: int,
                               q: seq<string>)
    ensures LastAssigned(Assignments(algorithm, iface, accounts, transactions), q)
         == Expected(algorithm, iface, accounts, transactions, q)
  {
    match RuntimeOf(algorithm)
    case None =>
      FrameLast(RuntimeAssignments(algorithm, iface), accounts, transactions, q);
      PathsDistinct();
      assert RuntimeAssignments(algorithm, iface) == [];
    case Some(rt) =>
      if q == Env("NUMBER_OF_ACCOUNTS") || q == Env("NUMBER_OF_TRANSACTIONS") {
        KnownCountFollowsTable(algorithm, iface, accounts, transactions, q, rt);
      } else {
        KnownKeyFollowsTable(algorithm, iface, accounts, transactions, q, rt);
      }
  }

  /** The rewrite of a loaded template. */
  function Rewrite(template: Yaml, algorithm: string, iface: string, accounts: string, transactions: int)
    : Result<Yaml, ComposeError>
  {
    AssignmentsAreLeaves(algorithm, iface, accounts, transactions);
    Apply(template, Assignments(algorithm, iface, accounts, transactions))
  }

  /** The template file for an interface; any other interface opens `""`. */
  function TemplateFor(iface: string): (r: string)
    ensures r == "" <==> iface != "REST" && iface != "SQL"
  {
    if iface == "REST" then "docker-compose_templateREST.yaml"
    else if iface == "SQL" then "docker-compose_templateSQL.yaml"
    else ""
  }

  const ModifiedFile: string := "docker-compose_modify.yaml"

  /** The rewrite raises exactly when the template lacks the bank service's
      environment mapping. */
  lemma RewriteSucceeds(template: Yaml, algorithm: string, iface: string, accounts: string, transactions: int)
    ensures Rewrite(template, algorithm, iface, accounts, transactions).Success? <==> BankShape(template)
  {
    var steps := Assignments(algorithm, iface, accounts, transactions);
    AssignmentsAreLeaves(algorithm, iface, accounts, transactions);
    ApplySucceeds(template, steps);
    forall i | 0 <= i < |steps| ensures BankShape(template) ==> Settable(template, steps[i].path) {
      TouchedIsLeaf(steps[i].path);
      LeafSettable(template, steps[i].path);
    }
    var last := steps[|steps| - 1].path;
    assert last == Env("NUMBER_OF_TRANSACTIONS");
    TouchedIsLeaf(last);
    LeafSettable(template, last);
  }

  /** After a successful rewrite each of the seven keys holds what the table
      says, or the template's value where the table has nothing, and a path beside
      all seven reads as in the template. */
  lemma RewriteFollowsTable(template: Yaml, algorithm: string, iface: string, accounts: string, transactions: int,
                            q: seq<string>)
    requires Rewrite(template, algorithm, iface, accounts, transactions).Success?
    ensures var r := Rewrite(template, algorithm, iface, accounts, transactions).value;
      && (Touched(q) ==> Get(r, q) == match Expected(algorithm, iface, accounts, transactions, q)
                                      case Some(v) => Some(v)
                                      case None => Get(template, q))
      && ((forall p :: Touched(p) ==> Unrelated(p, q)) ==> Get(r, q) == Get(template, q))
  {
    var steps := Assignments(algorithm, iface, accounts, transactions);
    AssignmentsAreLeaves(algorithm, iface, accounts, transactions);
    AssignmentsFollowTable(algorithm, iface, accounts, transactions, q);
    ApplyGet(template, steps, q);
    LastAssignedNone(steps, q);
    if Touched(q) && LastAssigned(steps, q).None? {
      TouchedIsLeaf(q);
      forall i | 0 <= i < |steps| ensures Unrelated(steps[i].path, q) {
        TouchedIsLeaf(steps[i].path);
        LeafPair(steps[i].path, q);
      }
    }
  }

  /** `modify_docker_compose_file` on the given files: open the interface's
      template, or raise when there is none, and rewrite it. It raises exactly
      when the template is missing or lacks the bank service's environment
      mapping. */
  function Modify(files: map<string, Yaml>, algorithm: string, iface: string, accounts: string, transactions: int)
    : (r: Result<Yaml, ComposeError>)
    ensures r.Success? <==> TemplateFor(iface) != "" && TemplateFor(iface) in files && BankShape(files[TemplateFor(iface)])
    ensures (TemplateFor(iface) == "" || TemplateFor(iface) !in files) ==> r == Failure(NoTemplate(TemplateFor(iface)))
  {
    var name := TemplateFor(iface);
    if name == "" || name !in files then Failure(NoTemplate(name))
    else
      RewriteSucceeds(files[name], algorithm, iface, accounts, transactions);
      Rewrite(files[name], algorithm, iface, accounts, transactions)
  }

  /** The output file is none of the templates. */
  lemma OutputIsNoTemplate(iface: string)
    ensures TemplateFor(iface) != ModifiedFile
  {
    assert ModifiedFile[15] == 'm';
    if iface == "REST" || iface == "SQL" {
      assert TemplateFor(iface)[15] == 't';
    }
  }

  /** The files are as before, but for a rewrite stored in the output file. */
  predicate Rewrote(before: map<string, Yaml>, after: map<string, Yaml>) {
    after == before || (ModifiedFile in after && after == before[ModifiedFile := after[ModifiedFile]])
  }

  /** A rewrite never reads the output file, so storing one leaves every later
      rewrite as it would have been. */
  lemma ModifyReadsTemplate(before: map<string, Yaml>, after: map<string, Yaml>, algorithm: string, iface: string,
                            accounts: string, transactions: int)
    requires Rewrote(before, after)
    ensures Modify(after, algorithm, iface, accounts, transactions) == Modify(before, algorithm, iface, accounts, transactions)
  {
    OutputIsNoTemplate(iface);
  }

  /** The files the rewrite reads and writes. */
  class ComposeFiles {
    var files: map<string, Yaml>

    constructor (initial: map<string, Yaml>)
      ensures files == initial
    {
      files := initial;
    }

    /** `modify_docker_compose_file`: on success the rewritten template is stored
        as `docker-compose_modify.yaml`; on an exception nothing is written. */
    method ModifyDockerComposeFile(algorithm: string, iface: string, accounts: string, transactions: int)
      returns (r: Result<Yaml, ComposeError>)
      modifies this
      ensures r == Modify(old(files), algorithm, iface, accounts, transactions)
      ensures r.Success? ==> files == old(files)[ModifiedFile := r.value]
      ensures r.Failure? ==> files == old(files)
    {
      var name := TemplateFor(iface);
      if name == "" || name !in files {
        return Failure(NoTemplate(name));
      }
      r := Rewrite(files[name], algorithm, iface, accounts, transactions);
      if r.Success? {
        files := files[ModifiedFile := r.value];
      }
    }
  }
}
