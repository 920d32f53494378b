/**
 * src/prefect/runtimes/make_cli.py: the make-style task registry of
 * `MakeCLI`, the task selection and dependency traversal of the `run`
 * command, and `get_parameters`.
 *
 * The Prefect `Flow` is modelled as the set of tasks and the set of edges
 * added to it; a `FunctionTask` is identified by the registration that
 * created it.
 */
module MakeCli {
  import opened Wrappers
  import opened Builtins

  /** A FunctionTask: the number of the `task` call that created it. */
  type TaskId = nat

  datatype Edge = Edge(upstream: TaskId, downstream: TaskId)

  /** What has been added to the Prefect flow. */
  datatype Flow = Flow(tasks: set<TaskId>, edges: set<Edge>)

  /** `flow.add_task(t)`. */
  function AddTask(flow: Flow, t: TaskId): Flow {
    Flow(flow.tasks + {t}, flow.edges)
  }

  /** `flow.set_dependencies(t, upstream_tasks=ups)`: adds `t`, every upstream task, and an edge from each into `t`. */
  function SetDependencies(flow: Flow, t: TaskId, ups: seq<TaskId>): Flow {
    Flow(flow.tasks + {t} + Elements(ups), flow.edges + set u | u in Elements(ups) :: Edge(u, t))
  }

  /** What the traversal of `run` reads: the registry and the `--no-dependencies` flag. */
  datatype Graph = Graph(dependencies: map<TaskId, seq<string>>, tasks: map<string, TaskId>, noDependencies: bool)

  /** `deps and not no_dependencies`: the traversal fetches the dependencies of `t`. */
  predicate Expands(g: Graph, t: TaskId) {
    !g.noDependencies && t in g.dependencies && |g.dependencies[t]| > 0
  }

  /** The registered tasks that the dependency names of `t` resolve to. */
  function DepTasks(g: Graph, t: TaskId): set<TaskId> {
    if t in g.dependencies then set n | n in g.dependencies[t] && n in g.tasks :: g.tasks[n] else {}
  }

  /** Every dependency name of `t` is registered. */
  predicate DepsRegistered(g: Graph, t: TaskId) {
    t in g.dependencies ==> forall n :: n in g.dependencies[t] ==> n in g.tasks
  }

  /** A chain of tasks, each a dependency of the expanded task before it. */
  ghost predicate IsPath(g: Graph, p: seq<TaskId>) {
    |p| > 0 && forall i :: 0 <= i < |p| - 1 ==> Expands(g, p[i]) && p[i + 1] in DepTasks(g, p[i])
  }

  ghost predicate PathFrom(g: Graph, p: seq<TaskId>, s: TaskId, x: TaskId) {
    IsPath(g, p) && p[0] == s && p[|p| - 1] == x
  }

  ghost predicate Reachable(g: Graph, s: TaskId, x: TaskId) {
    exists p :: PathFrom(g, p, s, x)
  }

  /** The tasks reachable from some start task. */
  ghost function ReachableFrom(g: Graph, starts: set<TaskId>): set<TaskId> {
    set x | x in starts + g.tasks.Values && exists s :: s in starts && Reachable(g, s, x)
  }

  ghost function ExpandedIn(g: Graph, r: set<TaskId>): set<TaskId> {
    set x | x in r && Expands(g, x)
  }

  /** The dependency tasks of the tasks in `v`. */
  ghost function DepsOf(g: Graph, v: set<TaskId>): set<TaskId> {
    set x, d | x in v && d in DepTasks(g, x) :: d
  }

  /** The edges from each dependency into each task of `v`. */
  ghost function EdgesOf(g: Graph, v: set<TaskId>): set<Edge> {
    set x, d | x in v && d in DepTasks(g, x) :: Edge(d, x)
  }

  lemma ReachSelf(g: Graph, s: TaskId)
    ensures Reachable(g, s, s)
  {
    assert PathFrom(g, [s], s, s);
  }

  /** A dependency of a reachable expanded task is reachable. */
  lemma ReachStep(g: Graph, s: TaskId, x: TaskId, d: TaskId)
    requires Reachable(g, s, x) && Expands(g, x) && d in DepTasks(g, x)
    ensures Reachable(g, s, d)
  {
    var p :| PathFrom(g, p, s, x);
    var q := p + [d];
    assert forall i :: 0 <= i < |p| ==> q[i] == p[i];
    assert PathFrom(g, q, s, d);
  }

  /** A set that holds `s` and the dependencies of each of its expanded tasks holds all that `s` reaches. */
  lemma ClosedHoldsReachable(g: Graph, h: set<TaskId>, s: TaskId, x: TaskId)
    requires s in h
    requires forall y :: y in h && Expands(g, y) ==> DepTasks(g, y) <= h
    requires Reachable(g, s, x)
    ensures x in h
  {
    var p :| PathFrom(g, p, s, x);
    var i := 0;
    while i < |p| - 1
      invariant 0 <= i <= |p| - 1
      invariant p[i] in h
    {
      assert Expands(g, p[i]) && p[i + 1] in DepTasks(g, p[i]);
      i := i + 1;
    }
  }

  /** With `--no-dependencies` no task expands, so a task reaches only itself. */
  lemma {:induction false} NoDependenciesReachesOnlyStarts(g: Graph, starts: set<TaskId>)
    requires g.noDependencies
    requires starts <= g.tasks.Values
    ensures ReachableFrom(g, starts) == starts
    ensures EdgesOf(g, ExpandedIn(g, ReachableFrom(g, starts))) == {}
  {
    forall x | x in ReachableFrom(g, starts) ensures x in starts {
      var s :| s in starts && Reachable(g, s, x);
      var p :| PathFrom(g, p, s, x);
      assert |p| == 1;
    }
    forall s | s in starts ensures s in ReachableFrom(g, starts) {
      ReachSelf(g, s);
    }
  }

  /** A reachable task is the start task or a registered one. */
  lemma ReachEnd(g: Graph, s: TaskId, x: TaskId)
    requires Reachable(g, s, x)
    ensures x == s || x in g.tasks.Values
  {
    var p :| PathFrom(g, p, s, x);
    if |p| > 1 {
      assert x in DepTasks(g, p[|p| - 2]);
    }
  }

  lemma ElementsConcat(a: seq<TaskId>, b: seq<TaskId>)
    ensures Elements(a + b) == Elements(a) + Elements(b)
  {
    forall x | x in Elements(a + b) ensures x in Elements(a) + Elements(b) {
      var i :| 0 <= i < |a + b| && (a + b)[i] == x;
      if i >= |a| {
        assert b[i - |a|] == x;
      }
    }
    forall x | x in Elements(a) ensures x in Elements(a + b) {
      var i :| 0 <= i < |a| && a[i] == x;
      assert (a + b)[i] == x;
    }
    forall x | x in Elements(b) ensures x in Elements(a + b) {
      var i :| 0 <= i < |b| && b[i] == x;
      assert (a + b)[i + |a|] == x;
    }
  }

  /** Expanding one more task adds its dependencies and edges. */
  lemma DepsOfAdd(g: Graph, v: set<TaskId>, c: TaskId)
    ensures DepsOf(g, v + {c}) == DepsOf(g, v) + DepTasks(g, c)
    ensures EdgesOf(g, v + {c}) == EdgesOf(g, v) + set u | u in DepTasks(g, c) :: Edge(u, c)
  {
  }

  /** Reachability from a union of start sets is the union of reachability from each. */
  lemma ReachableUnion(g: Graph, a: set<TaskId>, b: set<TaskId>)
    ensures ReachableFrom(g, a + b) == ReachableFrom(g, a) + ReachableFrom(g, b)
  {
    forall x | x in ReachableFrom(g, a + b) ensures x in ReachableFrom(g, a) + ReachableFrom(g, b) {
      var s :| s in a + b && Reachable(g, s, x);
      ReachEnd(g, s, x);
    }
  }

  lemma ReachableMonotone(g: Graph, a: set<TaskId>, b: set<TaskId>)
    requires a <= b
    ensures ReachableFrom(g, a) <= ReachableFrom(g, b)
  {
  }

  /** `[obj.tasks[t_n] for t_n in deps]`: the first unregistered name raises KeyError. */
  function ResolveNames(names: seq<string>, tasks: map<string, TaskId>): (r: Result<seq<TaskId>, string>)
    ensures r.Ok? <==> forall n :: n in names ==> n in tasks
    ensures r.Ok? ==> |r.value| == |names| && forall i :: 0 <= i < |names| ==> r.value[i] == tasks[names[i]]
    ensures r.Err? ==> exists i :: 0 <= i < |names| && r.error == names[i] && names[i] !in tasks &&
                                   forall j :: 0 <= j < i ==> names[j] in tasks
  {
    if names == [] then Ok([])
    else if names[0] !in tasks then Err(names[0])
    else
      match ResolveNames(names[1..], tasks)
      case Ok(rest) => Ok([tasks[names[0]]] + rest)
      case Err(e) =>
        var i :| 0 <= i < |names[1..]| && e == names[1..][i] && names[1..][i] !in tasks &&
                 forall j :: 0 <= j < i ==> names[1..][j] in tasks;
        assert forall j :: 0 <= j < i + 1 ==> names[j] in tasks by {
          forall j | 0 < j < i + 1 ensures names[j] in tasks {
            assert names[j] == names[1..][j - 1];
          }
        }
        assert e == names[i + 1];
        Err(e)
  }

  /** Distinct elements. */
  predicate Distinct<T(==)>(s: seq<T>) {
    forall i, j :: 0 <= i < j < |s| ==> s[i] != s[j]
  }

  /**
   * The state of the traversal from `start`, whose reachable tasks are
   * `reach`: the stack `toVisit`, the set `fetched`
   * (`already_fetched_deps_for`) and the ghost set `handled` of the tasks
   * popped and added to the flow. Everything seen is reachable, and the
   * dependencies of each handled expanded task are handled or still on the
   * stack.
   */
  ghost predicate Traversal(g: Graph, start: TaskId, reach: set<TaskId>, toVisit: seq<TaskId>,
                            fetched: set<TaskId>, handled: set<TaskId>) {
    && (forall i :: 0 <= i < |toVisit| ==> toVisit[i] in g.tasks.Values && toVisit[i] in reach)
    && handled <= reach
    && fetched <= g.tasks.Values
    && fetched == ExpandedIn(g, handled)
    && (forall x :: x in fetched ==> DepsRegistered(g, x))
    && (forall x :: x in handled && Expands(g, x) ==> DepTasks(g, x) <= handled + Elements(toVisit))
    && start in handled + Elements(toVisit)
  }

  lemma PopSplit(toVisit: seq<TaskId>)
    requires |toVisit| > 0
    ensures Elements(toVisit) == Elements(toVisit[..|toVisit| - 1]) + {toVisit[|toVisit| - 1]}
  {
    assert toVisit == toVisit[..|toVisit| - 1] + [toVisit[|toVisit| - 1]];
    ElementsConcat(toVisit[..|toVisit| - 1], [toVisit[|toVisit| - 1]]);
    assert Elements([toVisit[|toVisit| - 1]]) == {toVisit[|toVisit| - 1]};
  }

  /** Popping a task whose dependencies were already fetched. */
  lemma SkipStep(g: Graph, start: TaskId, reach: set<TaskId>, toVisit: seq<TaskId>, fetched: set<TaskId>, handled: set<TaskId>)
    requires Traversal(g, start, reach, toVisit, fetched, handled)
    requires |toVisit| > 0 && toVisit[|toVisit| - 1] in fetched
    ensures Traversal(g, start, reach, toVisit[..|toVisit| - 1], fetched, handled)
  {
    var rest := toVisit[..|toVisit| - 1];
    PopSplit(toVisit);
    forall i | 0 <= i < |rest| ensures rest[i] in g.tasks.Values && rest[i] in reach {
      assert rest[i] == toVisit[i];
    }
  }

  /** Popping a task without dependencies to fetch: it is added on its own. */
  lemma LeafStep(g: Graph, start: TaskId, reach: set<TaskId>, toVisit: seq<TaskId>, fetched: set<TaskId>, handled: set<TaskId>)
    requires Traversal(g, start, reach, toVisit, fetched, handled)
    requires |toVisit| > 0 && !Expands(g, toVisit[|toVisit| - 1])
    ensures Traversal(g, start, reach, toVisit[..|toVisit| - 1], fetched, handled + {toVisit[|toVisit| - 1]})
  {
    var current := toVisit[|toVisit| - 1];
    var rest := toVisit[..|toVisit| - 1];
    PopSplit(toVisit);
    forall i | 0 <= i < |rest| ensures rest[i] in g.tasks.Values && rest[i] in reach {
      assert rest[i] == toVisit[i];
    }
    assert ExpandedIn(g, handled + {current}) == ExpandedIn(g, handled);
    forall x | x in handled + {current} && Expands(g, x)
      ensures DepTasks(g, x) <= handled + {current} + Elements(rest)
    {
      assert x in handled;
    }
  }

  /** Popping a task and pushing its dependencies. */
  lemma ExpandStep(g: Graph, start: TaskId, reach: set<TaskId>, toVisit: seq<TaskId>, fetched: set<TaskId>,
                   handled: set<TaskId>, ups: seq<TaskId>)
    requires reach == ReachableFrom(g, {start})
    requires Traversal(g, start, reach, toVisit, fetched, handled)
    requires |toVisit| > 0
    requires Expands(g, toVisit[|toVisit| - 1]) && toVisit[|toVisit| - 1] !in fetched
    requires DepsRegistered(g, toVisit[|toVisit| - 1])
    requires Elements(ups) == DepTasks(g, toVisit[|toVisit| - 1])
    ensures Traversal(g, start, reach, toVisit[..|toVisit| - 1] + ups,
                      fetched + {toVisit[|toVisit| - 1]}, handled + {toVisit[|toVisit| - 1]})
  {
    var current := toVisit[|toVisit| - 1];
    var rest := toVisit[..|toVisit| - 1];
    PopSplit(toVisit);
    ElementsConcat(rest, ups);
    forall u | u in Elements(ups) ensures u in g.tasks.Values && u in reach {
      var s :| s in {start} && Reachable(g, s, current);
      ReachStep(g, start, current, u);
      ReachEnd(g, start, u);
    }
    forall i | 0 <= i < |rest + ups|
      ensures (rest + ups)[i] in g.tasks.Values && (rest + ups)[i] in reach
    {
      if i < |rest| {
        assert (rest + ups)[i] == toVisit[i];
      } else {
        assert (rest + ups)[i] in Elements(ups);
      }
    }
    assert ExpandedIn(g, handled + {current}) == ExpandedIn(g, handled) + {current};
  }

  /** `set_dependencies` on the popped task records its dependencies and edges. */
  lemma ExpandFlow(g: Graph, flow: Flow, out: Flow, handled: set<TaskId>, fetched: set<TaskId>, c: TaskId, ups: seq<TaskId>)
    requires out == Flow(flow.tasks + handled + DepsOf(g, fetched), flow.edges + EdgesOf(g, fetched))
    requires Elements(ups) == DepTasks(g, c)
    ensures SetDependencies(out, c, ups)
         == Flow(flow.tasks + (handled + {c}) + DepsOf(g, fetched + {c}), flow.edges + EdgesOf(g, fetched + {c}))
  {
    DepsOfAdd(g, fetched, c);
    assert (set u | u in Elements(ups) :: Edge(u, c)) == set u | u in DepTasks(g, c) :: Edge(u, c);
  }

  lemma AppendDistinct(s: seq<TaskId>, c: TaskId)
    requires Distinct(s) && c !in Elements(s)
    ensures Elements(s + [c]) == Elements(s) + {c} && Distinct(s + [c])
  {
    ElementsConcat(s, [c]);
    assert [c][0] == c;
    assert Elements([c]) == {c};
    forall i | 0 <= i < |s| ensures (s + [c])[i] != c {
      assert s[i] in Elements(s);
    }
  }

  /**
   * The inner `while to_visit` loop of `run` for one selected task `start`:
   * a stack of tasks to visit and the set `already_fetched_deps_for`, so that
   * each task with dependencies is expanded at most once and the loop ends
   * on cyclic dependencies. `expanded` lists the tasks `set_dependencies`
   * was called for, in order.
   */
  method Visit(g: Graph, start: TaskId, flow: Flow) returns (r: Outcome<string>, out: Flow, expanded: seq<TaskId>)
    requires start in g.tasks.Values
    ensures var reach := ReachableFrom(g, {start});
      && (r == Pass <==> forall x :: x in reach && Expands(g, x) ==> DepsRegistered(g, x))
      && (r.Fail? ==> exists x :: x in reach && Expands(g, x) && r.error in g.dependencies[x] && r.error !in g.tasks)
      && (r.Pass? ==> out == Flow(flow.tasks + reach, flow.edges + EdgesOf(g, ExpandedIn(g, reach))))
      && (r.Pass? ==> Elements(expanded) == ExpandedIn(g, reach) && Distinct(expanded))
      && (r.Fail? ==> flow.tasks <= out.tasks <= flow.tasks + reach &&
                      flow.edges <= out.edges <= flow.edges + EdgesOf(g, ExpandedIn(g, reach)))
  {
    ghost var reach := ReachableFrom(g, {start});
    ReachSelf(g, start);
    var toVisit := [start];
    assert toVisit[0] == start;
    var alreadyFetchedDepsFor: set<TaskId> := {};
    ghost var handled: set<TaskId> := {};
    out := flow;
    expanded := [];
    while toVisit != []
      invariant Traversal(g, start, reach, toVisit, alreadyFetchedDepsFor, handled)
      invariant out == Flow(flow.tasks + handled + DepsOf(g, alreadyFetchedDepsFor),
                            flow.edges + EdgesOf(g, alreadyFetchedDepsFor))
      invariant Elements(expanded) == alreadyFetchedDepsFor && Distinct(expanded)
      decreases g.tasks.Values - alreadyFetchedDepsFor, |toVisit|
    {
      var current := toVisit[|toVisit| - 1];
      var deps := if current in g.dependencies then g.dependencies[current] else [];
      if |deps| > 0 && !g.noDependencies {
        if current in alreadyFetchedDepsFor {
          SkipStep(g, start, reach, toVisit, alreadyFetchedDepsFor, handled);
          toVisit := toVisit[..|toVisit| - 1];
          continue;
        }
        var depObjs := ResolveNames(deps, g.tasks);
        if depObjs.Err? {
          VisitStopped(g, start, reach, toVisit, alreadyFetchedDepsFor, handled, flow, out, depObjs.error);
          return Fail(depObjs.error), out, expanded;
        }
        var ups := depObjs.value;
        ResolvedDeps(g, current, ups);
        ExpandStep(g, start, reach, toVisit, alreadyFetchedDepsFor, handled, ups);
        ExpandFlow(g, flow, out, handled, alreadyFetchedDepsFor, current, ups);
        AppendDistinct(expanded, current);
        toVisit := toVisit[..|toVisit| - 1] + ups;
        out := SetDependencies(out, current, ups);
        alreadyFetchedDepsFor := alreadyFetchedDepsFor + {current};
        handled := handled + {current};
        expanded := expanded + [current];
      } else {
        LeafStep(g, start, reach, toVisit, alreadyFetchedDepsFor, handled);
        toVisit := toVisit[..|toVisit| - 1];
        LeafFlow(g, flow, out, handled, alreadyFetchedDepsFor, current);
        out := AddTask(out, current);
        handled := handled + {current};
      }
    }
    VisitDone(g, start, reach, toVisit, alreadyFetchedDepsFor, handled, flow, out);
    r := Pass;
  }

  /** The resolved dependency list of `t` holds exactly the dependency tasks of `t`. */
  lemma ResolvedDeps(g: Graph, t: TaskId, ups: seq<TaskId>)
    requires t in g.dependencies && ResolveNames(g.dependencies[t], g.tasks) == Ok(ups)
    ensures Elements(ups) == DepTasks(g, t)
  {
    var deps := g.dependencies[t];
    forall u | u in Elements(ups) ensures u in DepTasks(g, t) {
      var i :| 0 <= i < |ups| && ups[i] == u;
      assert deps[i] in deps;
    }
    forall u | u in DepTasks(g, t) ensures u in Elements(ups) {
      var n :| n in deps && n in g.tasks && g.tasks[n] == u;
      var i :| 0 <= i < |deps| && deps[i] == n;
      assert ups[i] == u;
    }
  }

  /** `add_task` on a popped leaf records it among the handled tasks. */
  lemma LeafFlow(g: Graph, flow: Flow, out: Flow, handled: set<TaskId>, fetched: set<TaskId>, c: TaskId)
    requires out == Flow(flow.tasks + handled + DepsOf(g, fetched), flow.edges + EdgesOf(g, fetched))
    ensures AddTask(out, c) == Flow(flow.tasks + (handled + {c}) + DepsOf(g, fetched), flow.edges + EdgesOf(g, fetched))
  {
  }

  /** The outcome of a traversal whose stack has emptied: everything reachable was added. */
  lemma VisitDone(g: Graph, start: TaskId, reach: set<TaskId>, toVisit: seq<TaskId>, fetched: set<TaskId>,
                  handled: set<TaskId>, flow: Flow, out: Flow)
    requires reach == ReachableFrom(g, {start})
    requires Traversal(g, start, reach, toVisit, fetched, handled) && toVisit == []
    requires out == Flow(flow.tasks + handled + DepsOf(g, fetched), flow.edges + EdgesOf(g, fetched))
    ensures forall x :: x in reach && Expands(g, x) ==> DepsRegistered(g, x)
    ensures out == Flow(flow.tasks + reach, flow.edges + EdgesOf(g, ExpandedIn(g, reach)))
    ensures fetched == ExpandedIn(g, reach)
  {
    assert Elements(toVisit) == {};
    forall x | x in reach ensures x in handled {
      ClosedHoldsReachable(g, handled, start, x);
    }
    DepsOfBounded(g, flow, handled, fetched, reach, start);
  }

  /** The outcome of a traversal stopped by an unregistered dependency name of the popped task. */
  lemma VisitStopped(g: Graph, start: TaskId, reach: set<TaskId>, toVisit: seq<TaskId>, fetched: set<TaskId>,
                     handled: set<TaskId>, flow: Flow, out: Flow, e: string)
    requires reach == ReachableFrom(g, {start})
    requires Traversal(g, start, reach, toVisit, fetched, handled) && |toVisit| > 0
    requires out == Flow(flow.tasks + handled + DepsOf(g, fetched), flow.edges + EdgesOf(g, fetched))
    requires Expands(g, toVisit[|toVisit| - 1])
    requires e in g.dependencies[toVisit[|toVisit| - 1]] && e !in g.tasks
    ensures exists x :: x in reach && Expands(g, x) && e in g.dependencies[x] && e !in g.tasks
    ensures !forall x :: x in reach && Expands(g, x) ==> DepsRegistered(g, x)
    ensures flow.tasks <= out.tasks <= flow.tasks + reach
    ensures flow.edges <= out.edges <= flow.edges + EdgesOf(g, ExpandedIn(g, reach))
  {
    var current := toVisit[|toVisit| - 1];
    assert current in reach && !DepsRegistered(g, current);
    DepsOfBounded(g, flow, handled, fetched, reach, start);
  }

  /** In the traversal, what has been added lies within what is reachable. */
  lemma DepsOfBounded(g: Graph, flow: Flow, handled: set<TaskId>, v: set<TaskId>, reach: set<TaskId>, start: TaskId)
    requires reach == ReachableFrom(g, {start})
    requires handled <= reach && v <= ExpandedIn(g, handled)
    ensures DepsOf(g, v) <= reach
    ensures EdgesOf(g, v) <= EdgesOf(g, ExpandedIn(g, reach))
  {
    forall d | d in DepsOf(g, v) ensures d in reach {
      var x :| x in v && d in DepTasks(g, x);
      ReachStep(g, start, x, d);
      assert d in g.tasks.Values;
    }
  }

  /** Union of start sets: the edges of the expanded reachable tasks add up. */
  lemma EdgesOfUnion(g: Graph, a: set<TaskId>, b: set<TaskId>)
    ensures EdgesOf(g, ExpandedIn(g, a + b)) == EdgesOf(g, ExpandedIn(g, a)) + EdgesOf(g, ExpandedIn(g, b))
  {
    assert ExpandedIn(g, a + b) == ExpandedIn(g, a) + ExpandedIn(g, b);
  }

  /** `obj.tasks.items()`: each name once, at the place it was first registered. */
  function KeyOrder(s: seq<string>): (r: seq<string>)
    ensures forall x :: x in r <==> x in s
    ensures forall i, j :: 0 <= i < j < |r| ==> r[i] != r[j]
  {
    if s == [] then []
    else
      var front := KeyOrder(s[..|s| - 1]);
      if s[|s| - 1] in front then front else front + [s[|s| - 1]]
  }

  /** Re-registering a name keeps its first place among the keys. */
  lemma KeyOrderKeepsFirst(s: seq<string>, n: string)
    requires n in s
    ensures KeyOrder(s + [n]) == KeyOrder(s)
  {
  }

  /** The task names `run` builds the flow for: those given, else the default, else every task. */
  function SelectTasks(requested: seq<string>, default: Option<string>, tasks: map<string, TaskId>): (r: set<string>)
    ensures |requested| > 0 ==> forall n :: n in r <==> n in requested
    ensures |requested| == 0 && default.Some? ==> r == {default.value}
    ensures |requested| == 0 && default.None? ==> r == tasks.Keys
  {
    if |requested| == 0 then
      if default.Some? then {default.value} else tasks.Keys
    else
      Elements(requested)
  }

  /** The registered tasks of the selected names. */
  function StartTasks(tasks: map<string, TaskId>, selected: set<string>): (r: set<TaskId>)
    ensures r <= tasks.Values
    ensures forall n :: n in selected && n in tasks ==> tasks[n] in r
    ensures forall t :: t in r ==> exists n :: n in selected && n in tasks && tasks[n] == t
  {
    set n | n in selected && n in tasks :: tasks[n]
  }


  /** The registry of `MakeCLI` and the flow `run` builds. */
  class MakeCLI {
    /** `dependencies[t]`: the dependency names of the task of registration `t`. */
    var dependencies: map<TaskId, seq<string>>
    /** The latest task registered under each name. */
    var tasks: map<string, TaskId>
    /** The names passed to `task`, in order. */
    var taskOrder: seq<string>
    const impliedOrder: bool
    var default: Option<string>
    var flow: Flow

    /** Registration `t` is the `t`-th call; each name maps to its latest registration. */
    ghost predicate Valid()
      reads this
    {
      && (forall t: TaskId :: t in dependencies <==> t < |taskOrder|)
      && (forall n :: n in tasks <==> n in taskOrder)
      && (forall n :: n in tasks ==> tasks[n] < |taskOrder| && taskOrder[tasks[n]] == n)
    }

    constructor(impliedOrder: bool)
      ensures Valid()
      ensures dependencies == map[] && tasks == map[] && taskOrder == [] && default == None
      ensures this.impliedOrder == impliedOrder && flow == Flow({}, {})
    {
      dependencies := map[];
      tasks := map[];
      taskOrder := [];
      this.impliedOrder := impliedOrder;
      default := None;
      flow := Flow({}, {});
    }

    /**
     * The `task` decorator for a function named `fnName`: a second default
     * task is refused; otherwise a new task is registered with the given
     * dependency list (a non-list counts as none), plus the previously
     * registered name under implied order.
     */
    method Task(fnName: string, isDefault: bool, depends: Option<seq<string>>) returns (r: Result<TaskId, string>)
      requires Valid()
      modifies this
      ensures Valid()
      ensures isDefault && Truthy(old(default)) ==>
        r == Err("There can only be one default task") && unchanged(this)
      ensures !(isDefault && Truthy(old(default))) ==>
        && r == Ok(|old(taskOrder)|)
        && r.value !in old(dependencies)
        && taskOrder == old(taskOrder) + [fnName]
        && tasks == old(tasks)[fnName := r.value]
        && dependencies == old(dependencies)[r.value :=
             (if depends.Some? then depends.value else [])
             + (if impliedOrder && |old(taskOrder)| > 0 then [old(taskOrder)[|old(taskOrder)| - 1]] else [])]
        && default == (if isDefault then Some(fnName) else old(default))
        && flow == old(flow)
    {
      if isDefault {
        if Truthy(default) {
          return Err("There can only be one default task");
        }
        default := Some(fnName);
      }
      var t := |taskOrder|;
      var deps := if depends.Some? then depends.value else [];
      var implied := if impliedOrder && |taskOrder| > 0 then [taskOrder[|taskOrder| - 1]] else [];
      deps := deps + implied;
      dependencies := dependencies[t := deps];
      tasks := tasks[fnName := t];
      taskOrder := taskOrder + [fnName];
      r := Ok(t);
    }

    /**
     * The `run` command: builds the flow for the selected tasks, with the
     * tasks they reach through their dependencies unless `noDependencies`.
     * An unregistered dependency name raises KeyError, reported as `Fail`.
     */
    method Run(requested: seq<string>, noDependencies: bool) returns (r: Outcome<string>)
      requires Valid()
      modifies this`flow
      ensures var g := Graph(dependencies, tasks, noDependencies);
        var reach := ReachableFrom(g, StartTasks(tasks, SelectTasks(requested, default, tasks)));
        && (r == Pass <==> forall x :: x in reach && Expands(g, x) ==> DepsRegistered(g, x))
        && (r.Fail? ==> exists x :: x in reach && Expands(g, x) && r.error in dependencies[x] && r.error !in tasks)
        && (r.Pass? ==> flow == Flow(old(flow).tasks + reach, old(flow).edges + EdgesOf(g, ExpandedIn(g, reach))))
        && (r.Fail? ==> old(flow).tasks <= flow.tasks <= old(flow).tasks + reach &&
                        old(flow).edges <= flow.edges <= old(flow).edges + EdgesOf(g, ExpandedIn(g, reach)))
    {
      var g := Graph(dependencies, tasks, noDependencies);
      var selected := SelectTasks(requested, default, tasks);
      ghost var starts := StartTasks(tasks, selected);
      var names := KeyOrder(taskOrder);
      ghost var done: set<TaskId> := {};
      var i := 0;
      while i < |names|
        invariant 0 <= i <= |names|
        invariant done == StartTasks(tasks, selected * Elements(names[..i]))
        invariant done <= starts
        invariant flow == Flow(old(flow).tasks + ReachableFrom(g, done), old(flow).edges + ReachEdges(g, done))
        invariant forall x :: x in ReachableFrom(g, done) && Expands(g, x) ==> DepsRegistered(g, x)
      {
        var name := names[i];
        StartTasksStep(tasks, selected, names, i);
        if name in selected {
          var t := tasks[name];
          var res, out, _ := Visit(g, t, flow);
          if res.Fail? {
            RunStopped(g, old(flow), done, t, starts, flow, out, res.error);
            flow := out;
            return res;
          }
          ReachableUnion(g, done, {t});
          VisitAccumulates(g, old(flow), done, t, flow, out);
          flow := out;
          done := done + {t};
        }
        i := i + 1;
      }
      StartTasksAll(tasks, selected, names);
      assert g == Graph(dependencies, tasks, noDependencies);
      assert starts == StartTasks(tasks, SelectTasks(requested, default, tasks));
      RunDone(g, old(flow), flow, done, starts);
      r := Pass;
    }
  }

  /** The edges `run` adds for the tasks reachable from `starts`. */
  ghost function ReachEdges(g: Graph, starts: set<TaskId>): set<Edge> {
    EdgesOf(g, ExpandedIn(g, ReachableFrom(g, starts)))
  }

  lemma ElementsStep(s: seq<string>, i: nat)
    requires i < |s|
    ensures Elements(s[..i + 1]) == Elements(s[..i]) + {s[i]}
  {
    assert s[..i + 1] == s[..i] + [s[i]];
    forall x | x in Elements(s[..i + 1]) ensures x in Elements(s[..i]) + {s[i]} {
      var j :| 0 <= j < i + 1 && s[..i + 1][j] == x;
      if j < i {
        assert s[..i][j] == x;
      }
    }
    forall x | x in Elements(s[..i]) ensures x in Elements(s[..i + 1]) {
      var j :| 0 <= j < i && s[..i][j] == x;
      assert s[..i + 1][j] == x;
    }
    assert s[..i + 1][i] == s[i];
  }

  /** Passing one more name adds its task when it is selected and registered. */
  lemma StartTasksStep(tasks: map<string, TaskId>, selected: set<string>, names: seq<string>, i: nat)
    requires i < |names|
    ensures StartTasks(tasks, selected * Elements(names[..i + 1])) ==
            StartTasks(tasks, selected * Elements(names[..i])) +
            (if names[i] in selected && names[i] in tasks then {tasks[names[i]]} else {})
  {
    ElementsStep(names, i);
    assert selected * Elements(names[..i + 1]) ==
           selected * Elements(names[..i]) + (if names[i] in selected then {names[i]} else {});
  }

  /** Once every name is passed, the processed start tasks are all of them. */
  lemma StartTasksAll(tasks: map<string, TaskId>, selected: set<string>, names: seq<string>)
    requires forall n :: n in tasks ==> n in names
    ensures StartTasks(tasks, selected * Elements(names[..|names|])) == StartTasks(tasks, selected)
  {
    assert names[..|names|] == names;
    forall n | n in tasks ensures n in Elements(names) {
      var j :| 0 <= j < |names| && names[j] == n;
    }
  }

  /** Adding the traversal from one more start task to the flow. */
  lemma VisitAccumulates(g: Graph, base: Flow, done: set<TaskId>, t: TaskId, before: Flow, after: Flow)
    requires before == Flow(base.tasks + ReachableFrom(g, done), base.edges + ReachEdges(g, done))
    requires after == Flow(before.tasks + ReachableFrom(g, {t}), before.edges + EdgesOf(g, ExpandedIn(g, ReachableFrom(g, {t}))))
    ensures after == Flow(base.tasks + ReachableFrom(g, done + {t}), base.edges + ReachEdges(g, done + {t}))
  {
    ReachableUnion(g, done, {t});
    EdgesOfUnion(g, ReachableFrom(g, done), ReachableFrom(g, {t}));
  }

  /** A traversal that stops on KeyError leaves the flow within what the whole run would add. */
  lemma VisitFailBounds(g: Graph, base: Flow, done: set<TaskId>, t: TaskId, starts: set<TaskId>, before: Flow, after: Flow)
    requires done + {t} <= starts
    requires before == Flow(base.tasks + ReachableFrom(g, done), base.edges + ReachEdges(g, done))
    requires before.tasks <= after.tasks <= before.tasks + ReachableFrom(g, {t})
    requires before.edges <= after.edges <= before.edges + EdgesOf(g, ExpandedIn(g, ReachableFrom(g, {t})))
    ensures base.tasks <= after.tasks <= base.tasks + ReachableFrom(g, starts)
    ensures base.edges <= after.edges <= base.edges + ReachEdges(g, starts)
  {
    ReachableUnion(g, done, {t});
    ReachableMonotone(g, done + {t}, starts);
    EdgesOfUnion(g, ReachableFrom(g, done), ReachableFrom(g, {t}));
    assert ExpandedIn(g, ReachableFrom(g, done + {t})) <= ExpandedIn(g, ReachableFrom(g, starts));
  }

  /** Once every selected task is traversed, the flow holds all that is reachable from them. */
  lemma RunDone(g: Graph, base: Flow, flow: Flow, done: set<TaskId>, starts: set<TaskId>)
    requires done == starts
    requires flow == Flow(base.tasks + ReachableFrom(g, done), base.edges + ReachEdges(g, done))
    requires forall x :: x in ReachableFrom(g, done) && Expands(g, x) ==> DepsRegistered(g, x)
    ensures var reach := ReachableFrom(g, starts);
      && (forall x :: x in reach && Expands(g, x) ==> DepsRegistered(g, x))
      && flow == Flow(base.tasks + reach, base.edges + EdgesOf(g, ExpandedIn(g, reach)))
  {
  }

  /** A traversal stopped by KeyError ends the run with that error and a partial flow. */
  lemma RunStopped(g: Graph, base: Flow, done: set<TaskId>, t: TaskId, starts: set<TaskId>, before: Flow, after: Flow,
                   e: string)
    requires done + {t} <= starts
    requires before == Flow(base.tasks + ReachableFrom(g, done), base.edges + ReachEdges(g, done))
    requires before.tasks <= after.tasks <= before.tasks + ReachableFrom(g, {t})
    requires before.edges <= after.edges <= before.edges + EdgesOf(g, ExpandedIn(g, ReachableFrom(g, {t})))
    requires exists x :: x in ReachableFrom(g, {t}) && Expands(g, x) && e in g.dependencies[x] && e !in g.tasks
    ensures var reach := ReachableFrom(g, starts);
      && !(forall x :: x in reach && Expands(g, x) ==> DepsRegistered(g, x))
      && (exists x :: x in reach && Expands(g, x) && e in g.dependencies[x] && e !in g.tasks)
      && base.tasks <= after.tasks <= base.tasks + reach
      && base.edges <= after.edges <= base.edges + EdgesOf(g, ExpandedIn(g, reach))
  {
    VisitFailBounds(g, base, done, t, starts, before, after);
    ReachableMonotone(g, {t}, starts);
  }

  /** `prefect.Parameter(name, default=...)`. */
  datatype Parameter<V> = Parameter(name: string, default: Option<V>)

  /**
   * The default Python binds to positional argument `j`: the defaults
   * belong to the last `|defaults|` arguments, in order.
   */
  function PythonDefault<V>(args: seq<string>, defaults: seq<V>, j: nat): Option<V>
    requires j < |args| && |defaults| <= |args|
  {
    if j < |args| - |defaults| then None else Some(defaults[j - (|args| - |defaults|)])
  }

  /**
   * `get_parameters` as written: each default, first to last, goes with the
   * argument popped from the end of the list, last to first. Python's argument
   * specification never has more defaults than arguments.
   */
  method GetParameters<V>(args: seq<string>, defaults: seq<V>) returns (parameters: seq<Parameter<V>>)
    requires |defaults| <= |args|
    ensures |parameters| == |args|
    ensures forall i :: 0 <= i < |defaults| ==>
      parameters[i] == Parameter(args[|args| - 1 - i], Some(defaults[i]))
    ensures forall j :: |defaults| <= j < |args| ==> parameters[j] == Parameter(args[j - |defaults|], None)
  {
    var remaining := args;
    parameters := [];
    for i := 0 to |defaults|
      invariant remaining == args[..|args| - i]
      invariant |parameters| == i
      invariant forall k :: 0 <= k < i ==> parameters[k] == Parameter(args[|args| - 1 - k], Some(defaults[k]))
    {
      var arg := remaining[|remaining| - 1];
      remaining := remaining[..|remaining| - 1];
      parameters := parameters + [Parameter(arg, Some(defaults[i]))];
    }
    parameters := parameters + seq(|remaining|, j requires 0 <= j < |remaining| => Parameter(remaining[j], None));
  }

  /**
   * For `def f(a, b=1, c=2)` the as-written pairing gives `c` the default 1,
   * while Python binds `c` to 2.
   */
  method MisalignedDefaults() returns (parameters: seq<Parameter<int>>)
    ensures |parameters| == 3 && parameters[0] == Parameter("c", Some(1))
    ensures PythonDefault(["a", "b", "c"], [1, 2], 2) == Some(2)
  {
    parameters := GetParameters(["a", "b", "c"], [1, 2]);
  }

  /**
   * `get_parameters` with the defaults taken in reverse: every argument
   * carries the default Python binds to it.
   */
  method GetParametersAligned<V>(args: seq<string>, defaults: seq<V>) returns (parameters: seq<Parameter<V>>)
    requires |defaults| <= |args|
    ensures |parameters| == |args|
    ensures forall j :: 0 <= j < |args| ==> Parameter(args[j], PythonDefault(args, defaults, j)) in parameters
    ensures forall p :: p in parameters ==>
      exists j :: 0 <= j < |args| && p == Parameter(args[j], PythonDefault(args, defaults, j))
  {
    var n, k := |args|, |defaults|;
    var remaining := args;
    parameters := [];
    for i := 0 to k
      invariant remaining == args[..n - i]
      invariant |parameters| == i
      invariant forall q :: 0 <= q < i ==> parameters[q] == Parameter(args[n - 1 - q], PythonDefault(args, defaults, n - 1 - q))
    {
      var arg := remaining[|remaining| - 1];
      remaining := remaining[..|remaining| - 1];
      parameters := parameters + [Parameter(arg, Some(defaults[k - 1 - i]))];
    }
    var back := seq(|remaining|, j requires 0 <= j < |remaining| => Parameter(remaining[j], None));
    assert forall j :: 0 <= j < n - k ==> back[j] == Parameter(args[j], PythonDefault(args, defaults, j));
    var front := parameters;
    parameters := front + back;
    AlignedCoversArgs(args, defaults, front, back);
  }

  /** The defaulted parameters, last argument first, followed by the others, are one per argument with its Python default. */
  lemma AlignedCoversArgs<V>(args: seq<string>, defaults: seq<V>, front: seq<Parameter<V>>, back: seq<Parameter<V>>)
    requires |defaults| <= |args|
    requires |front| == |defaults| && |back| == |args| - |defaults|
    requires forall q :: 0 <= q < |front| ==>
      front[q] == Parameter(args[|args| - 1 - q], PythonDefault(args, defaults, |args| - 1 - q))
    requires forall j :: 0 <= j < |back| ==> back[j] == Parameter(args[j], PythonDefault(args, defaults, j))
    ensures forall j :: 0 <= j < |args| ==> Parameter(args[j], PythonDefault(args, defaults, j)) in front + back
    ensures forall p :: p in front + back ==>
      exists j :: 0 <= j < |args| && p == Parameter(args[j], PythonDefault(args, defaults, j))
  {
    var n, k, parameters := |args|, |defaults|, front + back;
    forall j | 0 <= j < n ensures Parameter(args[j], PythonDefault(args, defaults, j)) in parameters {
      if j < n - k {
        assert parameters[k + j] == back[j];
      } else {
        assert parameters[n - 1 - j] == front[n - 1 - j];
      }
    }
    forall p | p in parameters
      ensures exists j :: 0 <= j < n && p == Parameter(args[j], PythonDefault(args, defaults, j))
    {
      var q :| 0 <= q < |parameters| && parameters[q] == p;
      if q < k {
        assert p == front[q];
      } else {
        assert p == back[q - k];
      }
    }
  }
}
