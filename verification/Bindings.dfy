/** Bindings are cluster-wide and named after namespace and name (BuildClusterRoleBinding in
    internal/builder/rbac.go, reconcileDelete in internal/controller/kubenova_controller.go): when several
    instances live in one cluster, this is where they can get into each other's way. */
module Bindings {
  import opened Types
  import opened Builders
  import opened Protocol
  import opened Runs
  import opened Cluster
  import opened StatusRetry
  import opened Finalizing

  function Qualified(id: Id): string {
    id.namespace + "-" + id.name
  }

  /** Two instances share a binding iff their names joined by a hyphen are the same text. */
  lemma SameBindingIffSameQualifiedName(a: Id, b: Id)
    ensures BindingName(a) == BindingName(b) <==> Qualified(a) == Qualified(b)
  {
    var head, tail := "kube-nova-", "-cluster-admin";
    assert BindingName(a) == head + Qualified(a) + tail && BindingName(b) == head + Qualified(b) + tail;
    var m, n := BindingName(a), BindingName(b);
    assert m[|head|..|m| - |tail|] == Qualified(a) && n[|head|..|n| - |tail|] == Qualified(b);
  }

  predicate NoHyphen(s: string) {
    '-' !in s
  }

  lemma LongerNamespaceHasHyphen(a: Id, b: Id)
    requires Qualified(a) == Qualified(b) && |a.namespace| < |b.namespace|
    ensures !NoHyphen(b.namespace)
  {
    var m := |a.namespace|;
    assert Qualified(a)[m] == '-' && Qualified(b)[m] == b.namespace[m];
  }

  lemma SameNamespaceSameName(a: Id, b: Id)
    requires Qualified(a) == Qualified(b) && |a.namespace| == |b.namespace|
    ensures a == b
  {
    var n, s, t := |a.namespace|, Qualified(a), Qualified(b);
    assert s[..n] == a.namespace && t[..n] == b.namespace && s[n + 1..] == a.name && t[n + 1..] == b.name;
  }

  /** Within one namespace, and between namespaces without hyphens, different instances have different bindings. */
  lemma BindingsAreSeparate(a: Id, b: Id)
    requires a != b
    requires a.namespace == b.namespace || (NoHyphen(a.namespace) && NoHyphen(b.namespace))
    ensures BindingName(a) != BindingName(b)
  {
    hide Qualified, BindingName;
    SameBindingIffSameQualifiedName(a, b);
    if Qualified(a) == Qualified(b) {
      if |a.namespace| < |b.namespace| {
        LongerNamespaceHasHyphen(a, b);
      } else if |b.namespace| < |a.namespace| {
        LongerNamespaceHasHyphen(b, a);
      } else {
        SameNamespaceSameName(a, b);
      }
    }
  }

  /** In general they can coincide. */
  lemma BindingsCanCoincide() returns (a: Id, b: Id)
    ensures a != b && a.namespace != b.namespace && BindingName(a) == BindingName(b)
  {
    a, b := Id("a-b", "c"), Id("a", "b-c");
    assert |a.namespace| != |b.namespace|;
    assert Qualified(a) == "a-b-c" == Qualified(b);
    SameBindingIffSameQualifiedName(a, b);
  }

  // ---------- many instances ----------

  ghost function Names(w: World): set<string> {
    set k | k in w.objects && k.BindingKey? :: k.name
  }

  /** What a worker's write does to the bindings of the cluster: at most, it creates or deletes its own. */
  predicate Moves(id: Id, names: set<string>, names': set<string>) {
    names' == names || names' == names + {BindingName(id)} || names' == names - {BindingName(id)}
  }

  /** The name under which a binding is created is the name under which it is deleted. */
  lemma WorkersMoveOnlyTheirOwnBinding(id: Id, l: Lapses, w: World, w': World)
    requires OperatorStep(id, l, w, w')
    ensures Moves(id, Names(w), Names(w'))
  {
    hide BindingName;
    if k :| CreatesObject(id, l, w, w', k) {
      OnlyNewBindingIsNamed(w, w', k);
    } else if k :| UpdatesObject(l, w, w', k) {
      OnlyNewBindingIsNamed(w, w', k);
    } else if w'.objects != w.objects {
      assert w'.objects == w.objects - {Binding(id)};
      forall n ensures n in Names(w') <==> n in Names(w) && n != BindingName(id) {
        assert n in Names(w) <==> BindingKey(n) in w.objects;
        assert n in Names(w') <==> BindingKey(n) in w'.objects;
      }
    }
  }

  lemma OnlyNewBindingIsNamed(w: World, w': World, k: Key)
    requires k in w'.objects && w'.objects == w.objects[k := w'.objects[k]]
    ensures Names(w') == if k.BindingKey? then Names(w) + {k.name} else Names(w)
  {
    forall n ensures n in Names(w') <==> n in Names(w) || k == BindingKey(n) {
      assert n in Names(w) <==> BindingKey(n) in w.objects;
      assert n in Names(w') <==> BindingKey(n) in w'.objects;
    }
  }

  /** A run of the whole cluster, seen through its bindings: who acted at each step, and the names after it. */
  ghost predicate ClusterRun(actors: seq<Id>, states: seq<set<string>>) {
    |states| == |actors| + 1
    && forall i :: 0 <= i < |actors| ==> Moves(actors[i], states[i], states[i + 1])
  }

  predicate Apart(id: Id, actors: seq<Id>) {
    forall a :: a in actors ==>
      a == id || a.namespace == id.namespace || (NoHyphen(a.namespace) && NoHyphen(id.namespace))
  }

  /** In every run of any number of instances, an instance's binding appears and disappears only by its own
      steps: between two of them it stays as it was. */
  lemma {:induction false} NobodyElseTouchesTheBinding(id: Id, actors: seq<Id>, states: seq<set<string>>, i: nat,
                                                       j: nat)
    requires ClusterRun(actors, states) && Apart(id, actors)
    requires i <= j <= |actors| && forall k :: i <= k < j ==> actors[k] != id
    ensures BindingName(id) in states[i] <==> BindingName(id) in states[j]
    decreases j
  {
    hide BindingName;
    if i < j {
      NobodyElseTouchesTheBinding(id, actors, states, i, j - 1);
      assert actors[j - 1] in actors && actors[j - 1] != id;
      BindingsAreSeparate(actors[j - 1], id);
      assert Moves(actors[j - 1], states[j - 1], states[j]);
    }
  }

  /** What the call that deletes the binding of one instance does to that of another. */
  lemma DeletingRemovesAnotherIffShared(id: Id, other: Id, w: World)
    requires Binding(id) in w.objects
    ensures Binding(id) !in DeleteEffect(w, Binding(other)).after.objects <==> Qualified(id) == Qualified(other)
  {
    hide BindingName;
    SameBindingIffSameQualifiedName(id, other);
  }

  /** The worker of another instance, deleting that instance undisturbed, removes this instance's binding exactly
      when the two share it. */
  method DeleteAnother(api: ApiServer, kn: Instance, id: Id) returns (r: Result<()>)
    requires api.Valid() && Doomed(api.id, api.lapses, api.world, kn.meta, kn.spec) && Binding(id) in api.world.objects
    modifies api
    ensures api.Valid()
    ensures api.Quiet() ==> r.Ok? && (Binding(id) !in api.world.objects <==> Qualified(id) == Qualified(api.id))
  {
    hide BindingName, IsRun, Inv, Evidence, OperatorStep, ForeignStep, WellFormed, Doomed;
    SameBindingIffSameQualifiedName(id, api.id);
    ghost var blind;
    r, blind := DeleteBinding(api, kn);
  }

  /** What another worker's step looks like from here, if it works in another namespace: its binding comes or goes. */
  function SeenFromOutside(other: Id, v: World, v': World): seq<ForeignAction> {
    var b := Binding(other);
    if b in v'.objects && b !in v.objects then [PutObject(b, v'.objects[b])]
    else if b in v.objects && b !in v'.objects then [DropObject(b)]
    else []
  }

  /** The step of another instance's worker is interference that is no lapse, and the two go on seeing the same
      bindings, as long as they do not share one. */
  lemma OtherWorkersAreInterference(id: Id, other: Id, l: Lapses, v: World, v': World, w: World)
    requires OperatorStep(other, l, v, v') && WellFormed(v) && WellFormed(w) && Names(v) == Names(w)
    requires BindingName(id) != BindingName(other)
    ensures var w' := ActAll(id, w, SeenFromOutside(other, v, v'));
      ForeignStep(id, NO_LAPSE, w, w') && Names(w') == Names(v')
  {
    hide BindingName, OperatorStep, WellFormed, Rely, Orderly, ForeignStep, Names;
    var actions, b := SeenFromOutside(other, v, v'), Binding(other);
    WorkersMoveOnlyTheirOwnBinding(other, l, v, v');
    NamedIffStored(v, b.name);
    NamedIffStored(v', b.name);
    if b in v'.objects && b !in v.objects {
      NewBindingHasNoOwner(other, l, v, v');
      OneBindingAppears(id, w, b, v'.objects[b]);
    } else if b in v.objects && b !in v'.objects {
      OneBindingGoes(id, w, b);
    }
    if actions != [] {
      assert actions[1..] == [];
      assert ActAll(id, w, actions) == ActAll(id, Act(id, w, actions[0]), []);
    }
    PeacefulActionsAreForeignSteps(id, NO_LAPSE, w, actions);
  }

  lemma NamedIffStored(w: World, name: string)
    ensures name in Names(w) <==> BindingKey(name) in w.objects
  {
  }

  lemma NewBindingHasNoOwner(other: Id, l: Lapses, v: World, v': World)
    requires OperatorStep(other, l, v, v') && Binding(other) !in v.objects && Binding(other) in v'.objects
    ensures v'.objects[Binding(other)].owner.None? && v'.objects[Binding(other)].body.BindingBody?
  {
    hide BindingName;
    if k :| CreatesObject(other, l, v, v', k) || UpdatesObject(l, v, v', k) {
      assert k == Binding(other);
    }
  }

  lemma OneBindingAppears(id: Id, w: World, b: Key, o: Object)
    requires b.BindingKey? && b != Binding(id) && o.body.BindingBody? && o.owner.None?
    ensures Peaceful(NO_LAPSE, w, PutObject(b, o))
    ensures Names(Act(id, w, PutObject(b, o))) == Names(w) + {b.name}
  {
    hide BindingName;
    OnlyNewBindingIsNamed(w, Act(id, w, PutObject(b, o)), b);
  }

  lemma OneBindingGoes(id: Id, w: World, b: Key)
    requires b.BindingKey? && b != Binding(id)
    ensures Peaceful(NO_LAPSE, w, DropObject(b))
    ensures Names(Act(id, w, DropObject(b))) == Names(w) - {b.name}
  {
    hide BindingName;
    forall n ensures n in Names(Act(id, w, DropObject(b))) <==> n in Names(w) && n != b.name {
      NamedIffStored(w, n);
      NamedIffStored(Act(id, w, DropObject(b)), n);
    }
  }
}
