/** Deep copies of the status graph on the heap (the DeepCopyInto methods of AccessInfo, ComponentStatusMap and
    KubeNovaStatus in api/v1/zz_generated.deepcopy.go). Pointers and Go maps are references and may be nil. */
module DeepCopies {
  import opened Types

  // ---------- the graph ----------

  /** The target of a pointer to a component's status. */
  class StatusRef {
    var value: ComponentStatus

    constructor (value: ComponentStatus)
      ensures this.value == value
    {
      this.value := value;
    }

    method DeepCopyInto(out: StatusRef)
      modifies out
      ensures out.value == old(value)
    {
      out.value := value;
    }
  }

  /** The map of backend services; an entry may be nil. */
  class StatusMap {
    var entries: map<string, StatusRef?>

    constructor ()
      ensures entries == map[]
    {
      entries := map[];
    }

    ghost function Repr(): set<object>
      reads this
    {
      {this} + set k | k in entries && entries[k] != null :: entries[k]
    }

    ghost function View(): map<string, Option<ComponentStatus>>
      reads this, Repr()
    {
      map k | k in entries :: ViewOf(entries[k])
    }
  }

  class EndpointMap {
    var entries: map<string, string>

    constructor ()
      ensures entries == map[]
    {
      entries := map[];
    }
  }

  method CopyEndpoints(endpoints: EndpointMap) returns (copy: EndpointMap)
    ensures fresh(copy) && copy.entries == endpoints.entries
  {
    copy := new EndpointMap();
    var todo := endpoints.entries.Keys;
    while todo != {}
      invariant fresh(copy) && todo <= endpoints.entries.Keys
      invariant copy.entries.Keys == endpoints.entries.Keys - todo
      invariant forall k :: k in copy.entries ==> copy.entries[k] == endpoints.entries[k]
      decreases |todo|
    {
      var key :| key in todo;
      copy.entries := copy.entries[key := endpoints.entries[key]];
      todo := todo - {key};
    }
  }

  /** The fields of the access information that are values. */
  datatype Addresses = Addresses(webURL: string, database: string, cache: string, storage: string, jaeger: string)

  datatype AccessView = AccessView(addresses: Addresses, endpoints: Option<map<string, string>>)

  class AccessRef {
    var addresses: Addresses
    var endpoints: EndpointMap?

    constructor ()
      ensures endpoints == null
    {
      addresses, endpoints := Addresses("", "", "", "", ""), null;
    }

    ghost function Repr(): set<object>
      reads this
    {
      {this} + if endpoints == null then {} else {endpoints}
    }

    ghost function View(): AccessView
      reads this, endpoints
    {
      AccessView(addresses, if endpoints == null then None else Some(endpoints.entries))
    }

    method DeepCopyInto(out: AccessRef)
      modifies out
      ensures out.View() == old(View()) && fresh(out.Repr() - {out})
    {
      out.addresses, out.endpoints := addresses, endpoints;
      if endpoints != null {
        var copy := CopyEndpoints(endpoints);
        out.endpoints := copy;
      }
    }
  }

  /** The struct of component pointers, embedded by value in the status. */
  datatype Components = Components(database: StatusRef?, cache: StatusRef?, storage: StatusRef?, telemetry: StatusRef?,
                                   services: StatusMap?, web: StatusRef?)

  datatype ComponentsView = ComponentsView(database: Option<ComponentStatus>, cache: Option<ComponentStatus>,
                                           storage: Option<ComponentStatus>, telemetry: Option<ComponentStatus>,
                                           services: Option<map<string, Option<ComponentStatus>>>,
                                           web: Option<ComponentStatus>)

  ghost function ViewOf(r: StatusRef?): Option<ComponentStatus>
    reads r
  {
    if r == null then None else Some(r.value)
  }

  ghost function Target(r: StatusRef?): set<object> {
    if r == null then {} else {r}
  }

  ghost function Pointers(c: Components): set<object> {
    Target(c.database) + Target(c.cache) + Target(c.storage) + Target(c.telemetry) + Target(c.web)
  }

  ghost function ComponentsRepr(c: Components): set<object>
    reads c.services
  {
    Pointers(c) + if c.services == null then {} else c.services.Repr()
  }

  ghost function ComponentsViewOf(c: Components): ComponentsView
    reads c.services, ComponentsRepr(c)
  {
    ComponentsView(ViewOf(c.database), ViewOf(c.cache), ViewOf(c.storage), ViewOf(c.telemetry),
                   if c.services == null then None else Some(c.services.View()), ViewOf(c.web))
  }

  /** What the view of the components says about each pointer: whether it is nil, and what it leads to. */
  lemma ComponentsViewTells(c: Components)
    ensures var v := ComponentsViewOf(c);
      && (v.database == if c.database == null then None else Some(c.database.value))
      && (v.cache == if c.cache == null then None else Some(c.cache.value))
      && (v.storage == if c.storage == null then None else Some(c.storage.value))
      && (v.telemetry == if c.telemetry == null then None else Some(c.telemetry.value))
      && (v.web == if c.web == null then None else Some(c.web.value))
      && (v.services.None? <==> c.services == null)
    ensures c.services != null ==> ComponentsViewOf(c).services.value.Keys == c.services.entries.Keys
    ensures c.services != null ==> forall k :: k in c.services.entries ==>
      ComponentsViewOf(c).services.value[k]
      == if c.services.entries[k] == null then None else Some(c.services.entries[k].value)
  {
  }

  lemma AccessViewTells(a: AccessRef)
    ensures a.View().addresses == a.addresses
    ensures a.View().endpoints == if a.endpoints == null then None else Some(a.endpoints.entries)
  {
  }

  method CopyPointer(r: StatusRef?) returns (copy: StatusRef?)
    ensures copy == null <==> r == null
    ensures fresh(Target(copy)) && ViewOf(copy) == ViewOf(r)
  {
    copy := null;
    if r != null {
      var target := new StatusRef(r.value);
      r.DeepCopyInto(target);
      copy := target;
    }
  }

  /** Copies the map entry by entry: nil entries stay nil, all others get targets of their own. */
  method CopyServices(services: StatusMap) returns (copy: StatusMap)
    ensures fresh(copy.Repr()) && copy.View() == services.View()
    ensures forall k :: k in services.entries ==>
      k in copy.entries && (services.entries[k] == null <==> copy.entries[k] == null)
  {
    copy := new StatusMap();
    var todo := services.entries.Keys;
    while todo != {}
      invariant fresh(copy.Repr()) && todo <= services.entries.Keys
      invariant copy.entries.Keys == services.entries.Keys - todo
      invariant forall k :: k in copy.entries ==>
        ViewOf(copy.entries[k]) == ViewOf(services.entries[k])
        && (services.entries[k] == null <==> copy.entries[k] == null)
      decreases |todo|
    {
      var key :| key in todo;
      var target := CopyPointer(services.entries[key]);
      copy.entries := copy.entries[key := target];
      todo := todo - {key};
    }
  }

  method CopyComponents(c: Components) returns (copy: Components)
    ensures fresh(ComponentsRepr(copy)) && ComponentsViewOf(copy) == ComponentsViewOf(c)
  {
    var database := CopyPointer(c.database);
    var cache := CopyPointer(c.cache);
    var storage := CopyPointer(c.storage);
    var telemetry := CopyPointer(c.telemetry);
    var services: StatusMap? := null;
    if c.services != null {
      services := CopyServices(c.services);
    }
    assert c.services != null ==> services.View() == c.services.View();
    var web := CopyPointer(c.web);
    assert c.services != null ==> services.View() == c.services.View();
    copy := Components(database, cache, storage, telemetry, services, web);
  }

  // ---------- the status ----------

  /** The fields of the status that are values. */
  datatype Scalars = Scalars(phase: Phase, message: string, observedGeneration: nat, lastUpdateTime: int)

  datatype StatusView = StatusView(scalars: Scalars, conditions: Option<seq<Condition>>, components: ComponentsView,
                                   access: Option<AccessView>)

  ghost function ConditionsOf(a: array?<Condition>): Option<seq<Condition>>
    reads a
  {
    if a == null then None else Some(a[..])
  }

  ghost function AccessOf(a: AccessRef?): Option<AccessView>
    reads a, if a == null then {} else a.Repr()
  {
    if a == null then None else Some(a.View())
  }

  ghost function AccessRepr(a: AccessRef?): set<object>
    reads a
  {
    if a == null then {} else a.Repr()
  }

  class StatusGraph {
    var scalars: Scalars
    var conditions: array?<Condition>
    var components: Components
    var access: AccessRef?

    /** Everything reachable through the fields is new, and the two graphs say the same. The write is to `out`
        alone, which may even be the graph itself. */
    method DeepCopyInto(out: StatusGraph)
      modifies out
      ensures out.scalars == old(scalars)
      ensures ConditionsOf(out.conditions) == old(ConditionsOf(conditions))
      ensures out.conditions == null <==> old(conditions) == null
      ensures old(conditions) != null ==> fresh(out.conditions) && out.conditions[..] == old(conditions[..])
      ensures out.access == null <==> old(access) == null
      ensures ComponentsViewOf(out.components) == old(ComponentsViewOf(components))
      ensures fresh(ComponentsRepr(out.components))
      ensures AccessOf(out.access) == old(AccessOf(access)) && fresh(AccessRepr(out.access))
    {
      hide AccessRef.Repr, AccessRef.View;
      ghost var services := if components.services == null then map[] else components.services.View();
      out.scalars, out.conditions, out.components, out.access := scalars, conditions, components, access;
      assert out.components.services != null ==> out.components.services.View() == services;
      out.OwnConditions();
      out.OwnComponents();
      out.OwnAccess();
    }

    /** Replaces the list of conditions by a copy of its own. */
    method OwnConditions()
      modifies this
      ensures scalars == old(scalars) && components == old(components) && access == old(access)
      ensures ConditionsOf(conditions) == old(ConditionsOf(conditions)) && (conditions != null ==> fresh(conditions))
      ensures ComponentsViewOf(components) == old(ComponentsViewOf(components))
      ensures AccessOf(access) == old(AccessOf(access))
    {
      ghost var services := if components.services == null then map[] else components.services.View();
      if conditions != null {
        var copies := CopyConditions(conditions);
        conditions := copies;
      }
      assert components.services != null ==> components.services.View() == services;
    }

    /** Replaces every target of a pointer by a copy of its own. */
    method OwnComponents()
      modifies this
      ensures scalars == old(scalars) && conditions == old(conditions) && access == old(access)
      ensures ConditionsOf(conditions) == old(ConditionsOf(conditions)) && AccessOf(access) == old(AccessOf(access))
      ensures ComponentsViewOf(components) == old(ComponentsViewOf(components)) && fresh(ComponentsRepr(components))
    {
      ghost var c, services := components, if components.services == null then map[] else components.services.View();
      var copied := CopyComponents(components);
      assert c.services != null ==> c.services.View() == services;
      components := copied;
      assert components.services != null ==> components.services.View() == services;
    }

    /** Replaces the access information by a copy of its own. */
    method OwnAccess()
      modifies this
      ensures scalars == old(scalars) && conditions == old(conditions) && components == old(components)
      ensures ConditionsOf(conditions) == old(ConditionsOf(conditions))
      ensures ComponentsViewOf(components) == old(ComponentsViewOf(components))
      ensures ComponentsRepr(components) == old(ComponentsRepr(components))
      ensures AccessOf(access) == old(AccessOf(access)) && fresh(AccessRepr(access))
    {
      ghost var services := if components.services == null then map[] else components.services.View();
      if access != null {
        var copy := CopyAccess(access);
        access := copy;
      }
      assert components.services != null ==> components.services.View() == services;
    }
  }

  /** Whatever is written to other objects, what these pointers lead to stays the same: a graph and its copy,
      which share none, do not affect each other. */
  twostate lemma SeparateComponentsDoNotInterfere(c: Components, written: set<object>)
    requires old(ComponentsRepr(c)) !! written
    requires forall r: StatusRef :: old(allocated(r)) && r !in written ==> r.value == old(r.value)
    requires forall m: StatusMap :: old(allocated(m)) && m !in written ==> m.entries == old(m.entries)
    ensures ComponentsViewOf(c) == old(ComponentsViewOf(c)) && ComponentsRepr(c) == old(ComponentsRepr(c))
  {
    if c.services != null {
      assert c.services in old(ComponentsRepr(c)) && c.services.entries == old(c.services.entries);
      forall k | k in c.services.entries ensures ViewOf(c.services.entries[k]) == old(ViewOf(c.services.entries[k])) {
        if c.services.entries[k] != null {
          assert c.services.entries[k] in old(c.services.Repr());
        }
      }
      assert c.services.View() == old(c.services.View());
    }
  }

  twostate lemma SeparateAccessDoesNotInterfere(a: AccessRef?, written: set<object>)
    requires old(AccessRepr(a)) !! written
    requires forall r: AccessRef :: old(allocated(r)) && r !in written ==>
      r.addresses == old(r.addresses) && r.endpoints == old(r.endpoints)
    requires forall m: EndpointMap :: old(allocated(m)) && m !in written ==> m.entries == old(m.entries)
    ensures AccessOf(a) == old(AccessOf(a)) && AccessRepr(a) == old(AccessRepr(a))
  {
    if a != null {
      assert a in old(a.Repr());
      assert a.endpoints != null ==> a.endpoints in old(a.Repr());
    }
  }

  method CopyAccess(access: AccessRef) returns (copy: AccessRef)
    ensures fresh(copy.Repr()) && copy.View() == access.View()
  {
    copy := new AccessRef();
    access.DeepCopyInto(copy);
  }

  method CopyConditions(conditions: array<Condition>) returns (copy: array<Condition>)
    ensures fresh(copy) && copy[..] == conditions[..]
  {
    copy := new Condition[conditions.Length](_ => Condition(ReadyCondition, false, 0));
    for i := 0 to conditions.Length
      invariant forall j :: 0 <= j < i ==> copy[j] == conditions[j]
    {
      copy[i] := conditions[i];
    }
  }
}
