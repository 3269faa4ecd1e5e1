/** The drift comparison that decides whether a Deployment is rewritten
    (internal/controller/kubenova_controller.go, deploymentSpecEqual and compare*). */
module Drift {
  import opened Types

  // ---------- sequences of names ----------

  predicate Distinct(names: seq<string>) {
    forall i, j :: 0 <= i < j < |names| ==> names[i] != names[j]
  }

  function Elements(names: seq<string>): set<string> {
    set n | n in names
  }

  function MountNames(mounts: seq<VolumeMount>): (names: seq<string>)
    ensures |names| == |mounts| && forall i :: 0 <= i < |mounts| ==> names[i] == mounts[i].name
  {
    seq(|mounts|, i requires 0 <= i < |mounts| => mounts[i].name)
  }

  function VolumeNames(volumes: seq<Volume>): (names: seq<string>)
    ensures |names| == |volumes| && forall i :: 0 <= i < |volumes| ==> names[i] == volumes[i].name
  {
    seq(|volumes|, i requires 0 <= i < |volumes| => volumes[i].name)
  }

  lemma {:induction false} ElementCount(names: seq<string>)
    ensures |Elements(names)| <= |names|
    ensures |Elements(names)| == |names| <==> Distinct(names)
  {
    if names != [] {
      var n := |names| - 1;
      ElementCount(names[..n]);
      assert Elements(names) == Elements(names[..n]) + {names[n]};
      if names[n] !in names[..n] {
        assert |Elements(names)| == |Elements(names[..n])| + 1;
        assert Distinct(names[..n]) ==> Distinct(names);
      } else {
        assert Elements(names) == Elements(names[..n]);
        var i :| 0 <= i < n && names[i] == names[n];
        assert !Distinct(names);
      }
    }
  }

  lemma SubsetOfEqualSize(a: set<string>, b: set<string>)
    requires a <= b && |a| >= |b|
    ensures a == b
  {
    assert a + (b - a) == b;
    assert |a| + |b - a| == |b|;
  }

  /** Equal length and one inclusion already give equality, as soon as the included names are distinct. */
  lemma Pigeonhole(existing: seq<string>, desired: seq<string>)
    requires |existing| == |desired| && Distinct(desired)
    requires Elements(desired) <= Elements(existing)
    ensures Elements(existing) == Elements(desired) && Distinct(existing)
  {
    ElementCount(existing);
    ElementCount(desired);
    SubsetOfEqualSize(Elements(desired), Elements(existing));
  }

  // ---------- volumes ----------

  predicate VolumesMatch(existing: seq<Volume>, desired: seq<Volume>) {
    |existing| == |desired| && forall v :: v in desired ==> v.name in VolumeNames(existing)
  }

  method CompareVolumes(existing: seq<Volume>, desired: seq<Volume>) returns (equal: bool)
    ensures equal <==> VolumesMatch(existing, desired)
  {
    if |existing| != |desired| {
      return false;
    }
    var names: map<string, bool> := map[];
    for i := 0 to |existing|
      invariant forall n :: n in names <==> n in VolumeNames(existing)[..i]
    {
      names := names[existing[i].name := true];
    }
    assert VolumeNames(existing)[..|existing|] == VolumeNames(existing);
    for i := 0 to |desired|
      invariant forall j :: 0 <= j < i ==> desired[j].name in VolumeNames(existing)
    {
      if desired[i].name !in names {
        return false;
      }
    }
    return true;
  }

  /** What the comparison means when the desired names are distinct: the very same set of names, none twice. */
  lemma VolumesMatchIsNameSetEquality(existing: seq<Volume>, desired: seq<Volume>)
    requires Distinct(VolumeNames(desired))
    ensures VolumesMatch(existing, desired) <==>
            Distinct(VolumeNames(existing)) && Elements(VolumeNames(existing)) == Elements(VolumeNames(desired))
  {
    var e, d := VolumeNames(existing), VolumeNames(desired);
    ElementCount(e);
    ElementCount(d);
    if VolumesMatch(existing, desired) {
      forall n | n in Elements(d) ensures n in Elements(e) {
        var i :| 0 <= i < |d| && d[i] == n;
        assert desired[i] in desired;
      }
      Pigeonhole(e, d);
    }
    if Elements(e) == Elements(d) {
      forall v | v in desired ensures v.name in e {
        var i :| 0 <= i < |desired| && desired[i] == v;
        assert d[i] in Elements(e);
      }
    }
  }

  // ---------- mounts ----------

  /** Where each name is mounted; a later mount of the same name hides the earlier one. */
  function PathMap(mounts: seq<VolumeMount>): map<string, string> {
    if mounts == [] then map[]
    else PathMap(mounts[..|mounts| - 1])[mounts[|mounts| - 1].name := mounts[|mounts| - 1].mountPath]
  }

  predicate MountsMatch(existing: seq<VolumeMount>, desired: seq<VolumeMount>) {
    |existing| == |desired| &&
    forall m :: m in desired ==> m.name in PathMap(existing) && PathMap(existing)[m.name] == m.mountPath
  }

  /** No name is mounted at two different paths. */
  predicate OnePathPerName(mounts: seq<VolumeMount>) {
    forall i, j :: 0 <= i < |mounts| && 0 <= j < |mounts| && mounts[i].name == mounts[j].name
      ==> mounts[i].mountPath == mounts[j].mountPath
  }

  method CompareVolumeMounts(existing: seq<VolumeMount>, desired: seq<VolumeMount>) returns (equal: bool)
    ensures equal <==> MountsMatch(existing, desired)
  {
    if |existing| != |desired| {
      return false;
    }
    var byName: map<string, VolumeMount> := map[];
    for i := 0 to |existing|
      invariant byName.Keys == PathMap(existing[..i]).Keys
      invariant forall n :: n in byName ==> byName[n].mountPath == PathMap(existing[..i])[n]
    {
      assert existing[..i + 1][..i] == existing[..i];
      byName := byName[existing[i].name := existing[i]];
    }
    assert existing[..|existing|] == existing;
    for i := 0 to |desired|
      invariant forall j :: 0 <= j < i ==>
        desired[j].name in PathMap(existing) && PathMap(existing)[desired[j].name] == desired[j].mountPath
    {
      if desired[i].name !in byName || byName[desired[i].name].mountPath != desired[i].mountPath {
        return false;
      }
    }
    return true;
  }

  lemma {:induction false} PathMapDomain(mounts: seq<VolumeMount>)
    ensures PathMap(mounts).Keys == Elements(MountNames(mounts))
    ensures forall n :: n in PathMap(mounts) ==>
      exists i :: 0 <= i < |mounts| && mounts[i].name == n && mounts[i].mountPath == PathMap(mounts)[n]
  {
    if mounts != [] {
      var k := |mounts| - 1;
      var front, last := mounts[..k], mounts[k];
      PathMapDomain(front);
      assert MountNames(mounts) == MountNames(front) + [last.name];
      forall n | n in PathMap(mounts)
        ensures exists i :: 0 <= i < |mounts| && mounts[i].name == n && mounts[i].mountPath == PathMap(mounts)[n]
      {
        if n == last.name {
          assert mounts[k].name == n;
        } else {
          var i :| 0 <= i < k && front[i].name == n && front[i].mountPath == PathMap(front)[n];
          assert mounts[i] == front[i];
        }
      }
    }
  }

  lemma PathMapLooksUp(mounts: seq<VolumeMount>, i: nat)
    requires OnePathPerName(mounts) && i < |mounts|
    ensures mounts[i].name in PathMap(mounts) && PathMap(mounts)[mounts[i].name] == mounts[i].mountPath
  {
    PathMapDomain(mounts);
    assert MountNames(mounts)[i] in Elements(MountNames(mounts));
  }

  lemma OnePathMountsMatchThemselves(mounts: seq<VolumeMount>)
    requires OnePathPerName(mounts)
    ensures MountsMatch(mounts, mounts)
  {
    forall m | m in mounts ensures m.name in PathMap(mounts) && PathMap(mounts)[m.name] == m.mountPath {
      var i :| 0 <= i < |mounts| && mounts[i] == m;
      PathMapLooksUp(mounts, i);
    }
  }

  lemma MatchingMountsHaveOneDomain(existing: seq<VolumeMount>, desired: seq<VolumeMount>)
    requires Distinct(MountNames(desired)) && MountsMatch(existing, desired)
    ensures Distinct(MountNames(existing)) && PathMap(existing).Keys == PathMap(desired).Keys
  {
    var e, d := MountNames(existing), MountNames(desired);
    PathMapDomain(existing);
    PathMapDomain(desired);
    forall n | n in Elements(d) ensures n in Elements(e) {
      var i :| 0 <= i < |d| && d[i] == n;
      assert desired[i] in desired;
    }
    Pigeonhole(e, d);
  }

  /** What the comparison means when the desired names are distinct: equal name-to-path maps, no name twice. */
  lemma MountsMatchIsPathMapEquality(existing: seq<VolumeMount>, desired: seq<VolumeMount>)
    requires Distinct(MountNames(desired))
    ensures MountsMatch(existing, desired) <==>
            Distinct(MountNames(existing)) && PathMap(existing) == PathMap(desired)
  {
    OnePathMountsMatchThemselves(desired);
    if MountsMatch(existing, desired) {
      MatchingMountsHaveOneDomain(existing, desired);
      PathMapDomain(desired);
      forall n | n in PathMap(desired) ensures PathMap(existing)[n] == PathMap(desired)[n] {
        var i :| 0 <= i < |desired| && desired[i].name == n && desired[i].mountPath == PathMap(desired)[n];
        assert desired[i] in desired;
      }
      assert PathMap(existing) == PathMap(desired);
    }
    if Distinct(MountNames(existing)) && PathMap(existing) == PathMap(desired) {
      PathMapDomain(existing);
      PathMapDomain(desired);
      ElementCount(MountNames(existing));
      ElementCount(MountNames(desired));
    }
  }

  predicate Mounted(mounts: seq<VolumeMount>, name: string, path: string) {
    exists m :: m in mounts && m.name == name && m.mountPath == path
  }

  lemma PathMapIsMounted(mounts: seq<VolumeMount>, name: string, path: string)
    requires Distinct(MountNames(mounts))
    ensures Mounted(mounts, name, path) <==> name in PathMap(mounts) && PathMap(mounts)[name] == path
  {
    PathMapDomain(mounts);
    assert OnePathPerName(mounts) by {
      assert forall i, j :: 0 <= i < j < |mounts| ==> mounts[i].name == MountNames(mounts)[i] != mounts[j].name;
    }
    if Mounted(mounts, name, path) {
      var m :| m in mounts && m.name == name && m.mountPath == path;
      var i :| 0 <= i < |mounts| && mounts[i] == m;
      PathMapLooksUp(mounts, i);
    }
  }

  /** What the comparison means when the desired names are distinct, mount by mount. */
  lemma MountsMatchIffSamePlaces(existing: seq<VolumeMount>, desired: seq<VolumeMount>)
    requires Distinct(MountNames(desired))
    ensures MountsMatch(existing, desired) <==>
            Distinct(MountNames(existing)) && forall n, p :: Mounted(existing, n, p) <==> Mounted(desired, n, p)
  {
    hide Mounted;
    MountsMatchIsPathMapEquality(existing, desired);
    if Distinct(MountNames(existing)) {
      forall n, p ensures Mounted(existing, n, p) <==> n in PathMap(existing) && PathMap(existing)[n] == p
                  ensures Mounted(desired, n, p) <==> n in PathMap(desired) && PathMap(desired)[n] == p {
        PathMapIsMounted(existing, n, p);
        PathMapIsMounted(desired, n, p);
      }
      if forall n, p :: Mounted(existing, n, p) <==> Mounted(desired, n, p) {
        assert forall n :: n in PathMap(existing) ==> Mounted(existing, n, PathMap(existing)[n]);
        assert forall n :: n in PathMap(desired) ==> Mounted(desired, n, PathMap(desired)[n]);
        assert PathMap(existing) == PathMap(desired);
      }
    }
  }

  /** Mounts that put one name at two paths match nothing at all, and only those do. */
  lemma MatchedByNothingIffTwoPaths(desired: seq<VolumeMount>)
    ensures (exists existing :: MountsMatch(existing, desired)) <==> OnePathPerName(desired)
  {
    if OnePathPerName(desired) {
      OnePathMountsMatchThemselves(desired);
    } else {
      var i, j :| 0 <= i < |desired| && 0 <= j < |desired| && desired[i].name == desired[j].name
        && desired[i].mountPath != desired[j].mountPath;
      assert desired[i] in desired && desired[j] in desired;
    }
  }

  // ---------- environment variables ----------

  /** The literal values; an empty value (one taken from elsewhere, say) is skipped. */
  function ValueMap(env: seq<EnvVar>): map<string, string> {
    if env == [] then map[]
    else
      var front, last := ValueMap(env[..|env| - 1]), env[|env| - 1];
      if last.value != "" then front[last.name := last.value] else front
  }

  predicate EnvMatch(existing: seq<EnvVar>, desired: seq<EnvVar>) {
    |existing| == |desired| && ValueMap(existing) == ValueMap(desired)
  }

  /** The name has this value: the last one given for it that is not empty. */
  ghost predicate Says(env: seq<EnvVar>, name: string, value: string) {
    value != "" && exists i :: 0 <= i < |env| && env[i].name == name && env[i].value == value
                               && forall j :: i < j < |env| && env[j].name == name ==> env[j].value == ""
  }

  lemma SaysOneMore(env: seq<EnvVar>, last: EnvVar, name: string, value: string)
    ensures Says(env + [last], name, value)
            <==> if last.name == name && last.value != "" then last.value == value else Says(env, name, value)
  {
    var longer, n := env + [last], |env|;
    if last.name == name && last.value != "" {
      assert longer[n] == last;
    } else {
      if Says(env, name, value) {
        var i :| 0 <= i < n && env[i].name == name && env[i].value == value
                 && forall j :: i < j < n && env[j].name == name ==> env[j].value == "";
        assert longer[i] == env[i];
      }
      if Says(longer, name, value) {
        var i :| 0 <= i < n + 1 && longer[i].name == name && longer[i].value == value
                 && forall j :: i < j < n + 1 && longer[j].name == name ==> longer[j].value == "";
        assert forall j :: i <= j < n ==> longer[j] == env[j];
      }
    }
  }

  lemma {:induction false} ValueMapSays(env: seq<EnvVar>, name: string, value: string)
    ensures Says(env, name, value) <==> name in ValueMap(env) && ValueMap(env)[name] == value
  {
    hide Says;
    if env == [] {
      NothingSaid(name, value);
    } else {
      var front, last := env[..|env| - 1], env[|env| - 1];
      assert env == front + [last];
      ValueMapSays(front, name, value);
      SaysOneMore(front, last, name, value);
    }
  }

  lemma NothingSaid(name: string, value: string)
    ensures !Says([], name, value)
  {
  }

  /** Equal environments have as many entries and give every name the same value. */
  lemma EnvMatchIffSameValues(a: seq<EnvVar>, b: seq<EnvVar>)
    ensures EnvMatch(a, b) <==> |a| == |b| && forall n, v :: Says(a, n, v) <==> Says(b, n, v)
  {
    hide Says;
    forall n, v ensures Says(a, n, v) <==> n in ValueMap(a) && ValueMap(a)[n] == v
                ensures Says(b, n, v) <==> n in ValueMap(b) && ValueMap(b)[n] == v {
      ValueMapSays(a, n, v);
      ValueMapSays(b, n, v);
    }
    if forall n, v :: Says(a, n, v) <==> Says(b, n, v) {
      assert forall n :: n in ValueMap(a) ==> Says(a, n, ValueMap(a)[n]);
      assert forall n :: n in ValueMap(b) ==> Says(b, n, ValueMap(b)[n]);
      assert ValueMap(a) == ValueMap(b);
    }
  }

  method FillValues(env: seq<EnvVar>) returns (values: map<string, string>)
    ensures values == ValueMap(env)
  {
    values := map[];
    for i := 0 to |env|
      invariant values == ValueMap(env[..i])
    {
      assert env[..i + 1][..i] == env[..i];
      if env[i].value != "" {
        values := values[env[i].name := env[i].value];
      }
    }
    assert env[..|env|] == env;
  }

  method CompareEnvVars(existing: seq<EnvVar>, desired: seq<EnvVar>) returns (equal: bool)
    ensures equal <==> EnvMatch(existing, desired)
  {
    if |existing| != |desired| {
      return false;
    }
    var a := FillValues(existing);
    var b := FillValues(desired);
    return a == b;
  }

  // ---------- the whole specification ----------

  predicate ContainersMatch(a: Container, b: Container) {
    a.image == b.image && EnvMatch(a.env, b.env) && a.resources == b.resources && MountsMatch(a.mounts, b.mounts)
  }

  predicate SpecEqual(existing: DeploymentSpec, desired: DeploymentSpec) {
    existing.replicas == desired.replicas
    && |existing.template.containers| == |desired.template.containers|
    && (|desired.template.containers| > 0 ==>
          ContainersMatch(existing.template.containers[0], desired.template.containers[0]))
    && VolumesMatch(existing.template.volumes, desired.template.volumes)
    && existing.template.serviceAccountName == desired.template.serviceAccountName
  }

  method DeploymentSpecEqual(existing: DeploymentSpec, desired: DeploymentSpec) returns (equal: bool)
    ensures equal <==> SpecEqual(existing, desired)
  {
    if existing.replicas != desired.replicas {
      return false;
    }
    if |existing.template.containers| != |desired.template.containers| {
      return false;
    }
    if |existing.template.containers| > 0 && |desired.template.containers| > 0 {
      var a, b := existing.template.containers[0], desired.template.containers[0];
      if a.image != b.image {
        return false;
      }
      var env := CompareEnvVars(a.env, b.env);
      if !env {
        return false;
      }
      if a.resources.requests != b.resources.requests || a.resources.limits != b.resources.limits {
        return false;
      }
      var mounts := CompareVolumeMounts(a.mounts, b.mounts);
      if !mounts {
        return false;
      }
    }
    var volumes := CompareVolumes(existing.template.volumes, desired.template.volumes);
    if !volumes {
      return false;
    }
    return existing.template.serviceAccountName == desired.template.serviceAccountName;
  }

  /** The first container's mounts and the volumes carry distinct names. */
  predicate Comparable(d: DeploymentSpec) {
    Distinct(VolumeNames(d.template.volumes))
    && (|d.template.containers| > 0 ==> Distinct(MountNames(d.template.containers[0].mounts)))
  }

  /** These two containers run the same image in the same environment, with the same resources and mounts. */
  ghost predicate SameProgram(a: Container, b: Container) {
    a.image == b.image && a.resources == b.resources
    && |a.env| == |b.env| && (forall n, v :: Says(a.env, n, v) <==> Says(b.env, n, v))
    && Distinct(MountNames(a.mounts)) && (forall n, p :: Mounted(a.mounts, n, p) <==> Mounted(b.mounts, n, p))
  }

  /** All that the comparison sees, when the desired specification can be compared. */
  lemma SpecEqualIffSameInWhatCounts(a: DeploymentSpec, b: DeploymentSpec)
    requires Comparable(b)
    ensures SpecEqual(a, b) <==>
            a.replicas == b.replicas && a.template.serviceAccountName == b.template.serviceAccountName
            && |a.template.containers| == |b.template.containers|
            && (|b.template.containers| > 0 ==> SameProgram(a.template.containers[0], b.template.containers[0]))
            && Distinct(VolumeNames(a.template.volumes))
            && Elements(VolumeNames(a.template.volumes)) == Elements(VolumeNames(b.template.volumes))
  {
    hide VolumesMatch, MountsMatch, EnvMatch, Says, Mounted;
    VolumesMatchIsNameSetEquality(a.template.volumes, b.template.volumes);
    if |a.template.containers| == |b.template.containers| > 0 {
      var x, y := a.template.containers[0], b.template.containers[0];
      EnvMatchIffSameValues(x.env, y.env);
      MountsMatchIffSamePlaces(x.mounts, y.mounts);
    }
  }

  /** What no comparison sees: nothing else about the pod. */
  lemma TheRestIsNotCompared(a: DeploymentSpec, b: DeploymentSpec, c: DeploymentSpec)
    requires SpecEqual(a, b) && c.replicas == a.replicas
    requires c.template == a.template.(imagePullSecrets := c.template.imagePullSecrets, volumes := c.template.volumes,
                                       untouched := c.template.untouched, containers := c.template.containers)
    requires |c.template.volumes| == |a.template.volumes|
    requires forall i :: 0 <= i < |a.template.volumes| ==> c.template.volumes[i].name == a.template.volumes[i].name
    requires |c.template.containers| == |a.template.containers|
    requires |a.template.containers| > 0 ==>
      var x, y := a.template.containers[0], c.template.containers[0];
      y == x.(name := y.name, pullPolicy := y.pullPolicy, ports := y.ports, envFromSecret := y.envFromSecret)
    ensures SpecEqual(c, b)
  {
    assert VolumeNames(c.template.volumes) == VolumeNames(a.template.volumes);
  }

  /** The comparison accepts a specification as equal to itself exactly when no name is mounted at two paths. */
  lemma SelfEqualIffOnePathPerName(d: DeploymentSpec)
    ensures SpecEqual(d, d) <==> |d.template.containers| > 0 ==> OnePathPerName(d.template.containers[0].mounts)
  {
    forall v | v in d.template.volumes ensures v.name in VolumeNames(d.template.volumes) {
      var i :| 0 <= i < |d.template.volumes| && d.template.volumes[i] == v;
      assert VolumeNames(d.template.volumes)[i] == v.name;
    }
    if |d.template.containers| > 0 {
      var mounts := d.template.containers[0].mounts;
      MatchedByNothingIffTwoPaths(mounts);
      if OnePathPerName(mounts) {
        OnePathMountsMatchThemselves(mounts);
      }
    }
  }

  /** On comparable specifications the comparison is symmetric and transitive, and comparability spreads. */
  lemma SpecEqualIsAnEquivalence(a: DeploymentSpec, b: DeploymentSpec, c: DeploymentSpec)
    requires Comparable(b) && SpecEqual(a, b)
    ensures Comparable(a) && SpecEqual(a, a) && SpecEqual(b, a)
    ensures SpecEqual(b, c) && Comparable(c) ==> SpecEqual(a, c)
  {
    VolumesMatchIsNameSetEquality(a.template.volumes, b.template.volumes);
    VolumesMatchIsNameSetEquality(b.template.volumes, a.template.volumes);
    if |b.template.containers| > 0 {
      var x, y := a.template.containers[0].mounts, b.template.containers[0].mounts;
      MountsMatchIsPathMapEquality(x, y);
      MountsMatchIsPathMapEquality(y, x);
    }
    SelfEqualIffOnePathPerName(a);
    if SpecEqual(b, c) && Comparable(c) {
      VolumesMatchIsNameSetEquality(b.template.volumes, c.template.volumes);
      VolumesMatchIsNameSetEquality(a.template.volumes, c.template.volumes);
      if |c.template.containers| > 0 {
        MountsMatchIsPathMapEquality(b.template.containers[0].mounts, c.template.containers[0].mounts);
        MountsMatchIsPathMapEquality(a.template.containers[0].mounts, c.template.containers[0].mounts);
      }
    }
  }

  /** A specification that puts one name at two paths differs from every other one, itself included. */
  lemma TwoPathsDifferFromEverything(desired: DeploymentSpec)
    requires |desired.template.containers| > 0
    requires !OnePathPerName(desired.template.containers[0].mounts)
    ensures forall existing :: !SpecEqual(existing, desired)
  {
    MatchedByNothingIffTwoPaths(desired.template.containers[0].mounts);
  }

  // ---------- what the store makes of quantities ----------

  type Quantities = Option<map<string, string>>

  /** A list of quantities after a round trip through the store: each in its canonical form, an empty list absent. */
  function Canonical(canon: Canon, list: Quantities): Quantities {
    if list.None? || list.value == map[] then None
    else Some(map k | k in list.value :: canon(list.value[k]))
  }

  function CanonicalResources(canon: Canon, r: Resources): Resources {
    Resources(Canonical(canon, r.requests), Canonical(canon, r.limits))
  }

  function StoredForm(canon: Canon, d: DeploymentSpec): DeploymentSpec {
    var pod := d.template;
    d.(template := pod.(containers :=
      seq(|pod.containers|, i requires 0 <= i < |pod.containers| =>
        pod.containers[i].(resources := CanonicalResources(canon, pod.containers[i].resources)))))
  }

  // ---------- the update ----------

  /** The fields an update copies from the desired specification; the web update leaves the account alone. */
  function CopyFields(k: Key, stored: DeploymentSpec, desired: DeploymentSpec): DeploymentSpec {
    var pod, want := stored.template, desired.template;
    DeploymentSpec(desired.replicas,
      pod.(containers := want.containers, volumes := want.volumes, imagePullSecrets := want.imagePullSecrets,
           serviceAccountName :=
             if k == DeploymentKey(WebFrontend) then pod.serviceAccountName else want.serviceAccountName))
  }

  /** A stored Deployment that needs no update: the comparison accepts it, or it has just been given these fields
      by a store that writes quantities this way. */
  predicate Applied(canon: Canon, k: Key, stored: DeploymentSpec, desired: DeploymentSpec) {
    SpecEqual(stored, desired) || stored == StoredForm(canon, CopyFields(k, stored, desired))
  }

  lemma CopyingApplies(canon: Canon, k: Key, stored: DeploymentSpec, desired: DeploymentSpec)
    ensures Applied(canon, k, StoredForm(canon, CopyFields(k, stored, desired)), desired)
    ensures Applied(canon, k, StoredForm(canon, desired), desired)
  {
    hide SpecEqual, CanonicalResources;
  }

  /** Outside the web front end, what needs no update is accepted by the comparison for the manifest or for the
      form the store gives it, if the manifest is accepted by itself. */
  lemma AppliedIsEqual(canon: Canon, k: Key, stored: DeploymentSpec, desired: DeploymentSpec)
    requires Applied(canon, k, stored, desired) && k != DeploymentKey(WebFrontend) && SpecEqual(desired, desired)
    ensures SpecEqual(stored, desired) || SpecEqual(stored, StoredForm(canon, desired))
  {
    hide CanonicalResources;
  }
}
