/** Acceptance of a specification (internal/validator/validator.go and the validators of
    api/v1/kubenova_types.go). */
module Validation {
  import opened Types

  datatype Section = DatabaseSection | CacheSection | StorageSection | TelemetrySection | JWTSection | WebSection

  predicate ValidPort(port: int) {
    0 < port <= 65535
  }

  predicate ValidDatabase(db: Database) {
    db.host != "" && db.database != "" && db.user != "" && db.password != "" && ValidPort(db.port)
  }

  predicate ValidCache(cache: Cache) {
    cache.host != "" && ValidPort(cache.port) && (cache.kind == "node" || cache.kind == "cluster")
  }

  predicate ValidStorage(storage: Storage) {
    storage.endpoint != "" && storage.accessKey != "" && storage.secretKey != "" && storage.bucket != ""
    && (storage.tls.Some? && storage.tls.value.enabled ==> storage.tls.value.secretName != "")
  }

  predicate ValidJWT(jwt: JWT) {
    |jwt.accessSecret| >= 32 && |jwt.refreshSecret| >= 32
  }

  predicate ValidWeb(web: WebConfig) {
    if web.exposeType == "ingress" then
      web.ingress.Some? && web.ingress.value.host != ""
      && (IngressTLSEnabled(web) ==> web.ingress.value.tls.value.secretName != "")
    else if web.exposeType == "nodeport" then
      HTTPSEnabled(web) ==> web.nodePort.value.https.value.secretName != ""
    else
      false
  }

  /** The first section that is rejected, if any. */
  function ValidateKubeNova(spec: Spec): (error: Option<Section>)
  {
    if !ValidDatabase(spec.database) then Some(DatabaseSection)
    else if !ValidCache(spec.cache) then Some(CacheSection)
    else if !ValidStorage(spec.storage) then Some(StorageSection)
    else if TelemetryEnabled(spec) && spec.telemetry.value.jaegerEndpoint == "" then Some(TelemetrySection)
    else if !ValidJWT(spec.services.jwt) then Some(JWTSection)
    else if !ValidWeb(spec.web) then Some(WebSection)
    else None
  }

  predicate Accepted(spec: Spec) {
    ValidateKubeNova(spec).None?
  }

  /** The texts that may not be empty: the addresses and credentials, and whatever a feature that is switched on
      needs. */
  function MandatoryTexts(spec: Spec): set<string> {
    var db, storage, web := spec.database, spec.storage, spec.web;
    {db.host, db.database, db.user, db.password, spec.cache.host,
     storage.endpoint, storage.accessKey, storage.secretKey, storage.bucket}
    + (match storage.tls case Some(tls) => (if tls.enabled then {tls.secretName} else {}) case None => {})
    + (match spec.telemetry case Some(t) => (if t.enabled then {t.jaegerEndpoint} else {}) case None => {})
    + (if web.exposeType == "ingress" && web.ingress.Some? then
         {web.ingress.value.host}
         + match web.ingress.value.tls case Some(tls) => (if tls.enabled then {tls.secretName} else {}) case None => {}
       else if web.exposeType == "nodeport" && web.nodePort.Some? then
         match web.nodePort.value.https case Some(tls) => (if tls.enabled then {tls.secretName} else {}) case None => {}
       else {})
  }

  /** A specification is accepted exactly when no mandatory text is empty, both ports are ports, both secrets of the
      tokens are long enough, the cache is of a known type and the front end is exposed in one of the two ways. */
  lemma AcceptedIff(spec: Spec)
    ensures Accepted(spec) <==>
            "" !in MandatoryTexts(spec)
            && 1 <= spec.database.port <= 65535 && 1 <= spec.cache.port <= 65535
            && |spec.services.jwt.accessSecret| >= 32 && |spec.services.jwt.refreshSecret| >= 32
            && spec.cache.kind in {"node", "cluster"}
            && (spec.web.exposeType == "nodeport" || (spec.web.exposeType == "ingress" && spec.web.ingress.Some?))
  {
    assert |"ingress"| == 7 && |"nodeport"| == 8;
  }

  /** What is wrong with a section, in its own fields. */
  predicate AtFault(spec: Spec, s: Section) {
    match s
    case DatabaseSection =>
      "" in {spec.database.host, spec.database.database, spec.database.user, spec.database.password}
      || !(1 <= spec.database.port <= 65535)
    case CacheSection =>
      spec.cache.host == "" || !(1 <= spec.cache.port <= 65535) || spec.cache.kind !in {"node", "cluster"}
    case StorageSection =>
      "" in {spec.storage.endpoint, spec.storage.accessKey, spec.storage.secretKey, spec.storage.bucket}
      || spec.storage.tls == Some(MinIOTLS(true, ""))
    case TelemetrySection =>
      spec.telemetry.Some? && spec.telemetry.value.enabled && spec.telemetry.value.jaegerEndpoint == ""
    case JWTSection => |spec.services.jwt.accessSecret| < 32 || |spec.services.jwt.refreshSecret| < 32
    case WebSection =>
      var web := spec.web;
      if web.exposeType == "ingress" then
        web.ingress.None? || web.ingress.value.host == "" || web.ingress.value.tls == Some(IngressTLS(true, ""))
      else
        web.exposeType != "nodeport"
        || (web.nodePort.Some? && web.nodePort.value.https.Some?
            && web.nodePort.value.https.value.enabled && web.nodePort.value.https.value.secretName == "")
  }

  const SECTIONS := [DatabaseSection, CacheSection, StorageSection, TelemetrySection, JWTSection, WebSection]

  /** The section named is the first one at fault. */
  lemma FirstFaultIsNamed(spec: Spec)
    ensures Accepted(spec) <==> forall s :: !AtFault(spec, s)
    ensures forall i :: 0 <= i < |SECTIONS| ==>
              (ValidateKubeNova(spec) == Some(SECTIONS[i])
               <==> AtFault(spec, SECTIONS[i]) && forall j :: 0 <= j < i ==> !AtFault(spec, SECTIONS[j]))
  {
    assert AtFault(spec, DatabaseSection) <==> !ValidDatabase(spec.database);
    assert AtFault(spec, CacheSection) <==> !ValidCache(spec.cache);
    assert AtFault(spec, StorageSection) <==> !ValidStorage(spec.storage);
    assert AtFault(spec, JWTSection) <==> !ValidJWT(spec.services.jwt);
    WebFault(spec);
    hide AtFault, ValidDatabase, ValidCache, ValidStorage, ValidJWT, ValidWeb;
    assert SECTIONS[0] == DatabaseSection && SECTIONS[1] == CacheSection && SECTIONS[2] == StorageSection;
    assert SECTIONS[3] == TelemetrySection && SECTIONS[4] == JWTSection && SECTIONS[5] == WebSection;
  }

  lemma WebFault(spec: Spec)
    ensures AtFault(spec, WebSection) <==> !ValidWeb(spec.web)
    ensures AtFault(spec, TelemetrySection)
            <==> TelemetryEnabled(spec) && spec.telemetry.value.jaegerEndpoint == ""
  {
    assert |"ingress"| == 7 && |"nodeport"| == 8;
    if spec.web.ingress.Some? && spec.web.ingress.value.tls.Some? {
      var tls := spec.web.ingress.value.tls.value;
      assert tls.enabled && tls.secretName == "" <==> tls == IngressTLS(true, "");
    }
  }
}
