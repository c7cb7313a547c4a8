/** Merging labels and annotations, and what the label selectors match. */
module Labels {
  import opened Api

  type Strings = map<string, string>

  /** The right-biased union of the maps, in order. */
  function MergeAll(src: seq<GoMap>): Strings {
    if src == [] then map[] else MergeAll(src[..|src| - 1]) + src[|src| - 1].Entries()
  }

  /** Writes the entries of a map over another one, in whatever order the keys come. */
  method WriteOver(target: Strings, source: GoMap) returns (result: Strings)
    ensures result == target + source.Entries()
  {
    result := target;
    var todo := source.Entries().Keys;
    while todo != {}
      invariant todo <= source.Entries().Keys
      invariant result == target + map key | key in source.Entries() && key !in todo :: source.Entries()[key]
    {
      var key :| key in todo;
      result, todo := result[key := source.Entries()[key]], todo - {key};
    }
    assert result == target + source.Entries();
  }

  method MergeMaps(src: seq<GoMap>) returns (merged: Strings)
    ensures merged == MergeAll(src)
  {
    merged := map[];
    for i := 0 to |src|
      invariant merged == MergeAll(src[..i])
    {
      MergeTake(src, i);
      merged := WriteOver(merged, src[i]);
    }
    assert src[..|src|] == src;
  }

  /** The last map that holds a key. */
  ghost predicate LastHolder(src: seq<GoMap>, key: string, i: int) {
    0 <= i < |src| && key in src[i].Entries() && forall j :: i < j < |src| ==> key !in src[j].Entries()
  }

  ghost predicate Held(src: seq<GoMap>, key: string) {
    exists i :: 0 <= i < |src| && key in src[i].Entries()
  }

  /** Every key is there exactly when some map holds it, with the value of the last one that does. */
  lemma {:induction false} MergedPointwise(src: seq<GoMap>, key: string)
    ensures key in MergeAll(src) <==> Held(src, key)
    ensures forall i :: LastHolder(src, key, i) ==> key in MergeAll(src) && MergeAll(src)[key] == src[i].Entries()[key]
    ensures Held(src, key) ==> exists i :: LastHolder(src, key, i)
  {
    if src != [] {
      var before, n := src[..|src| - 1], |src| - 1;
      MergedPointwise(before, key);
      if key in src[n].Entries() {
        assert LastHolder(src, key, n);
      } else {
        forall i | LastHolder(src, key, i)
          ensures LastHolder(before, key, i)
        {
        }
        if Held(before, key) {
          var i :| LastHolder(before, key, i);
          assert LastHolder(src, key, i);
        }
      }
    }
  }

  lemma MergeSnoc(src: seq<GoMap>, last: GoMap)
    ensures MergeAll(src + [last]) == MergeAll(src) + last.Entries()
  {
    assert (src + [last])[..|src|] == src;
  }

  lemma PlusAssociative(a: Strings, b: Strings, c: Strings)
    ensures (a + b) + c == a + (b + c)
  {
  }

  lemma PlusNothing(a: Strings)
    ensures a + map[] == a && map[] + a == a
  {
  }

  lemma {:induction false} MergeOfConcatenation(a: seq<GoMap>, b: seq<GoMap>)
    ensures MergeAll(a + b) == MergeAll(a) + MergeAll(b)
  {
    if b == [] {
      assert a + b == a;
      PlusNothing(MergeAll(a));
    } else {
      var before, last := b[..|b| - 1], b[|b| - 1];
      MergeOfConcatenation(a, before);
      MergeSnoc(a + before, last);
      assert a + b == a + before + [last];
      PlusAssociative(MergeAll(a), MergeAll(before), last.Entries());
    }
  }

  lemma {:induction false} MergeInsert(a: seq<GoMap>, middle: GoMap, c: seq<GoMap>)
    ensures MergeAll(a + [middle] + c) == MergeAll(a) + middle.Entries() + MergeAll(c)
  {
    MergeOfConcatenation(a + [middle], c);
    MergeSnoc(a, middle);
  }

  /** Merging what was merged before is merging everything at once. */
  lemma MergeAssociative(a: seq<GoMap>, b: seq<GoMap>, c: seq<GoMap>)
    ensures MergeAll(a + [MadeMap(MergeAll(b))] + c) == MergeAll(a + b + c)
  {
    MergeInsert(a, MadeMap(MergeAll(b)), c);
    MergeOfConcatenation(a + b, c);
    MergeOfConcatenation(a, b);
  }

  /** nil and empty maps are units wherever they stand. */
  lemma MergeUnits(a: seq<GoMap>, unit: GoMap, c: seq<GoMap>)
    requires unit == NilMap || unit == MadeMap(map[])
    ensures MergeAll(a + [unit] + c) == MergeAll(a + c)
  {
    MergeInsert(a, unit, c);
    MergeOfConcatenation(a, c);
    PlusNothing(MergeAll(a));
  }

  // ---- Labels ----

  function IdentityLabel(name: string): Strings {
    map["app" := name]
  }

  method AdditionalLabels(labels: GoMap) returns (copy: Strings)
    ensures copy == labels.Entries()
  {
    copy := WriteOver(map[], labels);
  }

  /** What AllLabels amounts to: release first, the given maps over it, app over everything. */
  function LabelsOf(name: string, labelMaps: seq<GoMap>): Strings {
    map["release" := name] + MergeAll(labelMaps) + IdentityLabel(name)
  }

  method AllLabels(name: string, labelMaps: seq<GoMap>) returns (labels: Strings)
    ensures labels == LabelsOf(name, labelMaps)
  {
    labels := map["release" := name];
    for i := 0 to |labelMaps|
      invariant labels == map["release" := name] + MergeAll(labelMaps[..i])
    {
      MergeTake(labelMaps, i);
      if labelMaps[i] == NilMap {
        continue;
      }
      var additional := AdditionalLabels(labelMaps[i]);
      MergeTwo(labels, additional);
      PlusAssociative(map["release" := name], MergeAll(labelMaps[..i]), additional);
      labels := MergeMaps([MadeMap(labels), MadeMap(additional)]);
    }
    assert labelMaps[..|labelMaps|] == labelMaps;
    MergeTwo(labels, IdentityLabel(name));
    labels := MergeMaps([MadeMap(labels), MadeMap(IdentityLabel(name))]);
  }

  lemma MergeTwo(a: Strings, b: Strings)
    ensures MergeAll([MadeMap(a), MadeMap(b)]) == a + b
  {
    var src := [MadeMap(a), MadeMap(b)];
    MergeTake(src, 0);
    MergeTake(src, 1);
    PlusNothing(a);
    assert src[..0] == [] && src[..2] == src;
  }

  /** app is always the name; any other key has the value of the last map that holds it; release defaults to the name. */
  lemma LabelsPointwise(name: string, labelMaps: seq<GoMap>, key: string)
    ensures var labels := LabelsOf(name, labelMaps);
            && (key == "app" ==> key in labels && labels[key] == name)
            && (key != "app" ==>
                  && (forall i :: LastHolder(labelMaps, key, i) ==> key in labels && labels[key] == labelMaps[i].Entries()[key])
                  && (!Held(labelMaps, key) ==> (key in labels <==> key == "release") && (key == "release" ==> labels[key] == name)))
  {
    MergedPointwise(labelMaps, key);
  }

  // ---- Selectors ----

  predicate Matches(selector: Strings, labels: Strings) {
    forall key :: key in selector ==> key in labels && labels[key] == selector[key]
  }

  /** The identity selector of one name matches the labels made for another exactly when the names are the
      same, whatever labels the user sets, app included. */
  lemma SelectorMatchesOwnName(selected: string, name: string, labelMaps: seq<GoMap>)
    ensures Matches(IdentityLabel(selected), LabelsOf(name, labelMaps)) <==> selected == name
  {
    assert "app" in IdentityLabel(selected);
    assert LabelsOf(name, labelMaps)["app"] == name;
  }

  function PartitionJobName(lookout: string): string {
    lookout + "-partition-job-table"
  }

  function PrunerName(lookout: string): string {
    lookout + "-db-pruner"
  }

  /** The selectors of a Lookout's Deployment and Service, and the labels of the Pods it runs. */
  datatype Workload =
    Workload(deploymentSelector: Strings, serviceSelector: Strings,
             deployment: Strings, migrationJob: Strings, partitionJob: Strings, pruner: Strings)

  /** Labels that keep what the user set, app apart, and add nothing but app and release. */
  ghost predicate KeepsUserLabels(labels: Strings, user: Strings) {
    labels.Keys == user.Keys + {"app", "release"} && forall key :: key in user && key != "app" ==> labels[key] == user[key]
  }

  lemma LabelsKeepUser(name: string, labels: GoMap)
    ensures KeepsUserLabels(LabelsOf(name, [labels]), labels.Entries())
    ensures LabelsOf(name, [labels])["app"] == name
  {
    assert [labels][..0] == [];
    MergeTake([labels], 0);
    assert [labels][..1] == [labels];
  }

  /** Both selectors find the Pods of the Deployment and of the migration Job, and neither those of the
      partition Job, which is first built like the migration Job and then relabelled, nor those of the pruner. */
  method LookoutWorkload(lookout: string, labels: GoMap) returns (w: Workload)
    ensures forall selector :: selector in {w.deploymentSelector, w.serviceSelector} ==>
              && Matches(selector, w.deployment) && Matches(selector, w.migrationJob)
              && !Matches(selector, w.partitionJob) && !Matches(selector, w.pruner)
    ensures Matches(map["app" := lookout + "-partition-job-table"], w.partitionJob)
    ensures Matches(map["app" := lookout + "-db-pruner"], w.pruner)
    ensures forall pods :: pods in {w.deployment, w.migrationJob, w.partitionJob, w.pruner} ==> KeepsUserLabels(pods, labels.Entries())
  {
    var deployment := AllLabels(lookout, [labels]);
    var migrationJob := AllLabels(lookout, [labels]);
    var partitionJob := AllLabels(lookout, [labels]);
    partitionJob := AllLabels(PartitionJobName(lookout), [labels]);
    var pruner := AllLabels(PrunerName(lookout), [labels]);
    w := Workload(IdentityLabel(lookout), IdentityLabel(lookout), deployment, migrationJob, partitionJob, pruner);
    SelectorMatchesOwnName(lookout, lookout, [labels]);
    SelectorMatchesOwnName(lookout, PartitionJobName(lookout), [labels]);
    SelectorMatchesOwnName(lookout, PrunerName(lookout), [labels]);
    assert |PartitionJobName(lookout)| > |lookout| && |PrunerName(lookout)| > |lookout|;
    LabelsKeepUser(lookout, labels);
    LabelsKeepUser(PartitionJobName(lookout), labels);
    LabelsKeepUser(PrunerName(lookout), labels);
  }

  /** The Deployment and Service selectors of any Lookout match its own Deployment's Pods and its migration
      Job's, never the partition Job's; another Lookout's partition Job only if it is named like this one. */
  lemma LookoutSelectors(lookout: string, other: string, labels: GoMap, otherLabels: GoMap)
    ensures Matches(IdentityLabel(lookout), LabelsOf(lookout, [labels]))
    ensures !Matches(IdentityLabel(lookout), LabelsOf(PartitionJobName(lookout), [labels]))
    ensures Matches(IdentityLabel(lookout), LabelsOf(PartitionJobName(other), [otherLabels])) <==>
            lookout == other + "-partition-job-table"
  {
    SelectorMatchesOwnName(lookout, lookout, [labels]);
    SelectorMatchesOwnName(lookout, PartitionJobName(lookout), [labels]);
    SelectorMatchesOwnName(lookout, PartitionJobName(other), [otherLabels]);
    assert |PartitionJobName(lookout)| > |lookout|;
  }

  // ---- Ingress annotations ----

  datatype Protocol = Grpc | Http
  type IngressSpec = IngressConfig<GoMap, seq<string>>

  const CLASS := "kubernetes.io/ingress.class"
  const BACKEND := "nginx.ingress.kubernetes.io/backend-protocol"
  const PASSTHROUGH := "nginx.ingress.kubernetes.io/ssl-passthrough"
  const OLD_ISSUER := "certmanager.k8s.io/cluster-issuer"
  const ISSUER := "cert-manager.io/cluster-issuer"

  function ProtocolName(protocol: Protocol): string {
    match protocol
    case Grpc => "GRPC"
    case Http => "HTTP"
  }

  function Computed(config: IngressSpec, protocol: Protocol, useTls: bool): Strings {
    map[CLASS := config.ingressClass]
    + if useTls then map[BACKEND := ProtocolName(protocol) + "S", PASSTHROUGH := "true"] else map[BACKEND := ProtocolName(protocol)]
  }

  function Issuer(config: IngressSpec): Strings {
    if config.clusterIssuer == "" then map[]
    else map[OLD_ISSUER := config.clusterIssuer, ISSUER := config.clusterIssuer]
  }

  /** The four sources of annotations, the later ones winning. */
  function Sources(config: IngressSpec, base: GoMap, protocol: Protocol, useTls: bool): seq<GoMap> {
    [MadeMap(Computed(config, protocol, useTls)), base, MadeMap(Issuer(config)), config.annotations]
  }

  method BuildIngressAnnotations(config: IngressSpec, base: GoMap, protocol: Protocol, useTls: bool)
    returns (annotations: Strings)
    ensures annotations == MergeAll(Sources(config, base, protocol, useTls))
  {
    hide MergeAll, ProtocolName;
    annotations := map[CLASS := config.ingressClass];
    if useTls {
      annotations := annotations[BACKEND := ProtocolName(protocol) + "S"];
      annotations := annotations[PASSTHROUGH := "true"];
    } else {
      annotations := annotations[BACKEND := ProtocolName(protocol)];
    }
    assert annotations == Computed(config, protocol, useTls);
    annotations := WriteOver(annotations, base);
    ghost var based := annotations;
    if config.clusterIssuer != "" {
      annotations := annotations[OLD_ISSUER := config.clusterIssuer];
      annotations := annotations[ISSUER := config.clusterIssuer];
    }
    assert annotations == based + Issuer(config);
    annotations := WriteOver(annotations, config.annotations);
    MergeFour(MadeMap(Computed(config, protocol, useTls)), base, MadeMap(Issuer(config)), config.annotations);
  }

  lemma MergeFour(a: GoMap, b: GoMap, c: GoMap, d: GoMap)
    ensures MergeAll([a, b, c, d]) == a.Entries() + b.Entries() + c.Entries() + d.Entries()
  {
    var src := [a, b, c, d];
    MergeTake(src, 0);
    MergeTake(src, 1);
    MergeTake(src, 2);
    MergeTake(src, 3);
    PlusNothing(a.Entries());
    assert src[..0] == [] && src[..4] == src;
  }

  lemma MergeTake(src: seq<GoMap>, n: nat)
    requires n < |src|
    ensures MergeAll(src[..n + 1]) == MergeAll(src[..n]) + src[n].Entries()
  {
    assert src[..n + 1][..n] == src[..n];
  }

  /** The annotation a key gets when nobody but the operator sets it. */
  function ComputedAt(config: IngressSpec, protocol: Protocol, useTls: bool, key: string): Option<string> {
    if key == "kubernetes.io/ingress.class" then Some(config.ingressClass)
    else if key == "nginx.ingress.kubernetes.io/backend-protocol" then
      match protocol
      case Grpc => Some(if useTls then "GRPCS" else "GRPC")
      case Http => Some(if useTls then "HTTPS" else "HTTP")
    else if key == "nginx.ingress.kubernetes.io/ssl-passthrough" && useTls then Some("true")
    else None
  }

  function At(entries: Strings, key: string): Option<string> {
    if key in entries then Some(entries[key]) else None
  }

  lemma ComputedPointwise(config: IngressSpec, protocol: Protocol, useTls: bool, key: string)
    ensures At(Computed(config, protocol, useTls), key) == ComputedAt(config, protocol, useTls, key)
  {
    assert |CLASS| != |BACKEND| && |CLASS| != |PASSTHROUGH| && |BACKEND| != |PASSTHROUGH|;
    assert CLASS == "kubernetes.io/ingress.class" && BACKEND == "nginx.ingress.kubernetes.io/backend-protocol";
    assert PASSTHROUGH == "nginx.ingress.kubernetes.io/ssl-passthrough";
    assert ProtocolName(Grpc) + "S" == "GRPCS" && ProtocolName(Http) + "S" == "HTTPS";
  }

  /** What the user sets always wins, then the issuer, then the annotations of the controller. */
  lemma AnnotationPriority(config: IngressSpec, base: GoMap, protocol: Protocol, useTls: bool, key: string)
    ensures var found := At(MergeAll(Sources(config, base, protocol, useTls)), key);
            if key in config.annotations.Entries() then found == Some(config.annotations.Entries()[key])
            else if config.clusterIssuer != "" && (key == "cert-manager.io/cluster-issuer" || key == "certmanager.k8s.io/cluster-issuer") then
              found == Some(config.clusterIssuer)
            else if key in base.Entries() then found == Some(base.Entries()[key])
            else found == ComputedAt(config, protocol, useTls, key)
  {
    MergeFour(MadeMap(Computed(config, protocol, useTls)), base, MadeMap(Issuer(config)), config.annotations);
    ComputedPointwise(config, protocol, useTls, key);
    assert key in Issuer(config) <==> config.clusterIssuer != "" && (key == ISSUER || key == OLD_ISSUER);
  }
}
