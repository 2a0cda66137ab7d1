/** The isolation verdict on a compose project, from the policies written in its files. */
module ComposePolicy {
  import opened Text

  /** `external` is true for a scalar that decodes to true and for a mapping. */
  datatype RawResource = RawResource(name: string, external: bool)

  type RawResources = map<string, RawResource>

  datatype RawFile = RawFile(networks: RawResources, volumes: RawResources, secrets: RawResources,
    configs: RawResources)

  /** What is known of one kind of resource after reading some files. */
  datatype Policy = Policy(names: map<string, string>, external: set<string>)

  datatype Policies = Policies(networks: Policy, volumes: Policy, secrets: Policy, configs: Policy)

  datatype Service = Service(
    containerName: string, ports: nat, networkMode: string, net: string,
    pid: string, ipc: string, cgroup: string, hasProvider: bool)

  /** The effective project: its services and the names of the resources it keeps. */
  datatype Project = Project(
    services: map<string, Service>,
    networks: set<string>, volumes: set<string>, secrets: set<string>, configs: set<string>)

  datatype Kind = Networks | Volumes | Secrets | Configs

  function ResourcesOf(file: RawFile, kind: Kind): RawResources {
    match kind
    case Networks => file.networks
    case Volumes => file.volumes
    case Secrets => file.secrets
    case Configs => file.configs
  }

  function PolicyOf(policies: Policies, kind: Kind): Policy {
    match kind
    case Networks => policies.networks
    case Volumes => policies.volumes
    case Secrets => policies.secrets
    case Configs => policies.configs
  }

  function RetainedOf(project: Project, kind: Kind): set<string> {
    match kind
    case Networks => project.networks
    case Volumes => project.volumes
    case Secrets => project.secrets
    case Configs => project.configs
  }

  // Reading the files -----------------------------------------------------------

  /** Some file gives the resource a name of its own, or declares it external. */
  predicate NamedIn(files: seq<RawFile>, kind: Kind, name: string) {
    exists i :: 0 <= i < |files| && name in ResourcesOf(files[i], kind) && ResourcesOf(files[i], kind)[name].name != ""
  }

  predicate ExternalIn(files: seq<RawFile>, kind: Kind, name: string) {
    exists i :: 0 <= i < |files| && name in ResourcesOf(files[i], kind) && ResourcesOf(files[i], kind)[name].external
  }

  /** What the merged policies of one kind say, whatever the order of reading. */
  ghost predicate Summarises(policy: Policy, files: seq<RawFile>, kind: Kind) {
    && (forall name :: name in policy.names <==> NamedIn(files, kind, name))
    && (forall name :: name in policy.names ==> policy.names[name] != "")
    && (forall name :: name in policy.external <==> ExternalIn(files, kind, name))
  }

  lemma PrefixMembers(order: seq<string>, k: nat)
    requires k < |order|
    ensures forall name :: name in order[..k + 1] <==> name in order[..k] || name == order[k]
  {
    assert order[..k + 1] == order[..k] + [order[k]];
  }

  /** One of the four inner loops; `order` is the iteration order of the map. */
  method MergeResources(policy: Policy, resources: RawResources, order: seq<string>) returns (merged: Policy)
    requires Enumerates(order, resources.Keys)
    requires forall name :: name in policy.names ==> policy.names[name] != ""
    ensures forall name :: name in merged.names <==>
      name in policy.names || (name in resources && resources[name].name != "")
    ensures forall name :: name in resources && resources[name].name != "" ==>
      merged.names[name] == resources[name].name
    ensures forall name :: name in policy.names && (name !in resources || resources[name].name == "") ==>
      merged.names[name] == policy.names[name]
    ensures forall name :: name in merged.names ==> merged.names[name] != ""
    ensures forall name :: name in merged.external <==>
      name in policy.external || (name in resources && resources[name].external)
  {
    var names, external := policy.names, policy.external;
    for k := 0 to |order|
      invariant forall name :: name in names <==>
        name in policy.names || (name in order[..k] && resources[name].name != "")
      invariant forall name :: name in order[..k] && resources[name].name != "" ==> names[name] == resources[name].name
      invariant forall name :: name in policy.names && (name !in order[..k] || resources[name].name == "") ==>
        names[name] == policy.names[name]
      invariant forall name :: name in external <==>
        name in policy.external || (name in order[..k] && resources[name].external)
    {
      var name := order[k];
      var resource := resources[name];
      PrefixMembers(order, k);
      if resource.name != "" {
        names := names[name := resource.name];
      }
      if resource.external {
        external := external + {name};
      }
    }
    assert order[..|order|] == order;
    merged := Policy(names, external);
  }

  lemma {:induction false} MergeSummarises(policy: Policy, files: seq<RawFile>, file: RawFile, kind: Kind,
      merged: Policy)
    requires Summarises(policy, files, kind)
    requires var resources := ResourcesOf(file, kind);
      && (forall name :: name in merged.names <==>
        name in policy.names || (name in resources && resources[name].name != ""))
      && (forall name :: name in merged.names ==> merged.names[name] != "")
      && (forall name :: name in merged.external <==>
        name in policy.external || (name in resources && resources[name].external))
    ensures Summarises(merged, files + [file], kind)
  {
    var all := files + [file];
    forall name ensures name in merged.names <==> NamedIn(all, kind, name) {
      NamedInAppend(files, file, kind, name);
    }
    forall name ensures name in merged.external <==> ExternalIn(all, kind, name) {
      NamedInAppend(files, file, kind, name);
    }
  }

  lemma {:induction false} NamedInAppend(files: seq<RawFile>, file: RawFile, kind: Kind, name: string)
    ensures NamedIn(files + [file], kind, name) <==>
      NamedIn(files, kind, name) || (name in ResourcesOf(file, kind) && ResourcesOf(file, kind)[name].name != "")
    ensures ExternalIn(files + [file], kind, name) <==>
      ExternalIn(files, kind, name) || (name in ResourcesOf(file, kind) && ResourcesOf(file, kind)[name].external)
  {
    var all := files + [file];
    assert all[|files|] == file;
    forall i | 0 <= i < |files| ensures all[i] == files[i] {}
    if NamedIn(files, kind, name) {
      var i :| 0 <= i < |files| && name in ResourcesOf(files[i], kind) && ResourcesOf(files[i], kind)[name].name != "";
      assert all[i] == files[i];
    }
    if ExternalIn(files, kind, name) {
      var i :| 0 <= i < |files| && name in ResourcesOf(files[i], kind) && ResourcesOf(files[i], kind)[name].external;
      assert all[i] == files[i];
    }
  }

  /** Four map iterations for one file, each in some order. */
  datatype Orders = Orders(networks: seq<string>, volumes: seq<string>, secrets: seq<string>, configs: seq<string>)

  ghost predicate OrdersOk(orders: Orders, file: RawFile) {
    && Enumerates(orders.networks, file.networks.Keys)
    && Enumerates(orders.volumes, file.volumes.Keys)
    && Enumerates(orders.secrets, file.secrets.Keys)
    && Enumerates(orders.configs, file.configs.Keys)
  }

  ghost predicate AllSummarise(policies: Policies, files: seq<RawFile>) {
    forall kind :: Summarises(PolicyOf(policies, kind), files, kind)
  }

  /** The four inner loops for one file. */
  method MergeFile(policies: Policies, file: RawFile, orders: Orders, ghost files: seq<RawFile>)
      returns (merged: Policies)
    requires AllSummarise(policies, files) && OrdersOk(orders, file)
    ensures AllSummarise(merged, files + [file])
  {
    assert Summarises(PolicyOf(policies, Networks), files, Networks)
      && Summarises(PolicyOf(policies, Volumes), files, Volumes);
    assert Summarises(PolicyOf(policies, Secrets), files, Secrets)
      && Summarises(PolicyOf(policies, Configs), files, Configs);
    var networks := MergeKind(policies.networks, file, Networks, orders.networks, files);
    var volumes := MergeKind(policies.volumes, file, Volumes, orders.volumes, files);
    var secrets := MergeKind(policies.secrets, file, Secrets, orders.secrets, files);
    var configs := MergeKind(policies.configs, file, Configs, orders.configs, files);
    merged := Policies(networks, volumes, secrets, configs);
    forall kind ensures Summarises(PolicyOf(merged, kind), files + [file], kind) {
      match kind { case Networks => case Volumes => case Secrets => case Configs => }
    }
  }

  method MergeKind(policy: Policy, file: RawFile, kind: Kind, order: seq<string>, ghost files: seq<RawFile>)
    returns (merged: Policy)
    requires Summarises(policy, files, kind) && Enumerates(order, ResourcesOf(file, kind).Keys)
    ensures Summarises(merged, files + [file], kind)
  {
    merged := MergeResources(policy, ResourcesOf(file, kind), order);
    MergeSummarises(policy, files, file, kind, merged);
  }

  /** The files that could be read and parsed. */
  function Files(inputs: seq<Result<RawFile, string>>): (files: seq<RawFile>)
    requires forall i :: 0 <= i < |inputs| ==> inputs[i].Success?
    ensures |files| == |inputs|
  {
    seq(|inputs|, i requires 0 <= i < |inputs| => inputs[i].value)
  }

  lemma FilesAppend(inputs: seq<Result<RawFile, string>>, k: nat)
    requires k < |inputs| && forall i :: 0 <= i <= k ==> inputs[i].Success?
    ensures Files(inputs[..k + 1]) == Files(inputs[..k]) + [inputs[k].value]
  {}

  /**
   loadRawPolicies; an input is a parsed file, or the error of reading or parsing it. The
   first such error ends the loading, and otherwise the policies summarise all files.
   */
  method LoadRawPolicies(inputs: seq<Result<RawFile, string>>, orders: seq<Orders>)
    returns (result: Result<Policies, string>)
    requires |orders| == |inputs|
    requires forall i :: 0 <= i < |inputs| && inputs[i].Success? ==> OrdersOk(orders[i], inputs[i].value)
    ensures result.Success? <==> forall i :: 0 <= i < |inputs| ==> inputs[i].Success?
    ensures result.Success? ==> AllSummarise(result.value, Files(inputs))
    ensures result.Failure? ==> exists k :: 0 <= k < |inputs| && inputs[k] == Failure(result.error)
                                       && forall i :: 0 <= i < k ==> inputs[i].Success?
  {
    var none := Policy(map[], {});
    var policies := Policies(none, none, none, none);
    for k := 0 to |inputs|
      invariant forall i :: 0 <= i < k ==> inputs[i].Success?
      invariant AllSummarise(policies, Files(inputs[..k]))
    {
      if inputs[k].Failure? {
        return Failure(inputs[k].error);
      }
      FilesAppend(inputs, k);
      policies := MergeFile(policies, inputs[k].value, orders[k], Files(inputs[..k]));
    }
    assert inputs[..|inputs|] == inputs;
    return Success(policies);
  }

  // The verdict -----------------------------------------------------------------

  predicate ServiceIsolated(service: Service) {
    && service.containerName == "" && service.ports == 0
    && service.networkMode != "host" && service.net != "host"
    && service.pid != "host" && service.ipc != "host" && service.cgroup != "host"
    && !service.hasProvider
  }

  ghost predicate Isolated(project: Project, files: seq<RawFile>) {
    && (forall name :: name in project.services ==> ServiceIsolated(project.services[name]))
    && (forall kind, name :: name in RetainedOf(project, kind) ==>
          !NamedIn(files, kind, name) && !ExternalIn(files, kind, name))
  }

  function KindName(kind: Kind): string {
    match kind
    case Networks => "network "
    case Volumes => "volume "
    case Secrets => "secret "
    case Configs => "config "
  }

  function ResourceComplaint(kind: Kind, policy: Policy, name: string): string {
    if name in policy.names && policy.names[name] != "" then
      KindName(kind) + name + " uses custom name " + policy.names[name]
    else KindName(kind) + name + " is external"
  }

  /** The policies give the resource a name of its own or call it external. */
  predicate Offends(policy: Policy, name: string) {
    (name in policy.names && policy.names[name] != "") || name in policy.external
  }

  /** The complaint is about a retained resource that offends. */
  ghost predicate ComplainsOf(kind: Kind, retained: set<string>, policy: Policy, complaint: string) {
    exists name :: name in retained && Offends(policy, name) && complaint == ResourceComplaint(kind, policy, name)
  }

  /** The checks on one kind of resource, in some iteration order. */
  method CheckResources(kind: Kind, retained: set<string>, order: seq<string>, policy: Policy)
      returns (rejected: Option<string>)
    requires Enumerates(order, retained)
    ensures rejected.None? <==>
      forall name :: name in retained ==>
        (name in policy.names ==> policy.names[name] == "") && name !in policy.external
    ensures rejected.Some? ==> ComplainsOf(kind, retained, policy, rejected.value)
  {
    for k := 0 to |order|
      invariant forall i :: 0 <= i < k ==>
        (order[i] in policy.names ==> policy.names[order[i]] == "") && order[i] !in policy.external
    {
      var name := order[k];
      assert name in retained;
      var customName := if name in policy.names then policy.names[name] else "";
      assert customName != "" || name in policy.external ==> Offends(policy, name);
      if customName != "" {
        return Some(KindName(kind) + name + " uses custom name " + customName);
      }
      if name in policy.external {
        return Some(KindName(kind) + name + " is external");
      }
    }
    return None;
  }

  /** What is said of a service with several forbidden settings: the first of them in this order. */
  function Complaint(service: Service): string
    requires !ServiceIsolated(service)
  {
    if service.containerName != "" then " uses container_name"
    else if service.ports > 0 then " publishes host ports"
    else if service.networkMode == "host" || service.net == "host" then " uses host networking"
    else if service.pid == "host" || service.ipc == "host" || service.cgroup == "host" then
      " uses host namespace sharing"
    else " uses provider-managed service"
  }

  /** The least name, in the order of sort.Strings, of a service with a forbidden setting. */
  ghost predicate FirstOffender(services: map<string, Service>, name: string) {
    && name in services && !ServiceIsolated(services[name])
    && forall other :: other in services && !ServiceIsolated(services[other]) ==> Leq(name, other)
  }

  lemma {:induction false} FirstInOrderOffends(services: map<string, Service>, names: seq<string>, k: nat)
    requires Ascending(names) && k < |names| && (forall name :: name in services <==> name in names)
    requires !ServiceIsolated(services[names[k]]) && forall i :: 0 <= i < k ==> ServiceIsolated(services[names[i]])
    ensures FirstOffender(services, names[k])
  {
    forall other | other in services && !ServiceIsolated(services[other]) ensures Leq(names[k], other) {
      var j :| 0 <= j < |names| && names[j] == other;
      LeqRefl(other);
    }
  }

  method CheckServices(services: map<string, Service>, order: seq<string>) returns (rejected: Option<string>)
    requires Enumerates(order, services.Keys)
    ensures rejected.None? <==> forall name :: name in services ==> ServiceIsolated(services[name])
    ensures rejected.Some? ==> exists name ::
      FirstOffender(services, name) && rejected.value == "service " + name + Complaint(services[name])
  {
    var names := SortStrings(order);
    assert forall name :: name in services <==> name in names;
    for k := 0 to |names|
      invariant forall i :: 0 <= i < k ==> ServiceIsolated(services[names[i]])
    {
      var name := names[k];
      assert name in order;
      var service := services[name];
      if !ServiceIsolated(service) { FirstInOrderOffends(services, names, k); }
      if service.containerName != "" { return Some("service " + name + " uses container_name"); }
      if service.ports > 0 { return Some("service " + name + " publishes host ports"); }
      if service.networkMode == "host" || service.net == "host" {
        return Some("service " + name + " uses host networking");
      }
      if service.pid == "host" || service.ipc == "host" || service.cgroup == "host" {
        return Some("service " + name + " uses host namespace sharing");
      }
      if service.hasProvider { return Some("service " + name + " uses provider-managed service"); }
    }
    forall name | name in services ensures ServiceIsolated(services[name]) {
      assert name in order && name in names;
    }
    return None;
  }

  /**
   validateIsolation. In owned mode the verdict is acceptance exactly for an isolated
   project, whatever the iteration orders, and a service is complained of before any
   resource, the first in name order; then a resource that offends, of the first kind that
   has one; other modes are not checked.
   */
  method ValidateIsolation(project: Project, policies: Policies, owned: bool, ghost files: seq<RawFile>,
                           services: seq<string>, orders: Orders)
    returns (rejected: Option<string>)
    requires AllSummarise(policies, files)
    requires Enumerates(services, project.services.Keys)
    requires Enumerates(orders.networks, project.networks) && Enumerates(orders.volumes, project.volumes)
    requires Enumerates(orders.secrets, project.secrets) && Enumerates(orders.configs, project.configs)
    ensures rejected.None? <==> !owned || Isolated(project, files)
    ensures owned && (exists name :: name in project.services && !ServiceIsolated(project.services[name])) ==>
      rejected.Some? && exists name :: FirstOffender(project.services, name)
                                       && rejected.value == "service " + name + Complaint(project.services[name])
    ensures rejected.Some? && (forall name :: name in project.services ==> ServiceIsolated(project.services[name])) ==>
      if !KindIsolated(project, files, Networks) then
        ComplainsOf(Networks, project.networks, policies.networks, rejected.value)
      else if !KindIsolated(project, files, Volumes) then
        ComplainsOf(Volumes, project.volumes, policies.volumes, rejected.value)
      else if !KindIsolated(project, files, Secrets) then
        ComplainsOf(Secrets, project.secrets, policies.secrets, rejected.value)
      else ComplainsOf(Configs, project.configs, policies.configs, rejected.value)
  {
    hide ComplainsOf;
    if !owned { return None; }
    rejected := CheckServices(project.services, services);
    if rejected.Some? { return; }
    rejected := CheckResources(Networks, project.networks, orders.networks, policies.networks);
    assert rejected.None? <==> KindIsolated(project, files, Networks)
      by { assert Summarises(PolicyOf(policies, Networks), files, Networks); }
    if rejected.Some? { return; }
    rejected := CheckResources(Volumes, project.volumes, orders.volumes, policies.volumes);
    assert rejected.None? <==> KindIsolated(project, files, Volumes)
      by { assert Summarises(PolicyOf(policies, Volumes), files, Volumes); }
    if rejected.Some? { return; }
    rejected := CheckResources(Secrets, project.secrets, orders.secrets, policies.secrets);
    assert rejected.None? <==> KindIsolated(project, files, Secrets)
      by { assert Summarises(PolicyOf(policies, Secrets), files, Secrets); }
    if rejected.Some? { return; }
    rejected := CheckResources(Configs, project.configs, orders.configs, policies.configs);
    assert rejected.None? <==> KindIsolated(project, files, Configs)
      by { assert Summarises(PolicyOf(policies, Configs), files, Configs); }
    if rejected.Some? { return; }
    forall kind ensures KindIsolated(project, files, kind) {
      match kind { case Networks => case Volumes => case Secrets => case Configs => }
    }
  }

  ghost predicate KindIsolated(project: Project, files: seq<RawFile>, kind: Kind) {
    forall name :: name in RetainedOf(project, kind) ==> !NamedIn(files, kind, name) && !ExternalIn(files, kind, name)
  }

  /** For a fixed effective project the verdict does not depend on the order of the files. */
  lemma {:induction false} FileOrderIsIrrelevant(project: Project, a: seq<RawFile>, b: seq<RawFile>)
    requires forall file :: file in a <==> file in b
    ensures Isolated(project, a) <==> Isolated(project, b)
  {
    forall kind, name ensures NamedIn(a, kind, name) <==> NamedIn(b, kind, name) {
      MoreFilesSayMore(a, b, kind, name);
      MoreFilesSayMore(b, a, kind, name);
    }
    forall kind, name ensures ExternalIn(a, kind, name) <==> ExternalIn(b, kind, name) {
      MoreFilesSayMore(a, b, kind, name);
      MoreFilesSayMore(b, a, kind, name);
    }
  }

  lemma {:induction false} MoreFilesSayMore(a: seq<RawFile>, b: seq<RawFile>, kind: Kind, name: string)
    requires forall file :: file in a ==> file in b
    ensures NamedIn(a, kind, name) ==> NamedIn(b, kind, name)
    ensures ExternalIn(a, kind, name) ==> ExternalIn(b, kind, name)
  {
    if NamedIn(a, kind, name) {
      var i :| 0 <= i < |a| && name in ResourcesOf(a[i], kind) && ResourcesOf(a[i], kind)[name].name != "";
      assert a[i] in b;
      var j :| 0 <= j < |b| && b[j] == a[i];
    }
    if ExternalIn(a, kind, name) {
      var i :| 0 <= i < |a| && name in ResourcesOf(a[i], kind) && ResourcesOf(a[i], kind)[name].external;
      assert a[i] in b;
      var j :| 0 <= j < |b| && b[j] == a[i];
    }
  }

  /** Adding a file never turns a rejection into an acceptance. */
  lemma {:induction false} AddingAFileOnlyRejectsMore(project: Project, files: seq<RawFile>, more: seq<RawFile>)
    requires forall file :: file in files ==> file in more
    requires Isolated(project, more)
    ensures Isolated(project, files)
  {
    forall kind, name | name in RetainedOf(project, kind)
      ensures !NamedIn(files, kind, name) && !ExternalIn(files, kind, name) {
      MoreFilesSayMore(files, more, kind, name);
    }
  }

  // What is forbidden, setting by setting ------------------------------------------

  /** One file neither renames nor claims as external any of the retained resources. */
  predicate LeavesAlone(declared: RawResources, retained: set<string>) {
    forall name :: name in retained && name in declared ==> declared[name].name == "" && !declared[name].external
  }

  lemma {:induction false} KindIsolatedExactly(project: Project, files: seq<RawFile>, kind: Kind)
    ensures KindIsolated(project, files, kind) <==>
      forall file :: file in files ==> LeavesAlone(ResourcesOf(file, kind), RetainedOf(project, kind))
  {
    if KindIsolated(project, files, kind) {
      forall file | file in files ensures LeavesAlone(ResourcesOf(file, kind), RetainedOf(project, kind)) {
        var i :| 0 <= i < |files| && files[i] == file;
        forall name | name in RetainedOf(project, kind) && name in ResourcesOf(file, kind)
          ensures ResourcesOf(file, kind)[name].name == "" && !ResourcesOf(file, kind)[name].external
        {
          assert !NamedIn(files, kind, name) && !ExternalIn(files, kind, name);
        }
      }
    } else {
      var name :| name in RetainedOf(project, kind) && (NamedIn(files, kind, name) || ExternalIn(files, kind, name));
      var i :| 0 <= i < |files| && name in ResourcesOf(files[i], kind)
        && (ResourcesOf(files[i], kind)[name].name != "" || ResourcesOf(files[i], kind)[name].external);
      assert files[i] in files && !LeavesAlone(ResourcesOf(files[i], kind), RetainedOf(project, kind));
    }
  }

  /**
   A project is isolated if and only if no service has a container name, published ports,
   the host's network, a host namespace or a provider, and no file gives a retained
   network, volume, secret or config a name of its own or calls it external.
   */
  lemma {:induction false} IsolatedExactly(project: Project, files: seq<RawFile>)
    ensures Isolated(project, files) <==>
      && (forall name :: name in project.services ==>
            var s := project.services[name];
            && s.containerName == "" && s.ports == 0 && s.networkMode != "host" && s.net != "host"
            && s.pid != "host" && s.ipc != "host" && s.cgroup != "host" && !s.hasProvider)
      && (forall file :: file in files ==>
            && LeavesAlone(file.networks, project.networks) && LeavesAlone(file.volumes, project.volumes)
            && LeavesAlone(file.secrets, project.secrets) && LeavesAlone(file.configs, project.configs))
  {
    hide LeavesAlone, NamedIn, ExternalIn;
    forall kind ensures KindIsolated(project, files, kind) <==>
      forall file :: file in files ==> LeavesAlone(ResourcesOf(file, kind), RetainedOf(project, kind))
    {
      KindIsolatedExactly(project, files, kind);
    }
    if KindIsolated(project, files, Networks) && KindIsolated(project, files, Volumes)
       && KindIsolated(project, files, Secrets) && KindIsolated(project, files, Configs) {
      forall kind ensures KindIsolated(project, files, kind) {
        match kind { case Networks => case Volumes => case Secrets => case Configs => }
      }
    }
    assert Isolated(project, files) <==>
      (forall name :: name in project.services ==> ServiceIsolated(project.services[name]))
      && forall kind :: KindIsolated(project, files, kind);
  }

  /** Which of its forbidden settings a service is blamed for. */
  lemma {:induction false} ComplaintExactly(service: Service)
    requires !ServiceIsolated(service)
    ensures var named, publishes := service.containerName != "", service.ports > 0;
      var networking := "host" in [service.networkMode, service.net];
      var namespaces := "host" in [service.pid, service.ipc, service.cgroup];
      && (Complaint(service) == " uses container_name" <==> named)
      && (Complaint(service) == " publishes host ports" <==> !named && publishes)
      && (Complaint(service) == " uses host networking" <==> !named && !publishes && networking)
      && (Complaint(service) == " uses host namespace sharing" <==>
            !named && !publishes && !networking && namespaces)
      && (Complaint(service) == " uses provider-managed service" <==>
            !named && !publishes && !networking && !namespaces && service.hasProvider)
  {}

  /** A rejected resource is called by its kind and name, with its own name if it has one. */
  lemma {:induction false} ResourceComplaintExactly(policy: Policy, name: string)
    requires name in policy.external || name in policy.names
    ensures var why := if name in policy.names && policy.names[name] != ""
                       then " uses custom name " + policy.names[name] else " is external";
      && ResourceComplaint(Networks, policy, name) == "network " + name + why
      && ResourceComplaint(Volumes, policy, name) == "volume " + name + why
      && ResourceComplaint(Secrets, policy, name) == "secret " + name + why
      && ResourceComplaint(Configs, policy, name) == "config " + name + why
  {}
}
