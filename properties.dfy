/**
 * Properties of the stack the generator declares: what each resource waits
 * for, the order the resources are added in, the sizes of the worker group,
 * where the secret parameter appears, and that every reference names
 * something the template declares.
 */
module StackProperties {
  import opened Pieces
  import opened Outcomes
  import opened BlockDevices
  import opened Bootstrap
  import opened CfnTemplate
  import opened Stack

  /** Only the root entry of a device list carries a reference: its size, `BootDiskSize`. */
  lemma {:induction false} DeviceListPieces(diskcount: nat, base: string)
    requires diskcount <= MaxDiskCount
    ensures MappingPieces(DeviceList(diskcount, base)) == [Ref("BootDiskSize")]
  {
    var l := DeviceList(diskcount, base);
    if diskcount > 0 {
      DeviceListPieces(diskcount - 1, base);
      assert l[..|l| - 1] == DeviceList(diskcount - 1, base);
    } else {
      assert l[..|l| - 1] == [];
    }
  }

  /** The fixed export values refer to parameters and pseudo-parameters and read no attribute. */
  lemma FixedValueReferences()
    ensures RefNames(StackRefs) == ["AWS::Region", "AWS::StackName"]
    ensures RefNames(SoftwareRefs) == ["AmbariVersion", "HDPStack", "JavaProvider", "JavaVersion"]
    ensures RefNames(ClusterRefs) ==
      ["waitHandleAmbari", "AmbariServices", "PostCommand", "AmbariPass", "DeployCluster", "AdditionalInstanceCount"]
    ensures AttResources(StackRefs) == AttResources(SoftwareRefs) == AttResources(ClusterRefs) == []
  {
  }

  /** The server address a role exports, as a list of the names it refers to (a `Ref`) or reads from (a `GetAtt`). */
  function ServerRef(role: Role): seq<string>
  {
    if role.ambariServer.Ref? then [role.ambariServer.name] else []
  }

  function ServerAtt(role: Role): seq<string>
  {
    if role.ambariServer.GetAtt? then [role.ambariServer.res] else []
  }

  /**
   * The names a role's script refers to, in export order: the region, the
   * stack name, the server address when that is a `Ref`, then ten
   * parameters and resources.
   */
  function ScriptRefs(role: Role): seq<string>
  {
    ["AWS::Region", "AWS::StackName"] + ServerRef(role) +
    ["AmbariVersion", "HDPStack", "JavaProvider", "JavaVersion"] +
    ["waitHandleAmbari", "AmbariServices", "PostCommand", "AmbariPass", "DeployCluster", "AdditionalInstanceCount"]
  }

  /** The role-specific export values: only the server address may refer to anything. */
  lemma RoleValueReferences(role: Role)
    ensures RefNames([Lit(role.resource), role.ambariServer]) == ServerRef(role)
    ensures AttResources([Lit(role.resource), role.ambariServer]) == ServerAtt(role)
    ensures RefNames([Lit(role.installAmbariAgent), Lit(role.installAmbariServer)]) == []
    ensures AttResources([Lit(role.installAmbariAgent), Lit(role.installAmbariServer)]) == []
  {
    var b := [Lit(role.resource), role.ambariServer];
    var l := [Lit(role.installAmbariAgent), Lit(role.installAmbariServer)];
    assert l[1..][1..] == [];
    assert b[1..] == [role.ambariServer] && b[1..][1..] == [];
    assert RefNames(b) == RefNames([role.ambariServer]) == ServerRef(role);
    assert AttResources(b) == AttResources([role.ambariServer]) == ServerAtt(role);
  }

  /** The names a list of five parts refers to, part by part. */
  lemma FivePartsReferences(x: seq<Piece>, b: seq<Piece>, y: seq<Piece>, l: seq<Piece>, z: seq<Piece>)
    ensures RefNames(x + b + y + l + z) == RefNames(x) + RefNames(b) + RefNames(y) + RefNames(l) + RefNames(z)
    ensures AttResources(x + b + y + l + z) == AttResources(x) + AttResources(b) + AttResources(y) + AttResources(l) + AttResources(z)
  {
    RefNamesAppend(x + b + y + l, z);
    RefNamesAppend(x + b + y, l);
    RefNamesAppend(x + b, y);
    RefNamesAppend(x, b);
  }

  /** The values a role's script exports refer to `ScriptRefs`, and read an attribute only through the server address. */
  lemma ValuesReferences(role: Role)
    ensures RefNames(Values(Exports(role))) == ScriptRefs(role)
    ensures AttResources(Values(Exports(role))) == ServerAtt(role)
  {
    var b := [Lit(role.resource), role.ambariServer];
    var l := [Lit(role.installAmbariAgent), Lit(role.installAmbariServer)];
    ValuesOfExports(role);
    ExportValueParts(role);
    FivePartsReferences(StackRefs, b, SoftwareRefs, l, ClusterRefs);
    FixedValueReferences();
    RoleValueReferences(role);
  }

  /**
   * A role's user data, whatever the script body: its deferred pieces are
   * those of the values the role exports, so it refers to `ScriptRefs` and
   * reads an attribute only through the server address.
   */
  lemma UserDataReferences(role: Role, body: string)
    ensures Deferred(UserDataPieces(BootstrapUserData(role, body))) == Deferred(Values(Exports(role)))
    ensures RefNames(UserDataPieces(BootstrapUserData(role, body))) == ScriptRefs(role)
    ensures AttResources(UserDataPieces(BootstrapUserData(role, body))) == ServerAtt(role)
  {
    ScriptDeferred(role, body);
    DeferredValues(role);
    ReferencesOfDeferred(BootstrapScript(role, body));
    ReferencesOfDeferred(Values(Exports(role)));
    ValuesReferences(role);
  }

  // ---------------------------------------------------------------------
  // What each resource refers to.

  lemma WaitConditionReferences()
    ensures RefNames(ResourcePieces(WaitHandleAmbari)) == [] && AttResources(ResourcePieces(WaitHandleAmbari)) == []
    ensures RefNames(ResourcePieces(WaitConditionAmbari)) == ["waitHandleAmbari"]
    ensures AttResources(ResourcePieces(WaitConditionAmbari)) == []
  {
    assert ResourcePieces(WaitConditionAmbari) == [Ref("waitHandleAmbari")];
  }

  /** The pieces of a node instance whose root volume is sized by `BootDiskSize`, for any role. */
  lemma InstancePieces(role: Role, body: string, devices: seq<BlockDeviceMapping>, tags: seq<(string, Piece)>, k: Piece, it: Piece, sn: Piece, sg: Piece)
    requires MappingPieces(devices) == [Ref("BootDiskSize")]
    requires TagPieces(tags) == [Ref("AWS::StackName")]
    ensures PropertyPieces(Instance(BootstrapUserData(role, body), NodeImage, devices, tags, k, it, sn, sg)) ==
      UserDataPieces(BootstrapUserData(role, body)) + [Ref("AWS::Region"), Ref("BootDiskSize"), Ref("AWS::StackName"), k, it, sn, sg]
  {
    var u := UserDataPieces(BootstrapUserData(role, body));
    assert PropertyPieces(Instance(BootstrapUserData(role, body), NodeImage, devices, tags, k, it, sn, sg)) ==
      u + [Ref("AWS::Region")] + [Ref("BootDiskSize")] + [Ref("AWS::StackName")] + [k, it, sn, sg];
    assert u + [Ref("AWS::Region")] + [Ref("BootDiskSize")] + [Ref("AWS::StackName")] + [k, it, sn, sg] ==
      u + [Ref("AWS::Region"), Ref("BootDiskSize"), Ref("AWS::StackName"), k, it, sn, sg];
  }

  /** The server's one tag names it after the stack. */
  lemma NameTag()
    ensures TagPieces([("Name", Ref("AWS::StackName"))]) == [Ref("AWS::StackName")]
  {
  }

  /** The names the server instance refers to besides its script's. */
  const AmbariNodeOwnRefs: seq<string> :=
    ["AWS::Region", "BootDiskSize", "AWS::StackName", "KeyName", "InstanceType", "SubnetId", "SecurityGroups"]

  lemma AmbariNodeOwnPieces()
    ensures Refs(AmbariNodeOwnRefs) == [Ref("AWS::Region"), Ref("BootDiskSize"), Ref("AWS::StackName"),
      Ref("KeyName"), Ref("InstanceType"), Ref("SubnetId"), Ref("SecurityGroups")]
  {
  }

  /** The pieces of the server instance: its user data, then the references of its other properties. */
  lemma AmbariNodePieces(devices: seq<BlockDeviceMapping>, body: string)
    requires MappingPieces(devices) == [Ref("BootDiskSize")]
    ensures ResourcePieces(AmbariNode(devices, body)) ==
      UserDataPieces(BootstrapUserData(Coordinator, body)) + Refs(AmbariNodeOwnRefs)
  {
    NameTag();
    InstancePieces(Coordinator, body, devices, [("Name", Ref("AWS::StackName"))],
      Ref("KeyName"), Ref("InstanceType"), Ref("SubnetId"), Ref("SecurityGroups"));
    AmbariNodeOwnPieces();
  }

  /** The names referred to by a role's user data followed by plain `Ref`s. */
  lemma UserDataThenRefs(role: Role, body: string, names: seq<string>)
    ensures RefNames(UserDataPieces(BootstrapUserData(role, body)) + Refs(names)) == ScriptRefs(role) + names
    ensures AttResources(UserDataPieces(BootstrapUserData(role, body)) + Refs(names)) == ServerAtt(role)
  {
    RefNamesAppend(UserDataPieces(BootstrapUserData(role, body)), Refs(names));
    UserDataReferences(role, body);
    RefsNames(names);
  }

  /**
   * The server instance refers to its script's names, then to the region
   * (its image), the boot disk size, the stack name (its `Name` tag), and its
   * key, type, subnet and security groups; it reads no attribute.
   */
  lemma AmbariNodeReferences(devices: seq<BlockDeviceMapping>, body: string)
    requires MappingPieces(devices) == [Ref("BootDiskSize")]
    ensures RefNames(ResourcePieces(AmbariNode(devices, body))) == ScriptRefs(Coordinator) + AmbariNodeOwnRefs
    ensures AttResources(ResourcePieces(AmbariNode(devices, body))) == []
  {
    AmbariNodePieces(devices, body);
    UserDataThenRefs(Coordinator, body, AmbariNodeOwnRefs);
  }

  /** The names the launch configuration refers to besides its script's. */
  const LaunchConfigOwnRefs: seq<string> := ["AWS::Region", "BootDiskSize", "KeyName", "SecurityGroups", "InstanceType"]

  /** The pieces of a launch configuration whose root volume is sized by `BootDiskSize`, for any role. */
  lemma LaunchConfigurationPieces(role: Role, body: string, devices: seq<BlockDeviceMapping>, k: Piece, sg: Piece, it: Piece, publicIp: string)
    requires MappingPieces(devices) == [Ref("BootDiskSize")]
    ensures PropertyPieces(LaunchConfiguration(BootstrapUserData(role, body), NodeImage, devices, k, sg, it, publicIp)) ==
      UserDataPieces(BootstrapUserData(role, body)) + [Ref("AWS::Region"), Ref("BootDiskSize"), k, sg, it]
  {
    var u := UserDataPieces(BootstrapUserData(role, body));
    assert u + [Ref("AWS::Region")] + [Ref("BootDiskSize")] + [k, sg, it] ==
      u + ([Ref("AWS::Region")] + [Ref("BootDiskSize")] + [k, sg, it]);
  }

  lemma LaunchConfigOwnPieces()
    ensures Refs(LaunchConfigOwnRefs) ==
      [Ref("AWS::Region"), Ref("BootDiskSize"), Ref("KeyName"), Ref("SecurityGroups"), Ref("InstanceType")]
  {
  }

  lemma AdditionalNodeLaunchConfigPieces(devices: seq<BlockDeviceMapping>, body: string)
    requires MappingPieces(devices) == [Ref("BootDiskSize")]
    ensures ResourcePieces(AdditionalNodeLaunchConfig(devices, body)) ==
      UserDataPieces(BootstrapUserData(Worker, body)) + Refs(LaunchConfigOwnRefs)
  {
    LaunchConfigurationPieces(Worker, body, devices, Ref("KeyName"), Ref("SecurityGroups"), Ref("InstanceType"), "true");
    LaunchConfigOwnPieces();
  }

  /** The worker reaches the server through an attribute, not a parameter. */
  lemma WorkerServer()
    ensures ServerRef(Worker) == [] && ServerAtt(Worker) == ["AmbariNode"]
    ensures ServerRef(Coordinator) == [] && ServerAtt(Coordinator) == []
  {
  }

  /**
   * The launch configuration refers to its script's names, then to the
   * region (its image), the boot disk size, and its key, security groups and
   * instance type; it reads one attribute, of `AmbariNode`, in its script.
   */
  lemma AdditionalNodeLaunchConfigReferences(devices: seq<BlockDeviceMapping>, body: string)
    requires MappingPieces(devices) == [Ref("BootDiskSize")]
    ensures RefNames(ResourcePieces(AdditionalNodeLaunchConfig(devices, body))) ==
      ScriptRefs(Worker) + LaunchConfigOwnRefs
    ensures AttResources(ResourcePieces(AdditionalNodeLaunchConfig(devices, body))) == ["AmbariNode"]
  {
    AdditionalNodeLaunchConfigPieces(devices, body);
    UserDataThenRefs(Worker, body, LaunchConfigOwnRefs);
    WorkerServer();
  }

  /** The names the worker group refers to: its size three times, its subnet, its launch configuration, the stack name. */
  const AdditionalNodesRefs: seq<string> := [
    "AdditionalInstanceCount", "AdditionalInstanceCount", "SubnetId", "AdditionalNodeLaunchConfig",
    "AWS::StackName", "AdditionalInstanceCount"]

  lemma AdditionalNodesReferences()
    ensures ResourcePieces(AdditionalNodes) == Refs(AdditionalNodesRefs)
    ensures RefNames(ResourcePieces(AdditionalNodes)) == AdditionalNodesRefs
    ensures AttResources(ResourcePieces(AdditionalNodes)) == []
  {
    assert AsgTagPieces([AsgTag("Name", Ref("AWS::StackName"), true)]) == [Ref("AWS::StackName")];
    assert ResourcePieces(AdditionalNodes) == Refs(AdditionalNodesRefs);
    RefsNames(AdditionalNodesRefs);
  }

  // ---------------------------------------------------------------------
  // The dependency graph.

  /** Among the resources, a script refers only to the wait handle, and to the server address when that is a `Ref`. */
  lemma ScriptResourceRefs(role: Role)
    ensures forall n :: n in ResourceTitles ==> (n in ScriptRefs(role) <==> n == "waitHandleAmbari" || n in ServerRef(role))
  {
  }

  /** The wait handle and the wait condition: the condition waits for the handle it names. */
  lemma WaitConditionDependencies()
    ensures Dependencies(WaitHandleAmbari, ResourceTitles) == {}
    ensures Dependencies(WaitConditionAmbari, ResourceTitles) == {"waitHandleAmbari"}
  {
    WaitConditionReferences();
  }

  /** Of the resources, the server's references name only the wait handle. */
  lemma AmbariNodeReferenceSet()
    ensures DependencySet(ResourceTitles, [], ScriptRefs(Coordinator) + AmbariNodeOwnRefs, []) == {"waitHandleAmbari"}
  {
    ScriptResourceRefs(Coordinator);
    WorkerServer();
  }

  /** The server waits only for the wait handle its script signals through. */
  lemma AmbariNodeDependencies(devices: seq<BlockDeviceMapping>, body: string)
    requires MappingPieces(devices) == [Ref("BootDiskSize")]
    ensures Dependencies(AmbariNode(devices, body), ResourceTitles) == {"waitHandleAmbari"}
  {
    AmbariNodeReferences(devices, body);
    AmbariNodeReferenceSet();
  }

  /** Of the resources, the launch configuration's references name the wait handle and the server. */
  lemma AdditionalNodeLaunchConfigReferenceSet()
    ensures DependencySet(ResourceTitles, [], ScriptRefs(Worker) + LaunchConfigOwnRefs, ["AmbariNode"]) ==
      {"AmbariNode", "waitHandleAmbari"}
  {
    ScriptResourceRefs(Worker);
    WorkerServer();
  }

  /** The workers' launch configuration waits for the wait handle and for the server whose address it reads. */
  lemma AdditionalNodeLaunchConfigDependencies(devices: seq<BlockDeviceMapping>, body: string)
    requires MappingPieces(devices) == [Ref("BootDiskSize")]
    ensures Dependencies(AdditionalNodeLaunchConfig(devices, body), ResourceTitles) ==
      {"AmbariNode", "waitHandleAmbari"}
  {
    AdditionalNodeLaunchConfigReferences(devices, body);
    AdditionalNodeLaunchConfigReferenceSet();
  }

  /** The worker group waits for the server (explicitly) and for its launch configuration. */
  lemma AdditionalNodesDependencies()
    ensures Dependencies(AdditionalNodes, ResourceTitles) == {"AmbariNode", "AdditionalNodeLaunchConfig"}
  {
    AdditionalNodesReferences();
    AdditionalNodesReferenceSet();
  }

  /** Of the resources, the worker group names the server and its launch configuration. */
  lemma AdditionalNodesReferenceSet()
    ensures DependencySet(ResourceTitles, ["AmbariNode"], AdditionalNodesRefs, []) == {"AmbariNode", "AdditionalNodeLaunchConfig"}
  {
  }

  /** The dependency graph of the resources: each title with the titles it waits for. */
  const DependencyEdges: map<string, set<string>> := map[
    "waitHandleAmbari" := {},
    "waitConditionAmbari" := {"waitHandleAmbari"},
    "AmbariNode" := {"waitHandleAmbari"},
    "AdditionalNodeLaunchConfig" := {"AmbariNode", "waitHandleAmbari"},
    "AdditionalNodes" := {"AmbariNode", "AdditionalNodeLaunchConfig"}]

  /** The resources under their titles, as `StackResources` lays them out, for any five resources. */
  function ResourceMap(wh: Resource, wc: Resource, node: Resource, lc: Resource, asg: Resource): map<string, Resource>
  {
    map[
      "waitHandleAmbari" := wh, "waitConditionAmbari" := wc, "AmbariNode" := node,
      "AdditionalNodeLaunchConfig" := lc, "AdditionalNodes" := asg]
  }

  lemma ResourceMapEdges(wh: Resource, wc: Resource, node: Resource, lc: Resource, asg: Resource)
    requires Dependencies(wh, ResourceTitles) == {} && Dependencies(wc, ResourceTitles) == {"waitHandleAmbari"}
    requires Dependencies(node, ResourceTitles) == {"waitHandleAmbari"}
    requires Dependencies(lc, ResourceTitles) == {"AmbariNode", "waitHandleAmbari"}
    requires Dependencies(asg, ResourceTitles) == {"AmbariNode", "AdditionalNodeLaunchConfig"}
    ensures ResourceMap(wh, wc, node, lc, asg).Keys == ResourceTitles == DependencyEdges.Keys
    ensures forall t :: t in ResourceMap(wh, wc, node, lc, asg) ==>
      Dependencies(ResourceMap(wh, wc, node, lc, asg)[t], ResourceTitles) == DependencyEdges[t]
  {
  }

  /**
   * The five resources are stored under their own titles, and each waits
   * exactly for the resources `DependencyEdges` lists.
   */
  lemma StackDependencies(devices: seq<BlockDeviceMapping>, body: string)
    requires MappingPieces(devices) == [Ref("BootDiskSize")]
    ensures StackResources(devices, body).Keys == ResourceTitles == DependencyEdges.Keys
    ensures forall t :: t in StackResources(devices, body) ==>
      Dependencies(StackResources(devices, body)[t], ResourceTitles) == DependencyEdges[t]
  {
    WaitConditionDependencies();
    AmbariNodeDependencies(devices, body);
    AdditionalNodeLaunchConfigDependencies(devices, body);
    AdditionalNodesDependencies();
    ResourceMapEdges(WaitHandleAmbari, WaitConditionAmbari, AmbariNode(devices, body), AdditionalNodeLaunchConfig(devices, body), AdditionalNodes);
    StackResourcesLayout(devices, body);
  }

  lemma StackResourcesLayout(devices: seq<BlockDeviceMapping>, body: string)
    ensures StackResources(devices, body) ==
      ResourceMap(WaitHandleAmbari, WaitConditionAmbari, AmbariNode(devices, body), AdditionalNodeLaunchConfig(devices, body), AdditionalNodes)
  {
  }

  /** Every resource is stored under its own title. */
  lemma ResourceTitlesMatch(devices: seq<BlockDeviceMapping>, body: string)
    ensures forall t :: t in StackResources(devices, body) ==> StackResources(devices, body)[t].title == t
  {
  }

  /** Where each resource stands in `ResourceOrder`. */
  const ResourcePosition: map<string, nat> := map[
    "waitHandleAmbari" := 0, "waitConditionAmbari" := 1, "AmbariNode" := 2,
    "AdditionalNodeLaunchConfig" := 3, "AdditionalNodes" := 4]

  /**
   * The script adds every resource after all the resources it waits for.
   * The order is `Stack.ResourceOrder`, which the `Declare` methods of
   * `Stack` follow: each requires exactly the earlier titles to be filed.
   */
  lemma AddedAfterDependencies()
    ensures ResourcePosition.Keys == DependencyEdges.Keys
    ensures forall i :: 0 <= i < |ResourceOrder| ==>
      ResourceOrder[i] in ResourcePosition && ResourcePosition[ResourceOrder[i]] == i
    ensures forall t, u :: t in DependencyEdges && u in DependencyEdges[t] ==>
      u in ResourcePosition && ResourcePosition[u] < ResourcePosition[t]
  {
  }

  /** A chain of resources each of which waits for the next. */
  predicate DependencyChain(p: seq<string>)
  {
    (forall k :: 0 <= k < |p| ==> p[k] in DependencyEdges) &&
    (forall k :: 0 <= k < |p| - 1 ==> p[k + 1] in DependencyEdges[p[k]])
  }

  /** Along a chain, the position in `ResourceOrder` strictly decreases. */
  lemma {:induction false} ChainDescends(p: seq<string>)
    requires DependencyChain(p) && |p| >= 2
    ensures p[0] in ResourcePosition && p[|p| - 1] in ResourcePosition
    ensures ResourcePosition[p[|p| - 1]] < ResourcePosition[p[0]]
  {
    AddedAfterDependencies();
    if |p| > 2 {
      assert DependencyChain(p[1..]) by {
        assert forall k :: 0 <= k < |p| - 1 ==> p[1..][k] == p[k + 1];
      }
      ChainDescends(p[1..]);
      assert p[1..][|p[1..]| - 1] == p[|p| - 1];
    }
  }

  /** The dependency graph has no cycle: no resource waits, even indirectly, for itself. */
  lemma DependenciesAcyclic(p: seq<string>)
    requires DependencyChain(p) && |p| >= 2
    ensures p[0] != p[|p| - 1]
  {
    ChainDescends(p);
  }

  /** Nothing waits for the wait condition: it is a leaf of the graph. */
  lemma WaitConditionIsLeaf()
    ensures forall t :: t in DependencyEdges ==> "waitConditionAmbari" !in DependencyEdges[t]
  {
  }

  /** Exactly the launch configuration and the worker group wait for the server. */
  lemma ServerWaitedForBy()
    ensures forall t :: t in DependencyEdges ==>
      ("AmbariNode" in DependencyEdges[t] <==> t == "AdditionalNodeLaunchConfig" || t == "AdditionalNodes")
  {
  }

  /** Only the worker group names a dependency explicitly, and that is the server. */
  lemma ExplicitDependsOn(devices: seq<BlockDeviceMapping>, body: string)
    ensures forall t :: t in StackResources(devices, body) ==>
      StackResources(devices, body)[t].dependsOn == (if t == "AdditionalNodes" then ["AmbariNode"] else [])
  {
  }

  // ---------------------------------------------------------------------
  // Sizes and success signals.

  /**
   * In every deployment the worker group wants, allows at most, and waits
   * for as many nodes as `AdditionalInstanceCount` says, allows none at
   * least, gives them 30 minutes to report, and is created after the server.
   */
  lemma WorkerGroupScaling(env: Env)
    ensures AdditionalNodes.properties.AutoScalingGroup? && AdditionalNodes.creationPolicy.Some?
    ensures var g, n := AdditionalNodes.properties, env.ref("AdditionalInstanceCount");
      AmountText(g.desiredCapacity, env) == n && AmountText(g.maxSize, env) == n &&
      AmountText(AdditionalNodes.creationPolicy.value.count, env) == n &&
      AmountText(g.minSize, env) == "0"
    ensures AdditionalNodes.creationPolicy.value.timeout == "PT30M"
    ensures AdditionalNodes.dependsOn == ["AmbariNode"]
  {
    assert Decimal.NatToString(0) == "0";
  }

  /**
   * With no additional instances asked for, the worker group is still
   * declared, with minimum, maximum and desired size all "0".
   */
  lemma NoAdditionalInstances(devices: seq<BlockDeviceMapping>, body: string, env: Env)
    requires env.ref("AdditionalInstanceCount") == "0"
    ensures "AdditionalNodes" in StackResources(devices, body) && StackResources(devices, body)["AdditionalNodes"] == AdditionalNodes
    ensures var g := AdditionalNodes.properties;
      AmountText(g.minSize, env) == AmountText(g.maxSize, env) == AmountText(g.desiredCapacity, env) == "0"
  {
    WorkerGroupScaling(env);
  }

  /** The server is created once it reports success a single time within 15 minutes, after nothing it names explicitly. */
  lemma ServerSignal(devices: seq<BlockDeviceMapping>, body: string, env: Env)
    ensures AmbariNode(devices, body).creationPolicy.Some?
    ensures AmountText(AmbariNode(devices, body).creationPolicy.value.count, env) == "1"
    ensures AmbariNode(devices, body).creationPolicy.value.timeout == "PT15M"
    ensures AmbariNode(devices, body).dependsOn == []
  {
    assert Decimal.NatToString(1) == "1";
  }

  /**
   * The wait condition waits an hour on the stack's own wait handle, which
   * both roles' scripts receive to signal through.
   */
  lemma WaitConditionOnHandle(devices: seq<BlockDeviceMapping>, body: string, role: Role)
    ensures WaitConditionAmbari.properties == WaitCondition(Ref("waitHandleAmbari"), "3600")
    ensures "waitHandleAmbari" in StackResources(devices, body)
    ensures StackResources(devices, body)["waitHandleAmbari"].properties == WaitConditionHandle
    ensures "waitHandleAmbari" in RefNames(UserDataPieces(BootstrapUserData(role, body)))
  {
    UserDataReferences(role, body);
  }

  // ---------------------------------------------------------------------
  // Outputs and the secret parameter.

  const OutputTitles: seq<string> := ["IIAN", "AmbariURL", "AmbariSSH", "AmbariServiceInstanceId", "Region"]

  /** Five outputs, in this order, none of which mentions the password. */
  lemma OutputsShape()
    ensures |StackOutputs| == |OutputTitles| == 5
    ensures forall i :: 0 <= i < 5 ==> StackOutputs[i].title == OutputTitles[i]
    ensures forall i :: 0 <= i < 5 ==> Ref("AmbariPass") !in StackOutputs[i].value
  {
  }

  /** What an environment becomes when the password parameter is given the value `v`. */
  function WithPassword(env: Env, v: string): Env
  {
    Env(x => if x == "AmbariPass" then v else env.ref(x), env.att)
  }

  /** The deployed text of every output is the same whatever the password is. */
  lemma OutputsIgnorePassword(env: Env, v: string)
    ensures forall i :: 0 <= i < |StackOutputs| ==>
      Render(StackOutputs[i].value, env) == Render(StackOutputs[i].value, WithPassword(env, v))
  {
    OutputsShape();
    forall i | 0 <= i < |StackOutputs|
      ensures Render(StackOutputs[i].value, env) == Render(StackOutputs[i].value, WithPassword(env, v))
    {
      RenderIgnoresUnreferenced(StackOutputs[i].value, env, "AmbariPass", v);
    }
  }

  /** Every role's script receives the password. */
  lemma ScriptCarriesPassword(role: Role)
    ensures "AmbariPass" in ScriptRefs(role)
  {
    assert ScriptRefs(role)[|ScriptRefs(role)| - 3] == "AmbariPass";
  }

  /** Apart from their scripts, the resources refer to the password nowhere. */
  lemma OwnReferencesWithoutPassword()
    ensures "AmbariPass" !in AmbariNodeOwnRefs && "AmbariPass" !in LaunchConfigOwnRefs
    ensures "AmbariPass" !in AdditionalNodesRefs
  {
  }

  /**
   * The password reaches the nodes only through their scripts: both node
   * kinds refer to it, and apart from their scripts neither does; the wait
   * handle, the wait condition and the worker group never refer to it.
   */
  lemma PasswordOnlyInScripts(devices: seq<BlockDeviceMapping>, body: string)
    requires MappingPieces(devices) == [Ref("BootDiskSize")]
    ensures RefNames(ResourcePieces(AmbariNode(devices, body))) == ScriptRefs(Coordinator) + AmbariNodeOwnRefs
    ensures RefNames(ResourcePieces(AdditionalNodeLaunchConfig(devices, body))) == ScriptRefs(Worker) + LaunchConfigOwnRefs
    ensures "AmbariPass" in ScriptRefs(Coordinator) && "AmbariPass" in ScriptRefs(Worker)
    ensures "AmbariPass" !in AmbariNodeOwnRefs + LaunchConfigOwnRefs
    ensures "AmbariPass" !in RefNames(ResourcePieces(WaitHandleAmbari)) + RefNames(ResourcePieces(WaitConditionAmbari))
    ensures "AmbariPass" !in RefNames(ResourcePieces(AdditionalNodes))
  {
    AmbariNodeReferences(devices, body);
    AdditionalNodeLaunchConfigReferences(devices, body);
    AdditionalNodesReferences();
    WaitConditionReferences();
    ScriptCarriesPassword(Coordinator);
    ScriptCarriesPassword(Worker);
    OwnReferencesWithoutPassword();
  }

  /**
   * `ps` holds the password as exactly one piece, at `at`, right after the
   * literal that opens the `ambari_pass` export.
   */
  predicate PasswordOnlyAt(ps: seq<Piece>, at: nat)
  {
    0 < at < |ps| && ps[at - 1] == Lit("export ambari_pass=") && ps[at] == Ref("AmbariPass") &&
    forall i :: 0 <= i < |ps| && ps[i] == Ref("AmbariPass") ==> i == at
  }

  /**
   * A role's user data followed by `Ref`s to other names holds the password
   * only where the script does: as the value of its `ambari_pass` export.
   */
  lemma PasswordPieceKept(role: Role, body: string, names: seq<string>)
    requires role.ambariServer != Ref("AmbariPass") && "AmbariPass" !in names
    ensures PasswordOnlyAt(UserDataPieces(BootstrapUserData(role, body)) + Refs(names), 44)
  {
    var u := UserDataPieces(BootstrapUserData(role, body));
    var ps := u + Refs(names);
    PasswordPieceInScript(role, body);
    forall i | 0 <= i < |ps| && ps[i] == Ref("AmbariPass")
      ensures i == 44
    {
      if i >= |u| {
        // The names after the script are not the password.
        assert false;
      }
    }
  }

  /**
   * In the server resource the password is exactly one piece: piece 44 of
   * its user data, the value of the script's `ambari_pass` export.
   */
  lemma AmbariNodePasswordPiece(devices: seq<BlockDeviceMapping>, body: string)
    requires MappingPieces(devices) == [Ref("BootDiskSize")]
    ensures PasswordOnlyAt(ResourcePieces(AmbariNode(devices, body)), 44)
  {
    AmbariNodePieces(devices, body);
    OwnReferencesWithoutPassword();
    PasswordPieceKept(Coordinator, body, AmbariNodeOwnRefs);
  }

  /** The same holds of the workers' launch configuration. */
  lemma LaunchConfigPasswordPiece(devices: seq<BlockDeviceMapping>, body: string)
    requires MappingPieces(devices) == [Ref("BootDiskSize")]
    ensures PasswordOnlyAt(ResourcePieces(AdditionalNodeLaunchConfig(devices, body)), 44)
  {
    AdditionalNodeLaunchConfigPieces(devices, body);
    OwnReferencesWithoutPassword();
    PasswordPieceKept(Worker, body, LaunchConfigOwnRefs);
  }

  // ---------------------------------------------------------------------
  // Parameters and mappings.

  const ParameterTitles: set<string> := {
    "PostCommand", "AmbariVersion", "HDPStack", "BootDiskSize", "InstanceType", "AmbariPass",
    "AmbariServices", "DeployCluster", "AdditionalInstanceCount", "JavaProvider", "JavaVersion",
    "SubnetId", "SecurityGroups", "KeyName"}

  /** The fourteen parameter titles. */
  lemma ParameterTable()
    ensures StackParameters().Keys == ParameterTitles
  {
  }

  /** Every parameter is stored under its own title. */
  lemma ParameterTitlesMatch()
    ensures forall t :: t in StackParameters() ==> StackParameters()[t].title == t
  {
  }

  /** Only the password is masked. */
  lemma OnlyPasswordMasked()
    ensures forall t :: t in StackParameters() ==> (StackParameters()[t].noEcho <==> t == "AmbariPass")
  {
  }

  /** Parameters, pseudo-parameters and resources have distinct names, so a `Ref` is never ambiguous. */
  lemma NamesDisjoint()
    ensures ParameterTitles !! ResourceTitles && ParameterTitles !! PseudoParameters && ResourceTitles !! PseudoParameters
  {
  }

  /** The image lookup names a mapping the template declares, keyed by region, and every region row has an `AMI`. */
  lemma ImageLookupDeclared()
    ensures NodeImage.mapName in StackMappings()
    ensures NodeImage.key == Ref("AWS::Region") && "AWS::Region" in PseudoParameters
    ensures forall region :: region in StackMappings()[NodeImage.mapName] ==>
      NodeImage.attribute in StackMappings()[NodeImage.mapName][region]
  {
  }

  // ---------------------------------------------------------------------
  // Every reference names something the template declares.

  predicate Declared(n: string)
  {
    n in StackParameters() || n in PseudoParameters || n in ResourceTitles
  }

  /** What a list of pieces refers to is declared: every `Ref` names a parameter, pseudo-parameter or resource, every `Fn::GetAtt` a resource. */
  predicate PiecesResolve(ps: seq<Piece>)
  {
    (forall n :: n in RefNames(ps) ==> Declared(n)) &&
    (forall n :: n in AttResources(ps) ==> n in ResourceTitles)
  }

  lemma ScriptRefsDeclared(role: Role)
    requires ServerRef(role) == []
    ensures forall n :: n in ScriptRefs(role) ==> Declared(n)
  {
    ParameterTable();
  }

  lemma AmbariNodeResolves(devices: seq<BlockDeviceMapping>, body: string)
    requires MappingPieces(devices) == [Ref("BootDiskSize")]
    ensures PiecesResolve(ResourcePieces(AmbariNode(devices, body)))
  {
    AmbariNodeReferences(devices, body);
    WorkerServer();
    ScriptRefsDeclared(Coordinator);
    ParameterTable();
  }

  lemma AdditionalNodeLaunchConfigResolves(devices: seq<BlockDeviceMapping>, body: string)
    requires MappingPieces(devices) == [Ref("BootDiskSize")]
    ensures PiecesResolve(ResourcePieces(AdditionalNodeLaunchConfig(devices, body)))
  {
    AdditionalNodeLaunchConfigReferences(devices, body);
    WorkerServer();
    ScriptRefsDeclared(Worker);
    ParameterTable();
  }

  lemma FixedResourcesResolve()
    ensures PiecesResolve(ResourcePieces(WaitHandleAmbari))
    ensures PiecesResolve(ResourcePieces(WaitConditionAmbari))
    ensures PiecesResolve(ResourcePieces(AdditionalNodes))
  {
    WaitConditionReferences();
    AdditionalNodesReferences();
    ParameterTable();
  }

  lemma ResourceMapResolves(wh: Resource, wc: Resource, node: Resource, lc: Resource, asg: Resource)
    requires PiecesResolve(ResourcePieces(wh)) && PiecesResolve(ResourcePieces(wc))
    requires PiecesResolve(ResourcePieces(node)) && PiecesResolve(ResourcePieces(lc))
    requires PiecesResolve(ResourcePieces(asg))
    ensures forall t :: t in ResourceMap(wh, wc, node, lc, asg) ==>
      PiecesResolve(ResourcePieces(ResourceMap(wh, wc, node, lc, asg)[t]))
  {
  }

  /** Every resource of the stack refers only to declared names. */
  lemma ResourcesResolve(devices: seq<BlockDeviceMapping>, body: string)
    requires MappingPieces(devices) == [Ref("BootDiskSize")]
    ensures forall t :: t in StackResources(devices, body) ==> PiecesResolve(ResourcePieces(StackResources(devices, body)[t]))
  {
    AmbariNodeResolves(devices, body);
    AdditionalNodeLaunchConfigResolves(devices, body);
    FixedResourcesResolve();
    ResourceMapResolves(WaitHandleAmbari, WaitConditionAmbari, AmbariNode(devices, body), AdditionalNodeLaunchConfig(devices, body), AdditionalNodes);
    StackResourcesLayout(devices, body);
  }

  /** What each output refers to. */
  lemma OutputReferences()
    ensures RefNames(StackOutputs[0].value) == ["AdditionalNodes"] && AttResources(StackOutputs[0].value) == []
    ensures RefNames(StackOutputs[1].value) == [] && AttResources(StackOutputs[1].value) == ["AmbariNode"]
    ensures RefNames(StackOutputs[2].value) == [] && AttResources(StackOutputs[2].value) == ["AmbariNode"]
    ensures RefNames(StackOutputs[3].value) == ["AmbariNode"] && AttResources(StackOutputs[3].value) == []
    ensures RefNames(StackOutputs[4].value) == ["AWS::Region"] && AttResources(StackOutputs[4].value) == []
  {
  }

  /** Every output refers only to declared names. */
  lemma OutputsResolve()
    ensures forall i :: 0 <= i < |StackOutputs| ==> PiecesResolve(StackOutputs[i].value)
  {
    OutputReferences();
  }

  /**
   * With the device list the builder returns (at the call sites, 24
   * ephemeral volumes under "/dev/sd"), the resources form the graph
   * `DependencyEdges` and refer only to declared names.
   */
  lemma BuiltStack(diskcount: nat, base: string, body: string)
    requires diskcount <= MaxDiskCount
    ensures var rs := StackResources(DeviceList(diskcount, base), body);
      rs.Keys == ResourceTitles &&
      (forall t :: t in rs ==> Dependencies(rs[t], ResourceTitles) == DependencyEdges[t]) &&
      (forall t :: t in rs ==> PiecesResolve(ResourcePieces(rs[t])))
  {
    DeviceListPieces(diskcount, base);
    StackDependencies(DeviceList(diskcount, base), body);
    ResourcesResolve(DeviceList(diskcount, base), body);
  }
}
