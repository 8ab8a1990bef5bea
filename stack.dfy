/**
 * The stack the generator declares: fourteen parameters, two AMI mappings,
 * a wait handle and wait condition, the Ambari server instance, the worker
 * launch configuration and auto-scaling group, and five outputs, added to
 * one `Template` in the order the script runs.
 */
module Stack {
  import opened Pieces
  import opened Outcomes
  import opened Decimal
  import opened BlockDevices
  import opened Bootstrap
  import opened CfnTemplate

  const FormatVersion: string := "2010-09-09"
  const TemplateDescription: string :=
    "CloudFormation template to Deploy Hortonworks Data Platform on VPC with a public subnet"

  // ---------------------------------------------------------------------
  // Parameters, in declaration order.

  const PostCommand: Parameter := Parameter(
    "PostCommand", "String",
    Some("curl -sSL https://raw.githubusercontent.com/seanorama/masterclass/master/generic/setup.sh | bash"),
    "Command to run during after nodes are deployed", false, NoConstraints)

  const AmbariVersion: Parameter := Parameter(
    "AmbariVersion", "String", Some("2.2.1.0"), "Ambari Version", false,
    NoConstraints.(allowedPattern := Some(@"\d\.\d\.\d\.\d|\d\.\d\.\d")))

  const HDPStack: Parameter := Parameter(
    "HDPStack", "String", Some("2.4"),
    "Password for Ambari Server. Must be at least 8 characters containing letters, numbers and symbols", false,
    NoConstraints.(allowedPattern := Some(@"\d\.\d")))

  const BootDiskSize: Parameter := Parameter(
    "BootDiskSize", "Number", Some("80"), "Size of boot disk.", false,
    NoConstraints.(minValue := Some(Int(10)), maxValue := Some(Int(2000))))

  const InstanceType: Parameter := Parameter(
    "InstanceType", "String", Some("m4.xlarge"), "Instance type", false,
    NoConstraints.(constraintDescription := Some("Must be a valid EC2 instance type.")))

  /** At least six characters mixing three of: digits, upper case, lower case, symbols. */
  const PasswordPattern: string :=
    @"(?=^.{6,255}$)((?=.*\d)(?=.*[A-Z])(?=.*[a-z])|(?=.*\d)(?=.*[^A-Za-z0-9])(?=.*[a-z])|(?=.*[^A-Za-z0-9])(?=.*[A-Z])(?=.*[a-z])|(?=.*\d)(?=.*[A-Z])(?=.*[^A-Za-z0-9]))^.*"

  /** The one secret: CloudFormation masks its value (`NoEcho`). */
  const AmbariPass: Parameter := Parameter(
    "AmbariPass", "String", Some("BadPass#1"),
    "Password for Ambari Server. Must be at least 8 characters containing letters, numbers and symbols", true,
    NoConstraints.(
      minLength := Some(8), maxLength := Some(32),
      allowedPattern := Some(PasswordPattern)))

  const AmbariServices: Parameter := Parameter(
    "AmbariServices", "String",
    Some("ACCUMULO AMBARI_METRICS FALCON FLUME HBASE HDFS HIVE KAFKA KNOX MAHOUT MAPREDUCE2 OOZIE PIG SLIDER SPARK SQOOP STORM TEZ YARN ZOOKEEPER"),
    "HDP Services to deploy", false, NoConstraints)

  const DeployCluster: Parameter := Parameter(
    "DeployCluster", "String", Some("true"),
    "Deploy cluster with Ambari? If false, then Ambari is installed without cluster deployment.", false,
    NoConstraints.(allowedValues := ["true", "false"]))

  /** Both bounds are strings in the source, unlike `BootDiskSize`'s. */
  const AdditionalInstanceCount: Parameter := Parameter(
    "AdditionalInstanceCount", "Number", Some("0"), "Number of additional instances", false,
    NoConstraints.(maxValue := Some(Text("99")), minValue := Some(Text("0"))))

  const JavaProvider: Parameter := Parameter(
    "JavaProvider", "String", Some("open"), "Provider of Java packages: open or oracle", false,
    NoConstraints.(allowedValues := ["open", "oracle"], constraintDescription := Some("open or oracle")))

  const JavaVersion: Parameter := Parameter(
    "JavaVersion", "String", Some("8"), "Version number of Java", false,
    NoConstraints.(allowedValues := ["7", "8"], constraintDescription := Some("7 or 8")))

  /** Python joins the adjacent literals of the description without a space before "access". */
  const SubnetId: Parameter := Parameter(
    "SubnetId", "AWS::EC2::Subnet::Id", None,
    "SubnetId of an existing subnet (for the primary network) in your Virtual Private Cloud (VPC)access to the instance",
    false, NoConstraints)

  const SecurityGroups: Parameter := Parameter(
    "SecurityGroups", "List<AWS::EC2::SecurityGroup::Id>", None,
    "The Security Groups to launch the instance with", false, NoConstraints)

  const KeyName: Parameter := Parameter(
    "KeyName", "AWS::EC2::KeyPair::KeyName", None,
    "Name of an existing EC2 KeyPair to enable SSH access to the instance", false,
    NoConstraints.(constraintDescription := Some("Can contain only ASCII characters.")))

  function StackParameters(): map<string, Parameter>
  {
    map[
      "PostCommand" := PostCommand, "AmbariVersion" := AmbariVersion, "HDPStack" := HDPStack,
      "BootDiskSize" := BootDiskSize, "InstanceType" := InstanceType, "AmbariPass" := AmbariPass,
      "AmbariServices" := AmbariServices, "DeployCluster" := DeployCluster,
      "AdditionalInstanceCount" := AdditionalInstanceCount, "JavaProvider" := JavaProvider,
      "JavaVersion" := JavaVersion, "SubnetId" := SubnetId, "SecurityGroups" := SecurityGroups,
      "KeyName" := KeyName]
  }

  /** The pseudo-parameters the script refers to; CloudFormation defines them for every stack. */
  const PseudoParameters: set<string> := {"AWS::Region", "AWS::StackId", "AWS::StackName"}

  // ---------------------------------------------------------------------
  // Mappings.

  /** `ref_os`: the mapping the instances take their image from. */
  const ImageMap: string := "CENTOS7"

  const Centos7Amis: Mapping := map[
    "eu-west-1" := map["AMI" := "ami-33734044"],
    "ap-southeast-1" := map["AMI" := "ami-2a7b6b78"],
    "ap-southeast-2" := map["AMI" := "ami-d38dc6e9"],
    "eu-central-1" := map["AMI" := "ami-e68f82fb"],
    "ap-northeast-1" := map["AMI" := "ami-b80b6db8"],
    "us-east-1" := map["AMI" := "ami-61bbf104"],
    "sa-east-1" := map["AMI" := "ami-fd0197e0"],
    "us-west-1" := map["AMI" := "ami-f77fbeb3"],
    "us-west-2" := map["AMI" := "ami-d440a6e7"]]

  const AmazonLinux2015Amis: Mapping := map[
    "eu-west-1" := map["AMI" := "ami-d1f482b1"],
    "us-east-1" := map["AMI" := "ami-8fcee4e5"],
    "us-west-2" := map["AMI" := "ami-63b25203"]]

  function StackMappings(): map<string, Mapping>
  {
    map["CENTOS7" := Centos7Amis, "AMAZONLINUX2015" := AmazonLinux2015Amis]
  }

  // ---------------------------------------------------------------------
  // Resources, in the order they are added.

  const WaitHandleAmbari: Resource := Resource("waitHandleAmbari", WaitConditionHandle, [], None)

  const WaitConditionAmbari: Resource :=
    Resource("waitConditionAmbari", WaitCondition(Ref("waitHandleAmbari"), "3600"), [], None)

  /** The image of both node kinds: the `AMI` entry of the region's row of `CENTOS7`. */
  const NodeImage: ImageLookup := FindInMap(ImageMap, Ref("AWS::Region"), "AMI")

  /** The Ambari server: one instance that must signal success once within 15 minutes. */
  function AmbariNode(devices: seq<BlockDeviceMapping>, body: string): Resource
  {
    Resource(
      "AmbariNode",
      Instance(
        BootstrapUserData(Coordinator, body), NodeImage, devices, [("Name", Ref("AWS::StackName"))],
        Ref("KeyName"), Ref("InstanceType"), Ref("SubnetId"), Ref("SecurityGroups")),
      [],
      Some(ResourceSignal(Count(1), "PT15M")))
  }

  /** The worker nodes' launch configuration; their script reaches the server through its private DNS name. */
  function AdditionalNodeLaunchConfig(devices: seq<BlockDeviceMapping>, body: string): Resource
  {
    Resource(
      "AdditionalNodeLaunchConfig",
      LaunchConfiguration(
        BootstrapUserData(Worker, body), NodeImage, devices,
        Ref("KeyName"), Ref("SecurityGroups"), Ref("InstanceType"), "true"),
      [],
      None)
  }

  /**
   * The worker group: between 0 and `AdditionalInstanceCount` nodes, as many
   * desired, created only after the server, and expecting one success
   * signal per desired node within 30 minutes.
   */
  const AdditionalNodes: Resource := Resource(
    "AdditionalNodes",
    AutoScalingGroup(
      Referenced(Ref("AdditionalInstanceCount")), Count(0), Referenced(Ref("AdditionalInstanceCount")),
      [Ref("SubnetId")], Ref("AdditionalNodeLaunchConfig"), [AsgTag("Name", Ref("AWS::StackName"), true)]),
    ["AmbariNode"],
    Some(ResourceSignal(Referenced(Ref("AdditionalInstanceCount")), "PT30M")))

  /**
   * The titles of the resources in the order the script adds them. The
   * methods below follow it: `DeclareResources` calls `DeclareWaitCondition`
   * (the handle, then the condition), `DeclareAmbariNode` and
   * `DeclareAdditionalNodes` (the launch configuration, then the group), and
   * each of them requires exactly the titles before its own to be filed.
   */
  const ResourceOrder: seq<string> :=
    ["waitHandleAmbari", "waitConditionAmbari", "AmbariNode", "AdditionalNodeLaunchConfig", "AdditionalNodes"]

  /** The resource titles. */
  const ResourceTitles: set<string> :=
    {"waitHandleAmbari", "waitConditionAmbari", "AmbariNode", "AdditionalNodeLaunchConfig", "AdditionalNodes"}

  /** The resources, given the device list both node kinds get. */
  function StackResources(devices: seq<BlockDeviceMapping>, body: string): map<string, Resource>
  {
    map[
      "waitHandleAmbari" := WaitHandleAmbari,
      "waitConditionAmbari" := WaitConditionAmbari,
      "AmbariNode" := AmbariNode(devices, body),
      "AdditionalNodeLaunchConfig" := AdditionalNodeLaunchConfig(devices, body),
      "AdditionalNodes" := AdditionalNodes]
  }

  // ---------------------------------------------------------------------
  // Outputs, added as one list.

  const StackOutputs: seq<Output> := [
    Output("IIAN", "Instance ID of additional nodes", [Ref("AdditionalNodes")]),
    Output("AmbariURL", "URL of Ambari UI", [Lit("http://"), GetAtt("AmbariNode", "PublicDnsName"), Lit(":8080")]),
    Output("AmbariSSH", "SSH to the Ambari Node", [Lit("ssh centos@"), GetAtt("AmbariNode", "PublicDnsName")]),
    Output("AmbariServiceInstanceId", "The Ambari Servers Instance-Id", [Ref("AmbariNode")]),
    Output("Region", "AWS Region", [Ref("AWS::Region")])
  ]

  /** The five output titles are distinct, so `add_output` stores the whole list. */
  lemma OutputsAllAdded()
    ensures AddedPrefix({}, StackOutputs) == |StackOutputs| == 5
  {
    AddedPrefixAll({}, StackOutputs);
    var titles := seq(5, i requires 0 <= i < 5 => StackOutputs[i].title);
    assert titles == ["IIAN", "AmbariURL", "AmbariSSH", "AmbariServiceInstanceId", "Region"];
  }

  // ---------------------------------------------------------------------
  // The script's module-level statements. Each declaration runs only after the one before
  // it succeeded, as a raised `ValueError` would end the script.

  /**
   * The software to install: the post-install command, the Ambari version and the HDP stack. Each title is new, so every
   * `add_parameter` call succeeds and files the parameter under its title.
   */
  method DeclareSoftwareParameters(t: Template) returns (ok: bool)
    requires t.Valid() && t.parameters.Keys == {}
    modifies t
    ensures t.Valid() && ok
    ensures t.parameters.Keys == {"PostCommand", "AmbariVersion", "HDPStack"}
    ensures t.parameters == old(t.parameters)["PostCommand" := PostCommand]["AmbariVersion" := AmbariVersion]["HDPStack" := HDPStack]
    ensures t.version == old(t.version) && t.description == old(t.description)
    ensures t.mappings == old(t.mappings) && t.resources == old(t.resources) && t.outputs == old(t.outputs)
  {
    var p := t.AddParameter(PostCommand);
    ok := p.Success?;
    if ok {
      p := t.AddParameter(AmbariVersion);
      ok := p.Success?;
      if ok {
        p := t.AddParameter(HDPStack);
        ok := p.Success?;
      }
    }
  }

  /**
   * The size of each node: its boot disk and its instance type. Each title is new, so every
   * `add_parameter` call succeeds and files the parameter under its title.
   */
  method DeclareSizingParameters(t: Template) returns (ok: bool)
    requires t.Valid() && t.parameters.Keys == {"PostCommand", "AmbariVersion", "HDPStack"}
    modifies t
    ensures t.Valid() && ok
    ensures t.parameters.Keys == {"PostCommand", "AmbariVersion", "HDPStack", "BootDiskSize", "InstanceType"}
    ensures t.parameters == old(t.parameters)["BootDiskSize" := BootDiskSize]["InstanceType" := InstanceType]
    ensures t.version == old(t.version) && t.description == old(t.description)
    ensures t.mappings == old(t.mappings) && t.resources == old(t.resources) && t.outputs == old(t.outputs)
  {
    var p := t.AddParameter(BootDiskSize);
    ok := p.Success?;
    if ok {
      p := t.AddParameter(InstanceType);
      ok := p.Success?;
    }
  }

  lemma ClusterTitlesNew(keys: set<string>)
    requires keys == {"PostCommand", "AmbariVersion", "HDPStack", "BootDiskSize", "InstanceType"}
    ensures AmbariPass.title !in keys
    ensures AmbariServices.title !in keys + {AmbariPass.title}
    ensures DeployCluster.title !in keys + {AmbariPass.title, AmbariServices.title}
    ensures AdditionalInstanceCount.title !in keys + {AmbariPass.title, AmbariServices.title, DeployCluster.title}
  {
  }

  /**
   * The Ambari cluster: the admin password, the services, whether to deploy, and the number of workers. Each title is new, so every
   * `add_parameter` call succeeds and files the parameter under its title.
   */
  method DeclareClusterParameters(t: Template) returns (ok: bool)
    requires t.Valid() && t.parameters.Keys == {"PostCommand", "AmbariVersion", "HDPStack", "BootDiskSize", "InstanceType"}
    modifies t
    ensures t.Valid() && ok
    ensures t.parameters.Keys == {"PostCommand", "AmbariVersion", "HDPStack", "BootDiskSize", "InstanceType", "AmbariPass", "AmbariServices", "DeployCluster", "AdditionalInstanceCount"}
    ensures t.parameters == old(t.parameters)["AmbariPass" := AmbariPass]["AmbariServices" := AmbariServices]["DeployCluster" := DeployCluster]["AdditionalInstanceCount" := AdditionalInstanceCount]
    ensures t.version == old(t.version) && t.description == old(t.description)
    ensures t.mappings == old(t.mappings) && t.resources == old(t.resources) && t.outputs == old(t.outputs)
  {
    ClusterTitlesNew(t.parameters.Keys);
    var p := t.AddParameter(AmbariPass);
    ok := p.Success?;
    if ok {
      p := t.AddParameter(AmbariServices);
      ok := p.Success?;
      if ok {
        p := t.AddParameter(DeployCluster);
        ok := p.Success?;
        if ok {
          p := t.AddParameter(AdditionalInstanceCount);
          ok := p.Success?;
        }
      }
    }
  }

  lemma JavaTitlesNew(keys: set<string>)
    requires keys == {"PostCommand", "AmbariVersion", "HDPStack", "BootDiskSize", "InstanceType", "AmbariPass", "AmbariServices", "DeployCluster", "AdditionalInstanceCount"}
    ensures JavaProvider.title !in keys
    ensures JavaVersion.title !in keys + {JavaProvider.title}
  {
  }

  /**
   * The Java runtime: its provider and its version. Each title is new, so every
   * `add_parameter` call succeeds and files the parameter under its title.
   */
  method DeclareJavaParameters(t: Template) returns (ok: bool)
    requires t.Valid() && t.parameters.Keys == {"PostCommand", "AmbariVersion", "HDPStack", "BootDiskSize", "InstanceType", "AmbariPass", "AmbariServices", "DeployCluster", "AdditionalInstanceCount"}
    modifies t
    ensures t.Valid() && ok
    ensures t.parameters.Keys == {"PostCommand", "AmbariVersion", "HDPStack", "BootDiskSize", "InstanceType", "AmbariPass", "AmbariServices", "DeployCluster", "AdditionalInstanceCount", "JavaProvider", "JavaVersion"}
    ensures t.parameters == old(t.parameters)["JavaProvider" := JavaProvider]["JavaVersion" := JavaVersion]
    ensures t.version == old(t.version) && t.description == old(t.description)
    ensures t.mappings == old(t.mappings) && t.resources == old(t.resources) && t.outputs == old(t.outputs)
  {
    JavaTitlesNew(t.parameters.Keys);
    var p := t.AddParameter(JavaProvider);
    ok := p.Success?;
    if ok {
      p := t.AddParameter(JavaVersion);
      ok := p.Success?;
    }
  }

  lemma NetworkTitlesNew(keys: set<string>)
    requires keys == {"PostCommand", "AmbariVersion", "HDPStack", "BootDiskSize", "InstanceType", "AmbariPass", "AmbariServices", "DeployCluster", "AdditionalInstanceCount", "JavaProvider", "JavaVersion"}
    ensures SubnetId.title !in keys && SecurityGroups.title !in keys + {SubnetId.title}
    ensures KeyName.title !in keys + {SubnetId.title, SecurityGroups.title}
  {
  }

  /**
   * Where the nodes run and how they are reached: subnet, security groups and key pair. Each title is new, so every
   * `add_parameter` call succeeds and files the parameter under its title.
   */
  method DeclareNetworkParameters(t: Template) returns (ok: bool)
    requires t.Valid() && t.parameters.Keys == {"PostCommand", "AmbariVersion", "HDPStack", "BootDiskSize", "InstanceType", "AmbariPass", "AmbariServices", "DeployCluster", "AdditionalInstanceCount", "JavaProvider", "JavaVersion"}
    modifies t
    ensures t.Valid() && ok
    ensures t.parameters == old(t.parameters)["SubnetId" := SubnetId]["SecurityGroups" := SecurityGroups]["KeyName" := KeyName]
    ensures t.version == old(t.version) && t.description == old(t.description)
    ensures t.mappings == old(t.mappings) && t.resources == old(t.resources) && t.outputs == old(t.outputs)
  {
    NetworkTitlesNew(t.parameters.Keys);
    var p := t.AddParameter(SubnetId);
    ok := p.Success?;
    if ok {
      p := t.AddParameter(SecurityGroups);
      ok := p.Success?;
      if ok {
        p := t.AddParameter(KeyName);
        ok := p.Success?;
      }
    }
  }

  /** The fourteen parameter declarations, in order; none of them raises. */
  method DeclareParameters(t: Template) returns (ok: bool)
    requires t.Valid() && t.parameters == map[]
    modifies t
    ensures t.Valid() && ok
    ensures t.parameters == StackParameters()
    ensures t.version == old(t.version) && t.description == old(t.description)
    ensures t.mappings == old(t.mappings) && t.resources == old(t.resources) && t.outputs == old(t.outputs)
  {
    ok := DeclareSoftwareParameters(t);
    if ok {
      ok := DeclareSizingParameters(t);
      if ok {
        ok := DeclareClusterParameters(t);
        if ok {
          ok := DeclareJavaParameters(t);
          if ok {
            ok := DeclareNetworkParameters(t);
          }
        }
      }
    }
  }

  /** The two AMI mappings; `add_mapping` never raises. */
  method DeclareMappings(t: Template)
    requires t.Valid() && t.mappings == map[]
    modifies t
    ensures t.Valid()
    ensures t.mappings == StackMappings()
    ensures t.version == old(t.version) && t.description == old(t.description)
    ensures t.parameters == old(t.parameters) && t.resources == old(t.resources) && t.outputs == old(t.outputs)
  {
    t.AddMapping("CENTOS7", Centos7Amis);
    t.AddMapping("AMAZONLINUX2015", AmazonLinux2015Amis);
  }

  /** The wait handle, then the wait condition that listens on it. */
  method DeclareWaitCondition(t: Template) returns (ok: bool)
    requires t.Valid() && t.resources == map[]
    modifies t
    ensures t.Valid() && ok
    ensures t.resources.Keys == {"waitHandleAmbari", "waitConditionAmbari"}
    ensures t.resources == old(t.resources)["waitHandleAmbari" := WaitHandleAmbari]["waitConditionAmbari" := WaitConditionAmbari]
    ensures t.version == old(t.version) && t.description == old(t.description)
    ensures t.parameters == old(t.parameters) && t.mappings == old(t.mappings) && t.outputs == old(t.outputs)
  {
    var r := t.AddResource(WaitHandleAmbari);
    ok := r.Success?;
    if ok {
      r := t.AddResource(WaitConditionAmbari);
      ok := r.Success?;
    }
  }

  /** The Ambari server instance, with the list `my_block_device_mappings_ephemeral(24, "/dev/sd")` builds. */
  method DeclareAmbariNode(t: Template) returns (ok: bool)
    requires t.Valid() && t.resources.Keys == {"waitHandleAmbari", "waitConditionAmbari"}
    modifies t
    ensures t.Valid() && ok
    ensures t.resources.Keys == {"waitHandleAmbari", "waitConditionAmbari", "AmbariNode"}
    ensures t.resources == old(t.resources)["AmbariNode" := AmbariNode(DeviceList(CallSiteDiskCount, "/dev/sd"), BootstrapBody)]
    ensures t.version == old(t.version) && t.description == old(t.description)
    ensures t.parameters == old(t.parameters) && t.mappings == old(t.mappings) && t.outputs == old(t.outputs)
  {
    var devices := BlockDeviceMappings(CallSiteDiskCount, "/dev/sd");
    var r := t.AddResource(AmbariNode(devices.value, BootstrapBody));
    ok := r.Success?;
  }

  /** The workers' launch configuration, with its own copy of the same device list, then their group. */
  method DeclareAdditionalNodes(t: Template) returns (ok: bool)
    requires t.Valid() && t.resources.Keys == {"waitHandleAmbari", "waitConditionAmbari", "AmbariNode"}
    modifies t
    ensures t.Valid() && ok
    ensures t.resources == old(t.resources)
      ["AdditionalNodeLaunchConfig" := AdditionalNodeLaunchConfig(DeviceList(CallSiteDiskCount, "/dev/sd"), BootstrapBody)]
      ["AdditionalNodes" := AdditionalNodes]
    ensures t.version == old(t.version) && t.description == old(t.description)
    ensures t.parameters == old(t.parameters) && t.mappings == old(t.mappings) && t.outputs == old(t.outputs)
  {
    var devices := BlockDeviceMappings(CallSiteDiskCount, "/dev/sd");
    var r := t.AddResource(AdditionalNodeLaunchConfig(devices.value, BootstrapBody));
    ok := r.Success?;
    if ok {
      r := t.AddResource(AdditionalNodes);
      ok := r.Success?;
    }
  }

  /** The five resource declarations, in order; none of them raises. */
  method DeclareResources(t: Template) returns (ok: bool)
    requires t.Valid() && t.resources == map[]
    modifies t
    ensures t.Valid() && ok
    ensures t.resources == StackResources(DeviceList(CallSiteDiskCount, "/dev/sd"), BootstrapBody)
    ensures t.version == old(t.version) && t.description == old(t.description)
    ensures t.parameters == old(t.parameters) && t.mappings == old(t.mappings) && t.outputs == old(t.outputs)
  {
    ok := DeclareWaitCondition(t);
    if ok {
      ok := DeclareAmbariNode(t);
      if ok {
        ok := DeclareAdditionalNodes(t);
      }
    }
  }

  /** The one `add_output` call: its five titles are new, so it stores the whole list. */
  method DeclareOutputs(t: Template) returns (ok: bool)
    requires t.Valid() && t.outputs == map[]
    modifies t
    ensures t.Valid() && ok
    ensures t.outputs == OutputMap(StackOutputs)
    ensures t.version == old(t.version) && t.description == old(t.description)
    ensures t.parameters == old(t.parameters) && t.mappings == old(t.mappings) && t.resources == old(t.resources)
  {
    assert t.outputs.Keys == {};
    OutputsAllAdded();
    var o := t.AddOutputs(StackOutputs);
    assert StackOutputs[..|StackOutputs|] == StackOutputs;
    assert map[] + OutputMap(StackOutputs) == OutputMap(StackOutputs);
    ok := o.Success?;
  }

  /**
   * Builds the template step by step as the script does. No call raises:
   * every title is fresh when it is added. The result holds exactly the
   * declarations above.
   */
  method Generate() returns (t: Template, ok: bool)
    ensures fresh(t) && t.Valid()
    ensures ok
    ensures t.version == Some(FormatVersion) && t.description == Some(TemplateDescription)
    ensures t.parameters == StackParameters()
    ensures t.mappings == StackMappings()
    ensures t.resources == StackResources(DeviceList(CallSiteDiskCount, "/dev/sd"), BootstrapBody)
    ensures t.outputs == OutputMap(StackOutputs)
  {
    t := new Template();
    t.AddVersion(FormatVersion);
    t.AddDescription(TemplateDescription);
    ok := DeclareParameters(t);
    if ok {
      DeclareMappings(t);
      ok := DeclareResources(t);
      if ok {
        ok := DeclareOutputs(t);
      }
    }
  }
}
