# Ambari/HDP CloudFormation generator: a Dafny model

`generic/aws-cloudformation-in-existing-vpc.py` is a Python 2 script. It uses
the troposphere library to build one AWS CloudFormation template for an
Apache Ambari and Hortonworks Data Platform cluster inside an existing VPC.
The template holds:

- fourteen parameters;
- two AMI mappings;
- a wait handle and a wait condition;
- one Ambari server instance (`AmbariNode`);
- a launch configuration and an auto-scaling group for the additional nodes;
- five outputs.

Both node kinds get the same block-device list. That list is one gp2 root
volume followed by 24 instance-store volumes. Each node kind also gets a
bootstrap shell script as user data. The script is a list of `export`
lines, then a fixed body. Some exported values are literal text. Others are
CloudFormation references, which stay unresolved until the stack is deployed.

This project models that core:

- **`Pieces`**: the values of a `Fn::Join("", ...)`. A value is literal text
  (`Lit`), a `Ref` or a `Fn::GetAtt`. `Render` gives the text a list becomes
  once deployed in an environment `Env`, which resolves the references.
  `Deferred`, `RefNames` and `AttResources` say what a list leaves to
  deployment.
- **`Decimal`**: Python's `str` on naturals.
- **`Lines`**: Python's `splitlines(True)`.
- **`Outcomes`**: `Result` and `Option`.
- **`BlockDevices`**: `my_block_device_mappings_root` and
  `my_block_device_mappings_ephemeral`. This includes the `ValueError` that
  Python 2's `chr` raises past 255.
- **`Bootstrap`**: `my_bootstrap_script`. The body `bootstrap_script_body` is
  kept as one constant string. Every property is proved for an arbitrary
  body, so nothing depends on its text.
- **`CfnTemplate`**: troposphere's `Template` as a class. Its dictionaries
  are `map` fields, and the `add_*` methods update them in place. It also
  holds the resource datatypes and the dependencies CloudFormation derives
  from `DependsOn`, `Ref` and `Fn::GetAtt`.
- **`Stack`**: the script's module-level statements. They are run in order
  against one `Template` (`Generate`) and proved to build exactly the
  declared parameters, mappings, resources and outputs.
- **`StackProperties`**: what the assembled stack guarantees:
  - what each resource refers to;
  - the dependency graph, its acyclicity and the order the resources are added in;
  - the worker group's sizes and success signals;
  - where the password appears;
  - that every reference names a declared parameter, pseudo-parameter or resource.

## Model

| member | source | states |
|---|---|---|
| BlockDevices.RootMapping | generic/aws-cloudformation-in-existing-vpc.py:198-202 | Definition: the root mapping is an EBS volume named `base + "a1"` with the given size and volume type. |
| BlockDevices.BootRoot | generic/aws-cloudformation-in-existing-vpc.py:205 | Definition: the root entry of every built list is `RootMapping("/dev/sd", Ref(BootDiskSize), "gp2")`, whatever base the caller passes. |
| BlockDevices.Ephemeral | generic/aws-cloudformation-in-existing-vpc.py:206-211 | Definition: ephemeral volume `i` is named `base + chr(i + 98)` with virtual name "ephemeral" followed by `str(i)`. It needs `i + 98 < 256`, the range of Python 2's `chr`. |
| BlockDevices.DeviceList | generic/aws-cloudformation-in-existing-vpc.py:203-212 | Definition: the list the builder returns when it does not fail: the boot root, then ephemeral volumes 0 to `diskcount - 1` in order. It is the specification `BlockDeviceMappings` is proved against. |
| BlockDevices.BlockDeviceMappings | generic/aws-cloudformation-in-existing-vpc.py:203-212 | The builder loop returns the root mapping followed by one ephemeral mapping per index below `diskcount`. It returns only the root when `diskcount <= 0`, as `xrange` does. It fails for `diskcount > 158`, where `chr(i+98)` leaves the byte range. For `diskcount` from 26 to 158 it succeeds, but from the 26th volume on the device names do not end in a letter (see `SuffixesBeyondZ`). |
| BlockDevices.DeviceListShape | generic/aws-cloudformation-in-existing-vpc.py:203-212 | The list has `diskcount + 1` entries. Entry 0 is the root and entry `i + 1` is ephemeral volume `i`. |
| BlockDevices.RootEntry | generic/aws-cloudformation-in-existing-vpc.py:198-205 | The root entry is the gp2 EBS volume "/dev/sda1" sized by `Ref(BootDiskSize)`, whatever name base the caller passes. |
| BlockDevices.EphemeralSuffixes | generic/aws-cloudformation-in-existing-vpc.py:206-211 | Ephemeral device suffixes are the consecutive characters with codes 98, 99, …, strictly increasing, with no gaps. They are the letters 'b' to 'z' only while `diskcount <= 25`. |
| BlockDevices.SuffixesBeyondZ | generic/aws-cloudformation-in-existing-vpc.py:206-211 | A suffix is a letter 'b'–'z' exactly for the first 25 ephemeral volumes. The 25th ends in 'z', the 26th in '{', and from the 31st on the suffix is a byte above 0x7F, all accepted by the builder up to `diskcount` 158. |
| BlockDevices.DeviceNamesDistinct | generic/aws-cloudformation-in-existing-vpc.py:198-212 | No two entries share a device name, and no two ephemeral entries share a virtual name. |
| BlockDevices.CallSiteSuffixes | generic/aws-cloudformation-in-existing-vpc.py:335 | At the call sites (24 volumes, "/dev/sd") there are 25 entries, and the suffixes are exactly "b" through "y", all inside `[b-z]`. |
| Decimal.NatToString | generic/aws-cloudformation-in-existing-vpc.py:210 | Definition: Python's `str` on a natural, most significant digit first, with no leading zero. |
| Decimal.ParseNatToString | generic/aws-cloudformation-in-existing-vpc.py:210 | `str(i)` is a string of digits that parses back to `i`. |
| Decimal.NatToStringInjective | generic/aws-cloudformation-in-existing-vpc.py:210 | Distinct indices give distinct `str(i)`, so the "ephemeral" names differ. |
| Lines.SplitLinesKeepEnds | generic/aws-cloudformation-in-existing-vpc.py:329 | Definition: Python 2's `splitlines(True)` on a byte string. A line ends after "\n", after "\r" not followed by "\n", or after "\r\n", and keeps its break. |
| Lines.SplitLinesKeepEndsConcat | generic/aws-cloudformation-in-existing-vpc.py:329 | Joining the lines of `splitlines(True)` gives back the text. |
| Lines.SplitLinesKeepEndsLines | generic/aws-cloudformation-in-existing-vpc.py:329 | Every line is non-empty and holds no line break before its own. Every line except the last ends with one. A "\r\n" pair is never cut between two lines. |
| Lines.BodyPiecesRender | generic/aws-cloudformation-in-existing-vpc.py:329 | The body's lines, as literal pieces, render to the body in every environment and defer nothing. |
| Bootstrap.BootstrapScript | generic/aws-cloudformation-in-existing-vpc.py:305-329 | Definition: the piece list `my_bootstrap_script` returns: the header lines and the export lines of the role, then the body's lines as literal pieces. |
| Bootstrap.ExportOrderDistinct | generic/aws-cloudformation-in-existing-vpc.py:312-327 | The sixteen exported variable names are pairwise distinct. |
| Bootstrap.ExportedOnceInOrder | generic/aws-cloudformation-in-existing-vpc.py:306-328 | For every role, the export prefix assigns exactly the sixteen variables, each once, in the source's order. The body's own `export` lines are not part of it. |
| Bootstrap.EnvFileReadsExported | generic/aws-cloudformation-in-existing-vpc.py:251-268 | Every variable the body's env-file heredoc reads is exported before the body runs. |
| Bootstrap.RoleExportsShape | generic/aws-cloudformation-in-existing-vpc.py:305-328 | Any two roles export the same names with the same quoting. Their values agree except for the four role variables, whose values are the role's own. |
| Bootstrap.RenderExports | generic/aws-cloudformation-in-existing-vpc.py:312-327 | Once deployed, the export triples become one `export name=quote value quote` line each, in order. |
| Bootstrap.DeferredExports | generic/aws-cloudformation-in-existing-vpc.py:312-327 | Only export values can be deferred; the surrounding text is literal. |
| Bootstrap.ScriptText | generic/aws-cloudformation-in-existing-vpc.py:305-329 | The deployed script is the header, then one line per export, then the body unchanged. Its deferred pieces are exactly the deferred export values, in order. |
| Bootstrap.BodySameForEveryRole | generic/aws-cloudformation-in-existing-vpc.py:329 | After a 52-piece prefix, every role's script is the same list of body lines. |
| Bootstrap.ValuesOfExports | generic/aws-cloudformation-in-existing-vpc.py:312-327 | Lists the sixteen values a role exports, in order. |
| Bootstrap.DeferredValues | generic/aws-cloudformation-in-existing-vpc.py:312-327 | Every export value except the role's name and flags is deferred. Those are the region, the stack name, the server address when deferred, and ten references. |
| Bootstrap.ScriptDeferred | generic/aws-cloudformation-in-existing-vpc.py:305-329 | The script's deferred pieces are those same values, whatever the body. |
| Bootstrap.ServerAddressDeferred | generic/aws-cloudformation-in-existing-vpc.py:315 | A deferred server address (the worker's `GetAtt`) stays deferred, third in the script. A literal one adds no deferred piece. |
| Bootstrap.ExportsPiecesAt | generic/aws-cloudformation-in-existing-vpc.py:312-327 | Export `k` of any list stands as the three pieces from `3k` on: the literal `export name=quote`, the value, then the closing quote and newline. |
| Bootstrap.ExportsPiecesAgree | generic/aws-cloudformation-in-existing-vpc.py:312-327 | Two export lists show an export alike where the exports agree: the surrounding text when names and quotes agree, the value piece when the values do. |
| Bootstrap.ExportsPiecesOnlyValue | generic/aws-cloudformation-in-existing-vpc.py:312-327 | A non-literal piece that is the value of only one export occurs among the export pieces only as that value. |
| Bootstrap.RoleVariablePositions | generic/aws-cloudformation-in-existing-vpc.py:312-327 | The four role variables are exports 2, 3, 8 and 9. |
| Bootstrap.ExportPiecesDifferAtRoleValues | generic/aws-cloudformation-in-existing-vpc.py:312-327 | The 48 export pieces of two roles agree everywhere but at the four role values, pieces 7, 10, 25 and 28. |
| Bootstrap.PrefixesDifferAtRoleValues | generic/aws-cloudformation-in-existing-vpc.py:305-329 | Before the body, the scripts of two roles agree everywhere but at pieces 11, 14, 29 and 32. |
| Bootstrap.RoleValuesInScript | generic/aws-cloudformation-in-existing-vpc.py:305-329 | Pieces 11, 14, 29 and 32 of a role's script are its `resource`, its server address, `install_ambari_agent` and `install_ambari_server`. |
| Bootstrap.PasswordExportedOnce | generic/aws-cloudformation-in-existing-vpc.py:325 | Unless the role's server address is the password, export 13, `ambari_pass`, is the only export whose value is `Ref(AmbariPass)`. |
| Bootstrap.PasswordPieceInScript | generic/aws-cloudformation-in-existing-vpc.py:305-329 | The script holds the password as exactly one piece, piece 44, which directly follows the literal `export ambari_pass=`. The header and the body hold none. |
| Pieces.Render | generic/aws-cloudformation-in-existing-vpc.py:333 | Definition: the text a `Join("", pieces)` becomes once deployed: the concatenation of each piece's literal text or of the value the environment gives its reference. |
| CfnTemplate.UserDataPieces | generic/aws-cloudformation-in-existing-vpc.py:333 | Definition: the pieces `Base64(Join("", ...))` concatenates for a node's user data: its role's bootstrap script around the body. |
| CfnTemplate.Dependencies | generic/aws-cloudformation-in-existing-vpc.py:183-378 | Definition: the resources CloudFormation makes a resource wait for: its `DependsOn` titles, and the resource titles its `Ref`s and `Fn::GetAtt`s name. |
| CfnTemplate.Template.constructor | generic/aws-cloudformation-in-existing-vpc.py:41 | A new template declares nothing. |
| CfnTemplate.Template.AddVersion | generic/aws-cloudformation-in-existing-vpc.py:43 | Sets the format version and nothing else. |
| CfnTemplate.Template.AddDescription | generic/aws-cloudformation-in-existing-vpc.py:45-46 | Sets the description and nothing else. |
| CfnTemplate.Template.AddParameter | generic/aws-cloudformation-in-existing-vpc.py:50-55 | Files the parameter under its title. If the title is taken, it fails with `ValueError` and changes nothing. |
| CfnTemplate.Template.AddMapping | generic/aws-cloudformation-in-existing-vpc.py:164-174 | Files the mapping under its name, replacing any earlier one. |
| CfnTemplate.Template.AddResource | generic/aws-cloudformation-in-existing-vpc.py:183 | Files the resource under its title. If the title is taken, it fails with `ValueError` and changes nothing. |
| CfnTemplate.Template.AddOutputs | generic/aws-cloudformation-in-existing-vpc.py:380-410 | Files the list of outputs one by one. It stops with `ValueError` at the first title already taken and keeps the entries filed before it. It succeeds exactly when all are filed. |
| CfnTemplate.AddedPrefixAll | generic/aws-cloudformation-in-existing-vpc.py:380-410 | The whole list is filed exactly when no title in it is taken and no two entries share a title. |
| CfnTemplate.OutputMapEntries | generic/aws-cloudformation-in-existing-vpc.py:380-410 | The filed outputs are keyed by exactly the titles in the list, each under its own title. |
| Stack.StackParameters | generic/aws-cloudformation-in-existing-vpc.py:50-161 | Definition: the fourteen parameters, each under its own title, with the type, description, default and constraints the source gives. |
| Stack.StackMappings | generic/aws-cloudformation-in-existing-vpc.py:164-180 | Definition: the CENTOS7 and AMAZONLINUX2015 AMI tables, region by region. |
| Stack.AmbariNode | generic/aws-cloudformation-in-existing-vpc.py:331-348 | Definition: the server instance: the coordinator's script as user data, the CENTOS7 image of the region, the given device list, a Name tag with the stack name, the key, instance type, subnet and security groups from parameters, and one success signal within PT15M. |
| Stack.AdditionalNodeLaunchConfig | generic/aws-cloudformation-in-existing-vpc.py:350-359 | Definition: the workers' launch configuration: the worker's script, whose server address is `GetAtt(AmbariNode, PrivateDnsName)`, the same image and devices, the key, security groups and instance type, and a public IP address. |
| Stack.StackResources | generic/aws-cloudformation-in-existing-vpc.py:183-378 | Definition: the five resources, each under its title: the wait handle, the wait condition, the server, the launch configuration and the worker group. |
| Stack.DeclareSoftwareParameters | generic/aws-cloudformation-in-existing-vpc.py:50-71 | Adds PostCommand, AmbariVersion and HDPStack; no title is taken. |
| Stack.DeclareSizingParameters | generic/aws-cloudformation-in-existing-vpc.py:73-88 | Adds BootDiskSize and InstanceType; no title is taken. |
| Stack.DeclareClusterParameters | generic/aws-cloudformation-in-existing-vpc.py:90-123 | Adds AmbariPass, AmbariServices, DeployCluster and AdditionalInstanceCount; no title is taken. |
| Stack.DeclareJavaParameters | generic/aws-cloudformation-in-existing-vpc.py:125-141 | Adds JavaProvider and JavaVersion; no title is taken. |
| Stack.DeclareNetworkParameters | generic/aws-cloudformation-in-existing-vpc.py:143-161 | Adds SubnetId, SecurityGroups and KeyName; no title is taken. |
| Stack.DeclareParameters | generic/aws-cloudformation-in-existing-vpc.py:50-161 | The fourteen `add_parameter` calls all succeed and leave exactly `StackParameters()`. |
| Stack.DeclareMappings | generic/aws-cloudformation-in-existing-vpc.py:164-180 | The two `add_mapping` calls leave exactly the CENTOS7 and AMAZONLINUX2015 tables. |
| Stack.DeclareWaitCondition | generic/aws-cloudformation-in-existing-vpc.py:183-191 | Adds the wait handle, then the wait condition on it with timeout "3600"; both succeed. |
| Stack.DeclareAmbariNode | generic/aws-cloudformation-in-existing-vpc.py:331-348 | Builds the device list with the builder (24, "/dev/sd"), then adds the server instance. |
| Stack.DeclareAdditionalNodes | generic/aws-cloudformation-in-existing-vpc.py:350-378 | Adds the launch configuration, with its own device list, then the auto-scaling group. |
| Stack.DeclareResources | generic/aws-cloudformation-in-existing-vpc.py:183-378 | The five `add_resource` calls all succeed and leave exactly `StackResources` of the 24-volume list. |
| Stack.OutputsAllAdded | generic/aws-cloudformation-in-existing-vpc.py:380-410 | The five output titles are distinct, so the list is filed whole. |
| Stack.DeclareOutputs | generic/aws-cloudformation-in-existing-vpc.py:380-410 | The one `add_output` call files all five outputs under their titles. |
| Stack.Generate | generic/aws-cloudformation-in-existing-vpc.py:41-410 | Running the script's statements in order raises nothing. The template holds exactly the version, description, parameters, mappings, resources and outputs declared. |
| StackProperties.DeviceListPieces | generic/aws-cloudformation-in-existing-vpc.py:203-212 | The only reference in any built device list is the root's `Ref(BootDiskSize)`. |
| StackProperties.ValuesReferences | generic/aws-cloudformation-in-existing-vpc.py:312-327 | The values a role exports refer to the region, the stack name, the server address if it is a `Ref`, and ten parameters and resources. They read an attribute only through the server address. |
| StackProperties.UserDataReferences | generic/aws-cloudformation-in-existing-vpc.py:305-333 | For every body, a role's user data defers exactly the deferred export values, so it refers to the same names as those values and reads an attribute only through the server address. |
| StackProperties.WaitConditionReferences | generic/aws-cloudformation-in-existing-vpc.py:183-191 | The wait handle refers to nothing; the wait condition refers only to `waitHandleAmbari`. |
| StackProperties.InstancePieces | generic/aws-cloudformation-in-existing-vpc.py:331-348 | For any role and body, a node instance's pieces are its user data's script, then the region, the boot disk size, the Name tag and its four property references. |
| StackProperties.AmbariNodeReferences | generic/aws-cloudformation-in-existing-vpc.py:331-348 | The server refers to its script's names and to Region, BootDiskSize, StackName, KeyName, InstanceType, SubnetId and SecurityGroups, and reads no attribute. |
| StackProperties.LaunchConfigurationPieces | generic/aws-cloudformation-in-existing-vpc.py:350-359 | For any role and body, a launch configuration's pieces are its user data's script, then the region, the boot disk size, the key, the security groups and the instance type. |
| StackProperties.AdditionalNodeLaunchConfigReferences | generic/aws-cloudformation-in-existing-vpc.py:350-359 | The launch configuration refers to its script's names and five more. It reads exactly one attribute, of `AmbariNode`. |
| StackProperties.AdditionalNodesReferences | generic/aws-cloudformation-in-existing-vpc.py:361-378 | The group refers to AdditionalInstanceCount (three times), SubnetId, the launch configuration and the stack name. |
| StackProperties.WaitConditionDependencies | generic/aws-cloudformation-in-existing-vpc.py:183-191 | The handle waits for nothing; the condition waits for the handle. |
| StackProperties.AmbariNodeDependencies | generic/aws-cloudformation-in-existing-vpc.py:331-348 | The server waits exactly for `waitHandleAmbari`, through its script. |
| StackProperties.AdditionalNodeLaunchConfigDependencies | generic/aws-cloudformation-in-existing-vpc.py:350-359 | The launch configuration waits exactly for `AmbariNode` and `waitHandleAmbari`. |
| StackProperties.AdditionalNodesDependencies | generic/aws-cloudformation-in-existing-vpc.py:361-378 | The group waits exactly for `AmbariNode` and its launch configuration. |
| StackProperties.StackDependencies | generic/aws-cloudformation-in-existing-vpc.py:183-378 | The five resources are keyed by the five titles, and each waits for exactly the titles in `DependencyEdges`. |
| StackProperties.ResourceTitlesMatch | generic/aws-cloudformation-in-existing-vpc.py:183-378 | Every resource is filed under its own title. |
| StackProperties.AddedAfterDependencies | generic/aws-cloudformation-in-existing-vpc.py:183-378 | Each resource is added after every resource it waits for. |
| StackProperties.ChainDescends | generic/aws-cloudformation-in-existing-vpc.py:183-378 | Along any chain of dependencies, the position in the order of addition strictly decreases. |
| StackProperties.DependenciesAcyclic | generic/aws-cloudformation-in-existing-vpc.py:183-378 | No resource waits, directly or indirectly, for itself. |
| StackProperties.WaitConditionIsLeaf | generic/aws-cloudformation-in-existing-vpc.py:185-191 | No resource waits for the wait condition. |
| StackProperties.ServerWaitedForBy | generic/aws-cloudformation-in-existing-vpc.py:350-378 | Exactly the launch configuration and the group wait for the server. |
| StackProperties.ExplicitDependsOn | generic/aws-cloudformation-in-existing-vpc.py:361-378 | Only the group has a `DependsOn`, and it is exactly `["AmbariNode"]`: the source's single title, kept as a one-element list. |
| StackProperties.WorkerGroupScaling | generic/aws-cloudformation-in-existing-vpc.py:361-374 | In every deployment, desired size, maximum size and expected signal count all equal `AdditionalInstanceCount`. The minimum is "0", the timeout PT30M, and the group depends on `AmbariNode`. |
| StackProperties.NoAdditionalInstances | generic/aws-cloudformation-in-existing-vpc.py:361-378 | With `AdditionalInstanceCount` = "0", the group is still declared, with minimum, maximum and desired size all "0". |
| StackProperties.ServerSignal | generic/aws-cloudformation-in-existing-vpc.py:336-340 | The server needs one success signal within PT15M and has no `DependsOn`. |
| StackProperties.WaitConditionOnHandle | generic/aws-cloudformation-in-existing-vpc.py:183-191 | The wait condition waits "3600" seconds on `Ref(waitHandleAmbari)`. That handle is the stack's wait handle, and every role's script refers to it. |
| StackProperties.OutputsShape | generic/aws-cloudformation-in-existing-vpc.py:380-410 | There are five outputs, IIAN, AmbariURL, AmbariSSH, AmbariServiceInstanceId and Region, and none refers to AmbariPass. |
| StackProperties.OutputsIgnorePassword | generic/aws-cloudformation-in-existing-vpc.py:380-410 | Every output renders to the same text whatever the password's value. |
| StackProperties.ScriptCarriesPassword | generic/aws-cloudformation-in-existing-vpc.py:325 | Every role's script refers to AmbariPass. |
| StackProperties.PasswordOnlyInScripts | generic/aws-cloudformation-in-existing-vpc.py:183-378 | Each node kind refers exactly to its script's names followed by its own property references. Its script refers to AmbariPass and its own references do not. The wait handle, the wait condition and the worker group never refer to it. |
| StackProperties.PasswordPieceKept | generic/aws-cloudformation-in-existing-vpc.py:331-359 | A role's user data followed by references to other names holds the password only as the `ambari_pass` export's value, piece 44. |
| StackProperties.AmbariNodePasswordPiece | generic/aws-cloudformation-in-existing-vpc.py:331-348 | In the server resource, the password is exactly one piece: the value of its script's `ambari_pass` export. |
| StackProperties.LaunchConfigPasswordPiece | generic/aws-cloudformation-in-existing-vpc.py:350-359 | In the launch configuration, the password is exactly one piece: the value of its script's `ambari_pass` export. |
| StackProperties.ParameterTable | generic/aws-cloudformation-in-existing-vpc.py:50-161 | The parameters are keyed by exactly the fourteen titles. |
| StackProperties.ParameterTitlesMatch | generic/aws-cloudformation-in-existing-vpc.py:50-161 | Every parameter is filed under its own title. |
| StackProperties.OnlyPasswordMasked | generic/aws-cloudformation-in-existing-vpc.py:90-99 | A parameter is `NoEcho` exactly when it is AmbariPass. |
| StackProperties.NamesDisjoint | generic/aws-cloudformation-in-existing-vpc.py:50-191 | Parameter, resource and pseudo-parameter names are pairwise disjoint. |
| StackProperties.ImageLookupDeclared | generic/aws-cloudformation-in-existing-vpc.py:334 | The image lookup names the declared CENTOS7 mapping, keyed by region, and every row of it has an AMI. |
| StackProperties.ResourcesResolve | generic/aws-cloudformation-in-existing-vpc.py:183-378 | Every resource's `Ref`s name a declared parameter, pseudo-parameter or resource, and every `Fn::GetAtt` names a resource. |
| StackProperties.OutputsResolve | generic/aws-cloudformation-in-existing-vpc.py:380-410 | The same holds for every output. |
| StackProperties.BuiltStack | generic/aws-cloudformation-in-existing-vpc.py:331-378 | With any list the builder returns, including the 24-volume one, and any script body, the resources form the graph `DependencyEdges` and refer only to declared names. |

## Left out

- The `__main__` block is not modelled: the JSON rendering (`to_json`), the validation call to CloudFormation through boto, the error report and the file write. They are I/O and network calls.
- Troposphere's JSON serialisation and `Base64` are not modelled. A `Join("", pieces)` is kept as its list of pieces, and `Render` gives the text it becomes once deployed.
- The troposphere library is not part of this model. Two behaviours of it are assumed:
  - `add_parameter`, `add_resource` and `add_output` raise `ValueError` on a title already taken;
  - `add_mapping` overwrites.
- The bash body is not given a meaning. Its text is kept as the constant `BootstrapBody`, which the generated template's user data carries, and only the variables its env-file heredoc reads are listed. Every script and resource lemma holds for any body.
- Parameter constraints (patterns, bounds, allowed values) are kept as inert data. CloudFormation checks them at deploy time.
- `AdditionalInstanceCount`'s declared bounds are strings ("99", "0") in the source, while `BootDiskSize`'s are integers. The model keeps that difference and does not interpret either.
- Both AMI tables are constant maps. Only the lookup's mapping name and `AMI` attribute are checked.
- The unused imports and conditions (`Select`, `If`, `iam`) are not modelled. The `AWS::StackId` reference at line 24 is declared but never used.
- The description of parameter HDPStack repeats the AmbariPass text in the source. The model copies it as is.
- The description of parameter SubnetId lacks a space before "access" in the source, because Python joins adjacent literals. The model copies it as is.
- The first two header lines of the script are one list element, because a comma is missing and Python joins the literals. The model keeps them as one element. This changes neither the rendered text nor any property.
- The worker group's `MinSize` is the constant 0, not `AdditionalInstanceCount` (`WorkerGroupScaling`).
- The wait condition depends on its handle, and `AmbariNode` waits for the handle through its script (`WaitConditionDependencies`, `AmbariNodeDependencies`).
- Nothing waits for the wait condition (`WaitConditionIsLeaf`).
