/**
 * A CloudFormation template as troposphere's `Template` object holds it while
 * the generator runs: parameters, mappings, resources and outputs kept in
 * dictionaries keyed by their logical names ("titles") and filled in step by
 * step by `add_version`, `add_description`, `add_parameter`, `add_mapping`,
 * `add_resource` and `add_output`. A title that is already taken makes the
 * library raise `ValueError`; `add_mapping` overwrites.
 */
module CfnTemplate {
  import opened Pieces
  import opened Outcomes
  import opened BlockDevices
  import opened Bootstrap

  /** A number-valued setting: a number fixed in the template, or a reference resolved at deploy time. */
  datatype Amount = Count(n: nat) | Referenced(piece: Piece)

  /** A constraint bound as the source writes it: some are integers, some strings. */
  datatype Scalar = Int(i: int) | Text(s: string)

  /**
   * Constraint metadata of a parameter. CloudFormation checks it when the
   * stack is deployed; the generator only attaches it.
   */
  datatype Constraints = Constraints(
    allowedPattern: Option<string>,
    allowedValues: seq<string>,
    minValue: Option<Scalar>,
    maxValue: Option<Scalar>,
    minLength: Option<nat>,
    maxLength: Option<nat>,
    constraintDescription: Option<string>)

  const NoConstraints: Constraints := Constraints(None, [], None, None, None, None, None)

  datatype Parameter = Parameter(
    title: string,
    paramType: string,
    default: Option<string>,
    description: string,
    noEcho: bool,
    constraints: Constraints)

  /** A mapping: top-level key (a region), then attribute name, then value. */
  type Mapping = map<string, map<string, string>>

  /** `FindInMap(mapName, key, attribute)`. */
  datatype ImageLookup = FindInMap(mapName: string, key: Piece, attribute: string)

  /** `Base64(Join("", my_bootstrap_script(...)))`: the bootstrap script of one role around a bash body. */
  datatype UserData = BootstrapUserData(role: Role, body: string)

  /** An auto-scaling group tag, copied onto the instances it launches when `propagateAtLaunch`. */
  datatype AsgTag = AsgTag(key: string, value: Piece, propagateAtLaunch: bool)

  /** A creation policy: the resource is created once `count` success signals arrive within `timeout`. */
  datatype ResourceSignal = ResourceSignal(count: Amount, timeout: string)

  datatype Properties =
    | WaitConditionHandle
    | WaitCondition(handle: Piece, timeout: string)
    | Instance(
        userData: UserData, imageId: ImageLookup, blockDeviceMappings: seq<BlockDeviceMapping>,
        tags: seq<(string, Piece)>, keyName: Piece, instanceType: Piece, subnetId: Piece,
        securityGroupIds: Piece)
    | LaunchConfiguration(
        userData: UserData, imageId: ImageLookup, blockDeviceMappings: seq<BlockDeviceMapping>,
        keyName: Piece, securityGroups: Piece, instanceType: Piece, associatePublicIpAddress: string)
    | AutoScalingGroup(
        desiredCapacity: Amount, minSize: Amount, maxSize: Amount, vpcZoneIdentifier: seq<Piece>,
        launchConfigurationName: Piece, asgTags: seq<AsgTag>)

  /**
   * A resource with its resource-level attributes `DependsOn` and `CreationPolicy`.
   * `DependsOn` is kept as a list of titles; a single title string is the one-element list.
   */
  datatype Resource = Resource(
    title: string,
    properties: Properties,
    dependsOn: seq<string>,
    creationPolicy: Option<ResourceSignal>)

  datatype Output = Output(title: string, description: string, value: seq<Piece>)

  /** The message of the `ValueError` raised for a title that is already taken. */
  function DuplicateKey(title: string): string
  {
    "ValueError: duplicate key \"" + title + "\" detected"
  }

  // ---------------------------------------------------------------------
  // What a resource refers to.

  function AmountPieces(a: Amount): seq<Piece>
  {
    match a
    case Count(_) => []
    case Referenced(p) => [p]
  }

  /** The text of a number-valued setting once deployed in `env`. */
  function AmountText(a: Amount, env: Env): string
  {
    match a
    case Count(n) => Decimal.NatToString(n)
    case Referenced(p) => Resolve(p, env)
  }

  /** The volume sizes of the EBS entries of a device list, in list order; ephemeral entries carry none. */
  function MappingPieces(l: seq<BlockDeviceMapping>): seq<Piece>
  {
    if l == [] then []
    else
      var last := l[|l| - 1];
      MappingPieces(l[..|l| - 1]) + (if last.EbsMapping? then [last.volumeSize] else [])
  }

  /** The pieces `Join("", ...)` concatenates: the role's bootstrap script. */
  function UserDataPieces(u: UserData): seq<Piece>
  {
    BootstrapScript(u.role, u.body)
  }

  function TagPieces(tags: seq<(string, Piece)>): seq<Piece>
  {
    seq(|tags|, i requires 0 <= i < |tags| => tags[i].1)
  }

  function AsgTagPieces(tags: seq<AsgTag>): seq<Piece>
  {
    seq(|tags|, i requires 0 <= i < |tags| => tags[i].value)
  }

  function PropertyPieces(p: Properties): seq<Piece>
  {
    match p
    case WaitConditionHandle => []
    case WaitCondition(h, _) => [h]
    case Instance(u, img, bdm, tags, k, it, sn, sg) =>
      UserDataPieces(u) + [img.key] + MappingPieces(bdm) + TagPieces(tags) + [k, it, sn, sg]
    case LaunchConfiguration(u, img, bdm, k, sg, it, _) =>
      UserDataPieces(u) + [img.key] + MappingPieces(bdm) + [k, sg, it]
    case AutoScalingGroup(d, mn, mx, zones, lc, tags) =>
      AmountPieces(d) + AmountPieces(mn) + AmountPieces(mx) + zones + [lc] + AsgTagPieces(tags)
  }

  /** Every piece a resource carries, its creation policy included. */
  function ResourcePieces(r: Resource): seq<Piece>
  {
    PropertyPieces(r.properties) +
    (if r.creationPolicy.Some? then AmountPieces(r.creationPolicy.value.count) else [])
  }

  /**
   * The resources among `titles` that `r` must wait for: those it names in
   * `DependsOn`, those it refers to with `Ref`, and those whose attributes
   * it reads with `Fn::GetAtt` (the implicit dependencies CloudFormation adds).
   */
  function Dependencies(r: Resource, titles: set<string>): set<string>
  {
    DependencySet(titles, r.dependsOn, RefNames(ResourcePieces(r)), AttResources(ResourcePieces(r)))
  }

  /** The members of `titles` named explicitly, by a `Ref`, or by a `Fn::GetAtt`. */
  function DependencySet(titles: set<string>, dependsOn: seq<string>, refs: seq<string>, atts: seq<string>): set<string>
  {
    set n | n in titles && (n in dependsOn || n in refs || n in atts)
  }

  // ---------------------------------------------------------------------
  // Adding a list of outputs.

  /**
   * How many leading entries of `os` `add_output` stores before it meets a
   * title that is taken, either by `keys` or by an earlier entry.
   */
  function AddedPrefix(keys: set<string>, os: seq<Output>): (n: nat)
    ensures n <= |os|
    decreases |os|
  {
    if os == [] || os[0].title in keys then 0 else 1 + AddedPrefix(keys + {os[0].title}, os[1..])
  }

  /** The outputs `os` filed under their titles, a later entry replacing an earlier one. */
  function OutputMap(os: seq<Output>): map<string, Output>
  {
    if os == [] then map[] else OutputMap(os[..|os| - 1])[os[|os| - 1].title := os[|os| - 1]]
  }

  /**
   * The whole list is stored exactly when no title in it is taken already
   * and no two of its entries share a title.
   */
  lemma {:induction false} AddedPrefixAll(keys: set<string>, os: seq<Output>)
    ensures AddedPrefix(keys, os) == |os| <==>
      (forall i :: 0 <= i < |os| ==> os[i].title !in keys) &&
      (forall i, j :: 0 <= i < j < |os| ==> os[i].title != os[j].title)
    decreases |os|
  {
    if os != [] {
      var t := os[0].title;
      AddedPrefixAll(keys + {t}, os[1..]);
      if t !in keys {
        assert forall i :: 1 <= i < |os| ==> os[i] == os[1..][i - 1];
      }
    }
  }

  /** The keys of an output map are the titles of its entries, each filed under its own title. */
  lemma {:induction false} OutputMapEntries(os: seq<Output>)
    ensures forall t :: t in OutputMap(os) <==> exists i :: 0 <= i < |os| && os[i].title == t
    ensures forall t :: t in OutputMap(os) ==> OutputMap(os)[t].title == t
  {
    if os != [] {
      var init := os[..|os| - 1];
      OutputMapEntries(init);
      assert forall i :: 0 <= i < |init| ==> init[i] == os[i];
    }
  }

  lemma UnionUpdate<K, V>(a: map<K, V>, b: map<K, V>, k: K, v: V)
    ensures a + b[k := v] == (a + b)[k := v]
  {
  }

  // ---------------------------------------------------------------------
  // The template object.

  class Template {
    var version: Option<string>
    var description: Option<string>
    var parameters: map<string, Parameter>
    var mappings: map<string, Mapping>
    var resources: map<string, Resource>
    var outputs: map<string, Output>

    /** Every parameter, resource and output is filed under its own title. */
    predicate Valid()
      reads this
    {
      && (forall k :: k in parameters ==> parameters[k].title == k)
      && (forall k :: k in resources ==> resources[k].title == k)
      && (forall k :: k in outputs ==> outputs[k].title == k)
    }

    /** `Template()`: nothing declared yet. */
    constructor ()
      ensures Valid()
      ensures version == None && description == None
      ensures parameters == map[] && mappings == map[] && resources == map[] && outputs == map[]
    {
      version := None;
      description := None;
      parameters := map[];
      mappings := map[];
      resources := map[];
      outputs := map[];
    }

    /** `add_version`: sets the format version. */
    method AddVersion(v: string)
      requires Valid()
      modifies this
      ensures Valid()
      ensures version == Some(v)
      ensures description == old(description) && parameters == old(parameters) && mappings == old(mappings)
      ensures resources == old(resources) && outputs == old(outputs)
    {
      version := Some(v);
    }

    /** `add_description`: sets the description. */
    method AddDescription(d: string)
      requires Valid()
      modifies this
      ensures Valid()
      ensures description == Some(d)
      ensures version == old(version) && parameters == old(parameters) && mappings == old(mappings)
      ensures resources == old(resources) && outputs == old(outputs)
    {
      description := Some(d);
    }

    /** `add_parameter`: files `p` under its title, or raises when the title is taken. */
    method AddParameter(p: Parameter) returns (r: Result<Parameter>)
      requires Valid()
      modifies this
      ensures Valid()
      ensures r == if p.title in old(parameters) then Failure(DuplicateKey(p.title)) else Success(p)
      ensures parameters == if r.Success? then old(parameters)[p.title := p] else old(parameters)
      ensures version == old(version) && description == old(description) && mappings == old(mappings)
      ensures resources == old(resources) && outputs == old(outputs)
    {
      if p.title in parameters {
        return Failure(DuplicateKey(p.title));
      }
      parameters := parameters[p.title := p];
      return Success(p);
    }

    /** `add_mapping`: files `m` under `name`, replacing any mapping of that name. */
    method AddMapping(name: string, m: Mapping)
      requires Valid()
      modifies this
      ensures Valid()
      ensures mappings == old(mappings)[name := m]
      ensures version == old(version) && description == old(description) && parameters == old(parameters)
      ensures resources == old(resources) && outputs == old(outputs)
    {
      mappings := mappings[name := m];
    }

    /** `add_resource`: files `res` under its title, or raises when the title is taken. */
    method AddResource(res: Resource) returns (r: Result<Resource>)
      requires Valid()
      modifies this
      ensures Valid()
      ensures r == if res.title in old(resources) then Failure(DuplicateKey(res.title)) else Success(res)
      ensures resources == if r.Success? then old(resources)[res.title := res] else old(resources)
      ensures version == old(version) && description == old(description) && parameters == old(parameters)
      ensures mappings == old(mappings) && outputs == old(outputs)
    {
      if res.title in resources {
        return Failure(DuplicateKey(res.title));
      }
      resources := resources[res.title := res];
      return Success(res);
    }

    /**
     * `add_output` with a list: files the entries one by one and raises at
     * the first title that is taken, keeping the entries filed before it.
     */
    method AddOutputs(os: seq<Output>) returns (r: Result<seq<Output>>)
      requires Valid()
      modifies this
      ensures Valid()
      ensures outputs == old(outputs) + OutputMap(os[..AddedPrefix(old(outputs).Keys, os)])
      ensures r.Success? <==> AddedPrefix(old(outputs).Keys, os) == |os|
      ensures r.Success? ==> r.value == os
      ensures r.Failure? ==> r.error == DuplicateKey(os[AddedPrefix(old(outputs).Keys, os)].title)
      ensures version == old(version) && description == old(description) && parameters == old(parameters)
      ensures mappings == old(mappings) && resources == old(resources)
    {
      var i := 0;
      while i < |os|
        invariant 0 <= i <= |os|
        invariant Valid()
        invariant outputs == old(outputs) + OutputMap(os[..i])
        invariant AddedPrefix(old(outputs).Keys, os) == i + AddedPrefix(outputs.Keys, os[i..])
        invariant version == old(version) && description == old(description) && parameters == old(parameters)
        invariant mappings == old(mappings) && resources == old(resources)
      {
        var o := os[i];
        if o.title in outputs {
          return Failure(DuplicateKey(o.title));
        }
        assert os[i..][1..] == os[i + 1..];
        assert os[..i + 1][..i] == os[..i];
        assert OutputMap(os[..i + 1]) == OutputMap(os[..i])[o.title := o];
        UnionUpdate(old(outputs), OutputMap(os[..i]), o.title, o);
        ghost var keys := outputs.Keys;
        assert AddedPrefix(keys, os[i..]) == 1 + AddedPrefix(keys + {o.title}, os[i + 1..]);
        outputs := outputs[o.title := o];
        assert outputs.Keys == keys + {o.title};
        i := i + 1;
      }
      assert os[..|os|] == os;
      return Success(os);
    }
  }
}
