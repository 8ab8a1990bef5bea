/**
 * The user-data script of an instance (`my_bootstrap_script`): a prefix of
 * shell exports, some of whose values are literal text fixed when the
 * template is generated and some deferred references CloudFormation fills in
 * at deploy time, followed by a role-independent shell body split into lines
 * with their line endings kept. The instance's `UserData` is
 * `Base64(Join("", script))`.
 */
module Bootstrap {
  import opened Pieces
  import opened Lines

  /**
   * `bootstrap_script_body` as Python builds it: the triple-quoted literal
   * with its escapes processed, so each "\n" inside the `printf` argument and
   * the `printf` format is a real line break and "\/" stays two characters.
   * The model reads nothing of it but its lines; what its env-file heredoc
   * reads is recorded in `EnvFileReads`.
   */
  const BootstrapBody: string := @"
########################################################################
## trap errors
error_exit() {
  local line_no=$1
  local exit_code=$2
  cfn-signal -e ${exit_code} --region ${region} --stack ${stack} --resource ${resource}
  exit ${exit_code}
}
trap 'error_exit ${LINENO} ${?}' ERR

export TERM=xterm

########################################################################
## Install and Update CloudFormation
yum install -y epel-release
/usr/bin/easy_install https://s3.amazonaws.com/cloudformation-examples/aws-cfn-bootstrap-latest.tar.gz

## Signal node is up
cfn-signal -e ${?} --region ${region} --stack ${stack} --resource ${resource}

########################################################################
## AWS specific system modifications

printf 'Defaults !requiretty
' > /etc/sudoers.d/888-dont-requiretty

setenforce Permissive

# ## swappiness to 0
# sysctl -w vm.swappiness=0
# mkdir -p /etc/sysctl.d
# cat > /etc/sysctl.d/50-swappiness.conf <<-'EOF'
# ## disable swapping
# vm.swappiness=0
# EOF

cat >> ~/masterclass.env <<EOF
export region=""${region}""
export stack=""${stack}""
export cluster_name=""${stack}""
export resource=""${resource}""
export ambari_server=""${ambari_server}""
export ambari_version=""${ambari_version}""
export ambari_stack_version=""${ambari_stack_version}""
export java_provider=""${java_provider}""
export java_version=""${java_version}""
export install_ambari_agent=""${install_ambari_agent}""
export install_ambari_server=""${install_ambari_server}""
export ref_wait_ambari=""${ref_wait_ambari}""
export ambari_services=""${ambari_services}""
export post_command=""${post_command}""
export ambari_pass=""${ambari_pass}""
export deploy=""${deploy}""
export ref_additional_instance_count=""${ref_additional_instance_count}""
EOF
chmod 600 ~/masterclass.env

## Remove existing mount points
if [ -e '/dev/xvdb' ]; then
    sed '/^\/dev\/xvd[b-z]/d' -i /etc/fstab

    ## Format ephemeral drives and create mounts
    i=0
    for disk in /dev/xvd[b-z]; do
        mount=/grid/$(printf ""%0*d
"" 2 $i)
        umount ${disk} || true
        mkdir -p ${mount}
        echo ""${disk} ${mount} ext4 defaults,noatime,nodiratime 0 0"" >> /etc/fstab
        nohup mkfs.ext4 -m 0 -T largefile4 ${disk} &
        i=$((i+1))
    done
    wait

    for disk in /dev/xvd[b-z]; do
        tune2fs -c0 -i0 ${disk}
        mount ${disk}
    done
fi

export host_count=$((ref_additional_instance_count + 1))
echo ${post_command}
sh -c ""${post_command}""

if [ ""${resource}"" = ""AmbariNode"" ]; then
    echo ${ref_wait_ambari}
    cfn-signal -e ${?} --region ${region} --stack ${stack} -r ""Ambari tasks are done"" ${ref_wait_ambari}
fi

"

  /**
   * The shell variables that the body's env-file heredoc expands
   * (`${region}` ... `${ref_additional_instance_count}`), in the order it
   * reads them; `stack` is read twice, once for `cluster_name`.
   */
  const EnvFileReads: seq<string> := [
    "region", "stack", "stack", "resource", "ambari_server", "ambari_version",
    "ambari_stack_version", "java_provider", "java_version", "install_ambari_agent",
    "install_ambari_server", "ref_wait_ambari", "ambari_services", "post_command",
    "ambari_pass", "deploy", "ref_additional_instance_count"
  ]

  /** The four arguments of `my_bootstrap_script`: what a role chooses. */
  datatype Role = Role(resource: string, installAmbariAgent: string, installAmbariServer: string, ambariServer: Piece)

  /** The Ambari server node: it installs the server and reaches it on loopback. */
  const Coordinator: Role := Role("AmbariNode", "true", "true", Lit("127.0.0.1"))

  /** The worker pool: agent only, pointed at the server's private DNS name, known only once it exists. */
  const Worker: Role := Role("AdditionalNodes", "true", "false", GetAtt("AmbariNode", "PrivateDnsName"))

  /** `export <name>=<quote><value><quote>` and a newline, as three list elements. */
  datatype Export = Export(name: string, quote: string, value: Piece)

  function ExportPieces(e: Export): seq<Piece>
  {
    [Lit("export " + e.name + "=" + e.quote), e.value, Lit(e.quote + "\n")]
  }

  function ExportsPieces(es: seq<Export>): (r: seq<Piece>)
    ensures |r| == 3 * |es|
  {
    if es == [] then [] else ExportPieces(es[0]) + ExportsPieces(es[1..])
  }

  /**
   * The four header elements of `exports`. The `exec` line and
   * `set -o nounset` form ONE element: a comma is missing between them and
   * Python joins the two adjacent string literals.
   */
  const PreambleLines: seq<string> := [
    "#!/usr/bin/env bash\n",
    "exec > >(tee /root/cloudformation.log|logger -t user-data -s 2>/dev/console) 2>&1\n" + "set -o nounset\n",
    "set -o errexit\n",
    "set -o xtrace\n"
  ]

  function Preamble(): seq<Piece>
  {
    Lits(PreambleLines)
  }

  /** The assignments of `exports`, in order; `'` quotes the value where the source does. */
  function Exports(role: Role): seq<Export>
  {
    [ Export("region", "'", Ref("AWS::Region")),
      Export("stack", "'", Ref("AWS::StackName")),
      Export("resource", "'", Lit(role.resource)),
      Export("ambari_server", "'", role.ambariServer),
      Export("ambari_version", "'", Ref("AmbariVersion")),
      Export("ambari_stack_version", "'", Ref("HDPStack")),
      Export("java_provider", "", Ref("JavaProvider")),
      Export("java_version", "", Ref("JavaVersion")),
      Export("install_ambari_agent", "", Lit(role.installAmbariAgent)),
      Export("install_ambari_server", "", Lit(role.installAmbariServer)),
      Export("ref_wait_ambari", "'", Ref("waitHandleAmbari")),
      Export("ambari_services", "'", Ref("AmbariServices")),
      Export("post_command", "'", Ref("PostCommand")),
      Export("ambari_pass", "", Ref("AmbariPass")),
      Export("deploy", "", Ref("DeployCluster")),
      Export("ref_additional_instance_count", "", Ref("AdditionalInstanceCount"))
    ]
  }

  /** The list `exports`. */
  function ExportPrefix(role: Role): seq<Piece>
  {
    Preamble() + ExportsPieces(Exports(role))
  }

  /** The body's lines with their endings kept (`splitlines(True)`), as literal pieces. */
  function BodyPieces(body: string): seq<Piece>
  {
    Lits(SplitLinesKeepEnds(body))
  }

  /**
   * `my_bootstrap_script(...)`: the exports, then the body's lines. The body
   * is the module-level `bootstrap_script_body` (`BootstrapBody`) at every
   * call; it is a parameter here so that the facts below are stated, and
   * hold, for any body text.
   */
  function BootstrapScript(role: Role, body: string): seq<Piece>
  {
    ExportPrefix(role) + BodyPieces(body)
  }

  function Names(es: seq<Export>): (r: seq<string>)
    ensures |r| == |es|
    ensures forall i :: 0 <= i < |es| ==> r[i] == es[i].name
  {
    if es == [] then [] else [es[0].name] + Names(es[1..])
  }

  function Values(es: seq<Export>): (r: seq<Piece>)
    ensures |r| == |es|
    ensures forall i :: 0 <= i < |es| ==> r[i] == es[i].value
  {
    if es == [] then [] else [es[0].value] + Values(es[1..])
  }

  /** The line an export contributes to the deployed script. */
  function ExportLine(e: Export, env: Env): string
  {
    "export " + e.name + "=" + e.quote + Resolve(e.value, env) + e.quote + "\n"
  }

  function ExportLines(es: seq<Export>, env: Env): seq<string>
  {
    if es == [] then [] else [ExportLine(es[0], env)] + ExportLines(es[1..], env)
  }

  /** The sixteen variables the prefix exports, in order. */
  const ExportOrder: seq<string> := [
    "region", "stack", "resource", "ambari_server", "ambari_version",
    "ambari_stack_version", "java_provider", "java_version", "install_ambari_agent",
    "install_ambari_server", "ref_wait_ambari", "ambari_services", "post_command",
    "ambari_pass", "deploy", "ref_additional_instance_count"
  ]

  /** The variables whose values a role chooses. */
  const RoleVariables: set<string> := {"resource", "ambari_server", "install_ambari_agent", "install_ambari_server"}

  predicate Distinct<T(==)>(s: seq<T>)
  {
    forall i, j :: 0 <= i < j < |s| ==> s[i] != s[j]
  }

  // ---------------------------------------------------------------------
  // The exports.

  lemma {:induction false} ExportsPiecesAt(es: seq<Export>, k: nat)
    requires k < |es|
    ensures ExportsPieces(es)[3 * k] == Lit("export " + es[k].name + "=" + es[k].quote)
    ensures ExportsPieces(es)[3 * k + 1] == es[k].value
    ensures ExportsPieces(es)[3 * k + 2] == Lit(es[k].quote + "\n")
  {
    if k > 0 {
      ExportsPiecesAt(es[1..], k - 1);
    }
  }

  lemma ExportOrderDistinct()
    ensures Distinct(ExportOrder)
  {
  }

  /** Every one of the sixteen variables is exported exactly once, in a fixed order. */
  lemma ExportedOnceInOrder(role: Role)
    ensures Names(Exports(role)) == ExportOrder
    ensures Distinct(Names(Exports(role)))
  {
    var ns := Names(Exports(role));
    assert ns == ExportOrder by {
      forall i | 0 <= i < 16
        ensures ns[i] == ExportOrder[i]
      {
      }
    }
    ExportOrderDistinct();
  }

  /**
   * Every variable the body's env-file heredoc reads has been exported
   * before the body runs, so `set -o nounset` never trips on it.
   */
  lemma EnvFileReadsExported(role: Role)
    ensures forall n :: n in EnvFileReads ==> n in Names(Exports(role))
  {
    ExportedOnceInOrder(role);
  }

  lemma RenderTriple(a: string, v: Piece, c: string, env: Env)
    ensures Render([Lit(a), v, Lit(c)], env) == a + Resolve(v, env) + c
    ensures Deferred([Lit(a), v, Lit(c)]) == Deferred([v])
  {
    var ps := [Lit(a), v, Lit(c)];
    assert ps[1..] == [v, Lit(c)] && ps[1..][1..] == [Lit(c)] && ps[1..][1..][1..] == [];
    assert Render([Lit(c)], env) == c + "";
    assert Render(ps[1..], env) == Resolve(v, env) + (c + "");
    assert [v][1..] == [];
    assert Deferred([Lit(c)]) == [];
  }

  /** Deployed, a list of export triples becomes the concatenation of their lines. */
  lemma {:induction false} RenderExports(es: seq<Export>, env: Env)
    ensures Render(ExportsPieces(es), env) == Concat(ExportLines(es, env))
  {
    if es != [] {
      var e := es[0];
      var ps := ExportPieces(e);
      RenderAppend(ps, ExportsPieces(es[1..]), env);
      RenderExports(es[1..], env);
      RenderTriple("export " + e.name + "=" + e.quote, e.value, e.quote + "\n", env);
      var r := Resolve(e.value, env);
      assert ("export " + e.name + "=" + e.quote) + r + (e.quote + "\n")
          == "export " + e.name + "=" + e.quote + r + e.quote + "\n";
    }
  }

  /** Only the values of the exports can be deferred. */
  lemma {:induction false} DeferredExports(es: seq<Export>)
    ensures Deferred(ExportsPieces(es)) == Deferred(Values(es))
  {
    if es != [] {
      var ps := ExportPieces(es[0]);
      DeferredAppend(ps, ExportsPieces(es[1..]));
      DeferredExports(es[1..]);
      RenderTriple("export " + es[0].name + "=" + es[0].quote, es[0].value, es[0].quote + "\n", Env(x => x, (x, y) => x));
      assert Values(es) == [es[0].value] + Values(es[1..]);
      DeferredAppend([es[0].value], Values(es[1..]));
    }
  }

  /**
   * The exports of two roles agree in names, quotes and order, and in the
   * value of every variable except the four a role chooses.
   */
  lemma RoleExportsShape(r1: Role, r2: Role)
    ensures |Exports(r1)| == |Exports(r2)| == 16
    ensures forall k :: 0 <= k < 16 ==> Exports(r1)[k].name == Exports(r2)[k].name && Exports(r1)[k].quote == Exports(r2)[k].quote
    ensures forall k :: 0 <= k < 16 && Exports(r1)[k].name !in RoleVariables ==> Exports(r1)[k].value == Exports(r2)[k].value
    ensures Exports(r1)[2] == Export("resource", "'", Lit(r1.resource))
    ensures Exports(r1)[3] == Export("ambari_server", "'", r1.ambariServer)
    ensures Exports(r1)[8] == Export("install_ambari_agent", "", Lit(r1.installAmbariAgent))
    ensures Exports(r1)[9] == Export("install_ambari_server", "", Lit(r1.installAmbariServer))
  {
  }

  // ---------------------------------------------------------------------
  // The script.

  /**
   * The deployed script is the header, one line per export (its value
   * resolved in `env`), then the body unchanged: keeping the line ends makes
   * the split invisible once the pieces are joined. Its deferred pieces are
   * exactly the deferred export values, in order: nothing deferred becomes a
   * literal and the body adds none.
   */
  lemma ScriptText(role: Role, body: string, env: Env)
    ensures Render(BootstrapScript(role, body), env)
         == Concat(PreambleLines) + Concat(ExportLines(Exports(role), env)) + body
    ensures Deferred(BootstrapScript(role, body)) == Deferred(Values(Exports(role)))
  {
    var x := ExportsPieces(Exports(role));
    var bs := BodyPieces(body);
    RenderAppend(Preamble() + x, bs, env);
    RenderAppend(Preamble(), x, env);
    RenderExports(Exports(role), env);
    DeferredAppend(Preamble() + x, bs);
    DeferredAppend(Preamble(), x);
    DeferredExports(Exports(role));
    BodyPiecesRender(body, env);
    RenderLits(PreambleLines, env);
  }

  /**
   * Two scripts have the same shape: after the same 52-piece prefix layout,
   * the body part is the same for every role, and (`RoleExportsShape`) the
   * prefixes differ only in the values of the four role variables.
   */
  lemma BodySameForEveryRole(r1: Role, r2: Role, body: string)
    ensures |ExportPrefix(r1)| == |ExportPrefix(r2)| == 52
    ensures BootstrapScript(r1, body)[52..] == BootstrapScript(r2, body)[52..] == BodyPieces(body)
  {
    RoleExportsShape(r1, r2);
  }

  /**
   * Two export lists show export `k` alike where the two exports agree: the
   * text around the value when names and quotes agree, and the value piece
   * when the values do.
   */
  lemma ExportsPiecesAgree(es1: seq<Export>, es2: seq<Export>, k: nat)
    requires |es1| == |es2| && k < |es1|
    requires es1[k].name == es2[k].name && es1[k].quote == es2[k].quote
    ensures ExportsPieces(es1)[3 * k] == ExportsPieces(es2)[3 * k]
    ensures ExportsPieces(es1)[3 * k + 2] == ExportsPieces(es2)[3 * k + 2]
    ensures es1[k].value == es2[k].value ==> ExportsPieces(es1)[3 * k + 1] == ExportsPieces(es2)[3 * k + 1]
  {
    ExportsPiecesAt(es1, k);
    ExportsPiecesAt(es2, k);
  }

  /**
   * A piece that is not literal text and that only export `k0` has as its
   * value stands in the export pieces only as that value, at 3k0 + 1.
   */
  lemma ExportsPiecesOnlyValue(es: seq<Export>, p: Piece, k0: nat)
    requires !p.Lit? && k0 < |es| && es[k0].value == p
    requires forall k :: 0 <= k < |es| && es[k].value == p ==> k == k0
    ensures ExportsPieces(es)[3 * k0 + 1] == p
    ensures forall i :: 0 <= i < |ExportsPieces(es)| && ExportsPieces(es)[i] == p ==> i == 3 * k0 + 1
  {
    ExportsPiecesAt(es, k0);
    forall i | 0 <= i < |ExportsPieces(es)| && ExportsPieces(es)[i] == p
      ensures i == 3 * k0 + 1
    {
      var k, j := i / 3, i % 3;
      assert i == 3 * k + j;
      ExportsPiecesAt(es, k);
    }
  }

  /** The positions of the four role variables among the sixteen exports. */
  lemma RoleVariablePositions()
    ensures forall k :: 0 <= k < 16 && ExportOrder[k] in RoleVariables ==> k == 2 || k == 3 || k == 8 || k == 9
  {
  }

  /** The export pieces of two roles differ only at the values of the four role variables: pieces 7, 10, 25 and 28. */
  lemma ExportPiecesDifferAtRoleValues(r1: Role, r2: Role)
    ensures |ExportsPieces(Exports(r1))| == |ExportsPieces(Exports(r2))| == 48
    ensures forall n :: 0 <= n < 48 && n !in {7, 10, 25, 28} ==> ExportsPieces(Exports(r1))[n] == ExportsPieces(Exports(r2))[n]
  {
    var e1, e2 := Exports(r1), Exports(r2);
    RoleExportsShape(r1, r2);
    ExportedOnceInOrder(r1);
    RoleVariablePositions();
    forall n | 0 <= n < 48 && n !in {7, 10, 25, 28}
      ensures ExportsPieces(e1)[n] == ExportsPieces(e2)[n]
    {
      var k := n / 3;
      assert n == 3 * k || n == 3 * k + 1 || n == 3 * k + 2;
      assert e1[k].name == ExportOrder[k];
      ExportsPiecesAgree(e1, e2, k);
    }
  }

  /** The scripts of two roles agree, before the body, everywhere but at pieces 11, 14, 29 and 32. */
  lemma PrefixesDifferAtRoleValues(r1: Role, r2: Role, body: string)
    ensures |BootstrapScript(r1, body)| >= 52 && |BootstrapScript(r2, body)| >= 52
    ensures forall i :: 0 <= i < 52 && i !in {11, 14, 29, 32} ==> BootstrapScript(r1, body)[i] == BootstrapScript(r2, body)[i]
  {
    var x1, x2 := ExportsPieces(Exports(r1)), ExportsPieces(Exports(r2));
    var s1, s2 := BootstrapScript(r1, body), BootstrapScript(r2, body);
    ExportPiecesDifferAtRoleValues(r1, r2);
    assert s1 == Preamble() + x1 + BodyPieces(body);
    assert s2 == Preamble() + x2 + BodyPieces(body);
    forall i | 0 <= i < 52 && i !in {11, 14, 29, 32}
      ensures s1[i] == s2[i]
    {
      if i < 4 {
        assert s1[i] == Preamble()[i] == s2[i];
      } else {
        assert s1[i] == x1[i - 4] && s2[i] == x2[i - 4];
      }
    }
  }

  /**
   * Those four pieces carry what the role chooses: `resource`,
   * `ambari_server`, `install_ambari_agent` and `install_ambari_server`.
   */
  lemma RoleValuesInScript(r: Role, body: string)
    ensures |BootstrapScript(r, body)| >= 52
    ensures BootstrapScript(r, body)[11] == Lit(r.resource) && BootstrapScript(r, body)[14] == r.ambariServer
    ensures BootstrapScript(r, body)[29] == Lit(r.installAmbariAgent) && BootstrapScript(r, body)[32] == Lit(r.installAmbariServer)
  {
    var e := Exports(r);
    var x := ExportsPieces(e);
    assert |x| == 48;
    assert BootstrapScript(r, body) == Preamble() + x + BodyPieces(body);
    ExportsPiecesAt(e, 2);
    ExportsPiecesAt(e, 3);
    ExportsPiecesAt(e, 8);
    ExportsPiecesAt(e, 9);
  }

  /** Of the values a role exports, only `ambari_pass`'s is the password, unless the role's own server address is. */
  lemma PasswordExportedOnce(role: Role)
    requires role.ambariServer != Ref("AmbariPass")
    ensures Exports(role)[13] == Export("ambari_pass", "", Ref("AmbariPass"))
    ensures forall k :: 0 <= k < |Exports(role)| && Exports(role)[k].value == Ref("AmbariPass") ==> k == 13
  {
    ValuesOfExports(role);
  }

  /** Between literal text, a non-literal piece stands only where it stands in the middle part. */
  lemma OnlyInMiddle(pre: seq<Piece>, x: seq<Piece>, post: seq<Piece>, p: Piece, at: nat)
    requires !p.Lit?
    requires forall i :: 0 <= i < |pre| ==> pre[i].Lit?
    requires forall i :: 0 <= i < |post| ==> post[i].Lit?
    requires forall i :: 0 <= i < |x| && x[i] == p ==> i == at
    ensures forall i :: 0 <= i < |pre + x + post| && (pre + x + post)[i] == p ==> i == |pre| + at
  {
    var s := pre + x + post;
    forall i | 0 <= i < |s| && s[i] == p
      ensures i == |pre| + at
    {
      if |pre| <= i < |pre| + |x| {
        assert s[i] == x[i - |pre|];
      } else {
        // `pre` and `post` are literal text.
        assert false;
      }
    }
  }

  /** The text that opens the `ambari_pass` export. */
  lemma AmbariPassOpening()
    ensures "export " + "ambari_pass" + "=" + "" == "export ambari_pass="
  {
  }

  /**
   * A script holds the password as exactly one piece, the value of its
   * `ambari_pass` export: piece 44, right after the literal
   * `export ambari_pass=`. The header and the body are literal text.
   */
  lemma PasswordPieceInScript(role: Role, body: string)
    requires role.ambariServer != Ref("AmbariPass")
    ensures |BootstrapScript(role, body)| > 44
    ensures BootstrapScript(role, body)[43] == Lit("export ambari_pass=")
    ensures BootstrapScript(role, body)[44] == Ref("AmbariPass")
    ensures forall i :: 0 <= i < |BootstrapScript(role, body)| && BootstrapScript(role, body)[i] == Ref("AmbariPass") ==> i == 44
  {
    var es := Exports(role);
    var x := ExportsPieces(es);
    assert |x| == 48;
    assert BootstrapScript(role, body) == Preamble() + x + BodyPieces(body);
    PasswordExportedOnce(role);
    ExportsPiecesAt(es, 13);
    AmbariPassOpening();
    ExportsPiecesOnlyValue(es, Ref("AmbariPass"), 13);
    OnlyInMiddle(Preamble(), x, BodyPieces(body), Ref("AmbariPass"), 40);
  }

  /** The pseudo-parameters the prefix exports first. */
  const StackRefs: seq<Piece> := [Ref("AWS::Region"), Ref("AWS::StackName")]

  /** The software parameters, exported between the role's address and its flags. */
  const SoftwareRefs: seq<Piece> := [Ref("AmbariVersion"), Ref("HDPStack"), Ref("JavaProvider"), Ref("JavaVersion")]

  /** The wait handle and the cluster parameters, exported last. */
  const ClusterRefs: seq<Piece> := [
    Ref("waitHandleAmbari"), Ref("AmbariServices"), Ref("PostCommand"), Ref("AmbariPass"),
    Ref("DeployCluster"), Ref("AdditionalInstanceCount")]

  /** The values a role exports, in order. */
  lemma ValuesOfExports(r: Role)
    ensures Values(Exports(r)) == [
      Ref("AWS::Region"), Ref("AWS::StackName"), Lit(r.resource), r.ambariServer,
      Ref("AmbariVersion"), Ref("HDPStack"), Ref("JavaProvider"), Ref("JavaVersion"),
      Lit(r.installAmbariAgent), Lit(r.installAmbariServer),
      Ref("waitHandleAmbari"), Ref("AmbariServices"), Ref("PostCommand"), Ref("AmbariPass"),
      Ref("DeployCluster"), Ref("AdditionalInstanceCount")]
  {
  }

  /** The same values split around the four a role chooses: its name and address, and its two flags. */
  lemma ExportValueParts(r: Role)
    ensures [
      Ref("AWS::Region"), Ref("AWS::StackName"), Lit(r.resource), r.ambariServer,
      Ref("AmbariVersion"), Ref("HDPStack"), Ref("JavaProvider"), Ref("JavaVersion"),
      Lit(r.installAmbariAgent), Lit(r.installAmbariServer),
      Ref("waitHandleAmbari"), Ref("AmbariServices"), Ref("PostCommand"), Ref("AmbariPass"),
      Ref("DeployCluster"), Ref("AdditionalInstanceCount")] ==
      StackRefs + [Lit(r.resource), r.ambariServer] + SoftwareRefs +
      [Lit(r.installAmbariAgent), Lit(r.installAmbariServer)] + ClusterRefs
  {
  }

  /** The fixed values are all references, deferred to deployment. */
  lemma ReferencesDeferred()
    ensures Deferred(StackRefs) == StackRefs
    ensures Deferred(SoftwareRefs) == SoftwareRefs
    ensures Deferred(ClusterRefs) == ClusterRefs
  {
    DeferredOnly(StackRefs);
    DeferredOnly(SoftwareRefs);
    DeferredOnly(ClusterRefs);
  }

  /** Of the values a role exports, only its literal name and flags are not deferred. */
  lemma DeferredAroundRole(r: Role)
    ensures Deferred(StackRefs + [Lit(r.resource), r.ambariServer] + SoftwareRefs +
                     [Lit(r.installAmbariAgent), Lit(r.installAmbariServer)] + ClusterRefs) ==
      StackRefs + Deferred([r.ambariServer]) + SoftwareRefs + ClusterRefs
  {
    var b := [Lit(r.resource), r.ambariServer];
    var l := [Lit(r.installAmbariAgent), Lit(r.installAmbariServer)];
    DeferredAppend(StackRefs + b + SoftwareRefs + l, ClusterRefs);
    DeferredAppend(StackRefs + b + SoftwareRefs, l);
    DeferredAppend(StackRefs + b, SoftwareRefs);
    DeferredAppend(StackRefs, b);
    DeferredAppend([Lit(r.resource)], [r.ambariServer]);
    DeferredNone([Lit(r.resource)]);
    DeferredNone(l);
    ReferencesDeferred();
  }

  /**
   * The deferred export values of a role: the region, the stack name, the
   * server address when it is deferred, then ten parameter and resource
   * references, in that order.
   */
  lemma DeferredValues(r: Role)
    ensures Deferred(Values(Exports(r))) == StackRefs + Deferred([r.ambariServer]) + SoftwareRefs + ClusterRefs
  {
    ValuesOfExports(r);
    ExportValueParts(r);
    DeferredAroundRole(r);
  }

  /** The deferred pieces of a role's script are those of the values it exports. */
  lemma ScriptDeferred(r: Role, body: string)
    ensures Deferred(BootstrapScript(r, body)) == StackRefs + Deferred([r.ambariServer]) + SoftwareRefs + ClusterRefs
  {
    ScriptText(r, body, Env(x => x, (x, y) => x));
    DeferredValues(r);
  }

  /**
   * A deferred server address (the worker's `GetAtt(AmbariNode,
   * PrivateDnsName)`) stays deferred in the script, right after the region
   * and stack name; a literal one (the coordinator's loopback address) adds
   * no deferred piece, and then every deferred piece is a `Ref`.
   */
  lemma ServerAddressDeferred(r: Role, body: string)
    ensures r.ambariServer.IsDeferred() ==>
      |Deferred(BootstrapScript(r, body))| == 13 && Deferred(BootstrapScript(r, body))[2] == r.ambariServer
    ensures !r.ambariServer.IsDeferred() ==>
      |Deferred(BootstrapScript(r, body))| == 12 && forall p :: p in Deferred(BootstrapScript(r, body)) ==> p.Ref?
  {
    var d := Deferred(BootstrapScript(r, body));
    ScriptDeferred(r, body);
    if r.ambariServer.IsDeferred() {
      assert Deferred([r.ambariServer]) == [r.ambariServer];
    } else {
      assert Deferred([r.ambariServer]) == [];
      assert d == StackRefs + SoftwareRefs + ClusterRefs;
      assert forall p :: p in StackRefs ==> p.Ref?;
      assert forall p :: p in SoftwareRefs ==> p.Ref?;
      assert forall p :: p in ClusterRefs ==> p.Ref?;
    }
  }
}
