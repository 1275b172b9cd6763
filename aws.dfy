/**
 * middleware/detectors/aws.py: classifying the AWS environment. Three checks
 * look at environment variables; two probe instance-metadata endpoints over
 * HTTP, and the outcome of each probe is an input here.
 */
module Aws {
  import opened Environment

  /** What `requests.get(url, timeout=2)` produced. */
  datatype Probe = Responded(status: int) | RequestFailed

  /** The two metadata endpoints that may be probed. */
  datatype Endpoint =
    | EcsMetadata   // http://169.254.170.2/v2/metadata
    | Ec2Metadata   // http://169.254.169.254/latest/meta-data/

  /** A probe succeeds only on status 200; a raised `RequestException` counts as failure. */
  predicate Reachable(p: Probe) {
    p.Responded? && p.status == 200
  }

  predicate OnLambda(env: Environ) { "AWS_EXECUTION_ENV" in env }

  predicate OnBeanstalk(env: Environ) { "AWS_ELASTIC_BEANSTALK" in env }

  predicate OnEks(env: Environ) { "KUBERNETES_SERVICE_HOST" in env }

  /** The environment codes in the order the checks are tried. */
  const Priority: seq<string> := ["LF", "BS", "ECS", "EKS", "EC2"]

  /** The `i`-th check of the priority chain. */
  predicate Check(i: nat, env: Environ, ecs: Probe, ec2: Probe)
    requires i < 5
  {
    match i
    case 0 => OnLambda(env)
    case 1 => OnBeanstalk(env)
    case 2 => Reachable(ecs)
    case 3 => OnEks(env)
    case _ => Reachable(ec2)
  }

  /** The code returned, and the endpoints probed on the way, in probe order. */
  datatype Detection = Detection(code: string, probed: seq<Endpoint>)

  /** `get_aws_environment`: the code of the first check that holds, or "NA". */
  function GetAwsEnvironment(env: Environ, ecs: Probe, ec2: Probe): (r: Detection)
    ensures r.code in Priority + ["NA"]
    ensures forall i :: 0 <= i < 5 ==>
      (r.code == Priority[i] <==> Check(i, env, ecs, ec2) && forall j :: 0 <= j < i ==> !Check(j, env, ecs, ec2))
    ensures r.code == "NA" <==> forall i :: 0 <= i < 5 ==> !Check(i, env, ecs, ec2)
    ensures (EcsMetadata in r.probed) <==> !Check(0, env, ecs, ec2) && !Check(1, env, ecs, ec2)
    ensures (Ec2Metadata in r.probed) <==> forall j :: 0 <= j < 4 ==> !Check(j, env, ecs, ec2)
  {
    assert "ECS"[2] != "EC2"[2] && "EKS"[1] != "EC2"[1] && "ECS"[1] != "EKS"[1];
    assert Check(0, env, ecs, ec2) == OnLambda(env) && Check(1, env, ecs, ec2) == OnBeanstalk(env);
    assert Check(2, env, ecs, ec2) == Reachable(ecs) && Check(3, env, ecs, ec2) == OnEks(env);
    assert Check(4, env, ecs, ec2) == Reachable(ec2);
    if OnLambda(env) then Detection("LF", [])
    else if OnBeanstalk(env) then Detection("BS", [])
    else if Reachable(ecs) then Detection("ECS", [EcsMetadata])
    else if OnEks(env) then Detection("EKS", [EcsMetadata])
    else if Reachable(ec2) then Detection("EC2", [EcsMetadata, Ec2Metadata])
    else Detection("NA", [EcsMetadata, Ec2Metadata])
  }

  /** The three variable-based checks read nothing but whether their variable is set. */
  lemma EnvChecksOnlyPresence(env1: Environ, env2: Environ, ecs: Probe, ec2: Probe)
    requires forall k :: k in ["AWS_EXECUTION_ENV", "AWS_ELASTIC_BEANSTALK", "KUBERNETES_SERVICE_HOST"] ==> (k in env1 <==> k in env2)
    ensures GetAwsEnvironment(env1, ecs, ec2) == GetAwsEnvironment(env2, ecs, ec2)
  {
    assert "AWS_EXECUTION_ENV" in ["AWS_EXECUTION_ENV", "AWS_ELASTIC_BEANSTALK", "KUBERNETES_SERVICE_HOST"];
    assert "AWS_ELASTIC_BEANSTALK" in ["AWS_EXECUTION_ENV", "AWS_ELASTIC_BEANSTALK", "KUBERNETES_SERVICE_HOST"];
    assert "KUBERNETES_SERVICE_HOST" in ["AWS_EXECUTION_ENV", "AWS_ELASTIC_BEANSTALK", "KUBERNETES_SERVICE_HOST"];
  }
}
