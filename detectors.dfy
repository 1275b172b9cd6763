/**
 * middleware/detectors/detector.py: the `Detector` enumeration, the parsing of
 * a detector selection (a comma-separated string or a list of members) into a
 * duplicate-free list, and the mapping of members to resource-detector kinds.
 *
 * Python turns a `set` into a list in an unspecified order; the model returns
 * the elements in one fixed order and its contracts state only what holds for
 * every order.
 */
module Detectors {
  import opened Wrappers
  import opened Strings

  /** The members of `Detector`, in declaration order. */
  datatype Detector =
    | EnvVars | AwsLambda | AwsBeanstalk | AwsEcs | AwsEks | AwsEc2
    | AzureVm | AzureAppService | AzureFunctions | Gcp

  /** The member's Python name, which `Detector[...]` looks up. */
  function Name(d: Detector): string {
    match d
    case EnvVars => "ENVVARS"
    case AwsLambda => "AWS_LAMBDA"
    case AwsBeanstalk => "AWS_BEANSTALK"
    case AwsEcs => "AWS_ECS"
    case AwsEks => "AWS_EKS"
    case AwsEc2 => "AWS_EC2"
    case AzureVm => "AZURE_VM"
    case AzureAppService => "AZURE_APP_SERVICE"
    case AzureFunctions => "AZURE_FUNCTIONS"
    case Gcp => "GCP"
  }

  /** The member's value string. */
  function Value(d: Detector): string {
    match d
    case EnvVars => "envvars"
    case AwsLambda => "aws_lambda"
    case AwsBeanstalk => "aws_beanstalk"
    case AwsEcs => "aws_ecs"
    case AwsEks => "aws_eks"
    case AwsEc2 => "aws_ec2"
    case AzureVm => "azure_vm"
    case AzureAppService => "azure_app_service"
    case AzureFunctions => "azure_functions"
    case Gcp => "gcp"
  }

  /** `Detector[name]`, with None for the KeyError of an unknown name. */
  function FromName(name: string): (r: Option<Detector>)
    ensures r.Some? ==> Name(r.value) == name
    ensures r.None? ==> forall d :: Name(d) != name
  {
    if name == "ENVVARS" then Some(EnvVars)
    else if name == "AWS_LAMBDA" then Some(AwsLambda)
    else if name == "AWS_BEANSTALK" then Some(AwsBeanstalk)
    else if name == "AWS_ECS" then Some(AwsEcs)
    else if name == "AWS_EKS" then Some(AwsEks)
    else if name == "AWS_EC2" then Some(AwsEc2)
    else if name == "AZURE_VM" then Some(AzureVm)
    else if name == "AZURE_APP_SERVICE" then Some(AzureAppService)
    else if name == "AZURE_FUNCTIONS" then Some(AzureFunctions)
    else if name == "GCP" then Some(Gcp)
    else None
  }

  /** Upper-casing a member's value gives its name, so "aws_lambda" selects AWS_LAMBDA. */
  lemma ValueSelectsMember(d: Detector)
    ensures FromName(Upper(Value(d))) == Some(d)
  {
    match d
    case EnvVars => UpperOfValue("envvars", "ENVVARS");
    case AwsLambda => UpperOfValue("aws_lambda", "AWS_LAMBDA");
    case AwsBeanstalk => UpperOfValue("aws_beanstalk", "AWS_BEANSTALK");
    case AwsEcs => UpperOfValue("aws_ecs", "AWS_ECS");
    case AwsEks => UpperOfValue("aws_eks", "AWS_EKS");
    case AwsEc2 => UpperOfValue("aws_ec2", "AWS_EC2");
    case AzureVm => UpperOfValue("azure_vm", "AZURE_VM");
    case AzureAppService => UpperOfValue("azure_app_service", "AZURE_APP_SERVICE");
    case AzureFunctions => UpperOfValue("azure_functions", "AZURE_FUNCTIONS");
    case Gcp => UpperOfValue("gcp", "GCP");
  }

  /** Upper-casing a lower-case spelling gives the upper-case one. */
  lemma UpperOfValue(v: string, n: string)
    requires |v| == |n| && forall i :: 0 <= i < |v| ==> UpperChar(v[i]) == n[i]
    ensures Upper(v) == n
  {
  }

  /** An element of a Python list handed to `process_detector_input`. */
  datatype ListItem = Member(detector: Detector) | Foreign

  /** What `process_detector_input` may be given. */
  datatype DetectorInput =
    | Names(text: string)          // a str such as "aws_lambda, gcp"
    | Items(items: seq<ListItem>)  // a list
    | OtherValue                   // any other object

  datatype InputError = ValueError | TypeError

  /** The member one comma-separated item selects: stripped, upper-cased, looked up by name. */
  function ItemDetector(item: string): Option<Detector> {
    FromName(Upper(Strip(item)))
  }

  /** What a sequence of items selects under `pick`; items it rejects contribute nothing. */
  function Chosen<T>(items: seq<string>, pick: string -> Option<T>): set<T>
    decreases |items|
  {
    if items == [] then {}
    else
      var last := match pick(items[|items| - 1])
        case Some(x) => {x}
        case None => {};
      Chosen(items[..|items| - 1], pick) + last
  }

  /** Something is chosen exactly when some item picks it. */
  lemma {:induction false} ChosenMembers<T>(items: seq<string>, pick: string -> Option<T>, x: T)
    ensures x in Chosen(items, pick) <==> exists i :: 0 <= i < |items| && pick(items[i]) == Some(x)
    decreases |items|
  {
    if items != [] {
      var init := items[..|items| - 1];
      ChosenMembers(init, pick, x);
      if exists i :: 0 <= i < |items| && pick(items[i]) == Some(x) {
        var i :| 0 <= i < |items| && pick(items[i]) == Some(x);
        if i < |init| {
          assert init[i] == items[i];
        }
      }
      if exists i :: 0 <= i < |init| && pick(init[i]) == Some(x) {
        var i :| 0 <= i < |init| && pick(init[i]) == Some(x);
        assert items[i] == init[i];
      }
    }
  }

  /** The members the items of a split string select. */
  function NamedSet(items: seq<string>): set<Detector> {
    Chosen(items, ItemDetector)
  }

  /** A member is selected exactly when some item names it. */
  lemma NamedSetMembers(items: seq<string>, d: Detector)
    ensures d in NamedSet(items) <==> exists i :: 0 <= i < |items| && ItemDetector(items[i]) == Some(d)
  {
    ChosenMembers(items, ItemDetector, d);
  }

  predicate AllMembers(items: seq<ListItem>) {
    forall i :: 0 <= i < |items| ==> items[i].Member?
  }

  /** The members a list holds. */
  function ListedSet(items: seq<ListItem>): set<Detector> {
    set i | 0 <= i < |items| && items[i].Member? :: items[i].detector
  }

  /** What `process_detector_input` computes, as a set: the members selected, or the error raised. */
  function Resolve(input: DetectorInput): (r: Result<set<Detector>, InputError>)
    ensures r.Err? <==> input.OtherValue? || (input.Items? && exists i :: 0 <= i < |input.items| && input.items[i] == Foreign)
    ensures r.Err? ==> (r.error == ValueError <==> input.Items?)
    ensures input.Items? && r.Ok? ==>
      forall d :: d in r.value <==> exists i :: 0 <= i < |input.items| && input.items[i] == Member(d)
  {
    match input
    case Names(text) => Ok(NamedSet(Split(text, ',')))
    case Items(items) => if AllMembers(items) then Ok(ListedSet(items)) else Err(ValueError)
    case OtherValue => Err(TypeError)
  }

  predicate Distinct<T(==)>(s: seq<T>) {
    forall i, j :: 0 <= i < j < |s| ==> s[i] != s[j]
  }

  function Elements<T>(s: seq<T>): set<T> {
    set x | x in s
  }

  /** `list(s)` for a set: its elements, each once. */
  method SetToList<T(==)>(s: set<T>) returns (r: seq<T>)
    ensures Distinct(r) && Elements(r) == s
  {
    r := [];
    var rest := s;
    while rest != {}
      invariant Distinct(r)
      invariant Elements(r) !! rest
      invariant Elements(r) + rest == s
      decreases rest
    {
      var x :| x in rest;
      r := r + [x];
      rest := rest - {x};
    }
  }

  /** The loop over the comma-separated items of a string, for any way `pick` of reading one item. */
  method Collect<T>(items: seq<string>, pick: string -> Option<T>) returns (unique: set<T>)
    ensures unique == Chosen(items, pick)
  {
    unique := {};
    var i := 0;
    while i < |items|
      invariant 0 <= i <= |items|
      invariant unique == Chosen(items[..i], pick)
    {
      assert items[..i + 1][..i] == items[..i];
      var found := pick(items[i]);
      if found.Some? {
        unique := unique + {found.value};
      }
      i := i + 1;
    }
    assert items[..i] == items;
  }

  /** `process_detector_input`: the selected members without duplicates, or the error raised. */
  method ProcessDetectorInput(input: DetectorInput) returns (r: Result<seq<Detector>, InputError>)
    ensures r.Err? <==> Resolve(input).Err?
    ensures r.Err? ==> r.error == Resolve(input).error
    ensures r.Ok? ==> Distinct(r.value) && Elements(r.value) == Resolve(input).value
  {
    var unique: set<Detector>;
    match input {
      case Names(text) =>
        unique := Collect(Split(text, ','), ItemDetector);
      case Items(items) =>
        var i := 0;
        while i < |items|
          invariant 0 <= i <= |items|
          invariant forall k :: 0 <= k < i ==> items[k].Member?
        {
          if !items[i].Member? {
            return Err(ValueError);
          }
          i := i + 1;
        }
        unique := ListedSet(items);
      case OtherValue =>
        return Err(TypeError);
    }
    var list := SetToList(unique);
    r := Ok(list);
  }

  /** The resource-detector objects `create_resource` can use. */
  datatype DetectorKind =
    | OtelResourceDetector | ProcessResourceDetector | OsResourceDetector | DockerResourceDetector
    | EnvVarsDetector | AwsLambdaResourceDetector | AwsBeanstalkResourceDetector
    | AwsEcsResourceDetector | AwsEksResourceDetector | AwsEc2ResourceDetector
    | AzureVmResourceDetector | AzureAppServiceResourceDetector | AzureFunctionsResourceDetector
    | GoogleCloudResourceDetector

  /** The detector `get_detectors` constructs for a member. */
  function KindOf(d: Detector): DetectorKind {
    match d
    case EnvVars => EnvVarsDetector
    case AwsLambda => AwsLambdaResourceDetector
    case AwsBeanstalk => AwsBeanstalkResourceDetector
    case AwsEcs => AwsEcsResourceDetector
    case AwsEks => AwsEksResourceDetector
    case AwsEc2 => AwsEc2ResourceDetector
    case AzureVm => AzureVmResourceDetector
    case AzureAppService => AzureAppServiceResourceDetector
    case AzureFunctions => AzureFunctionsResourceDetector
    case Gcp => GoogleCloudResourceDetector
  }

  /** The four detectors `create_resource` always installs. */
  predicate IsDefaultKind(k: DetectorKind) {
    k in {OtelResourceDetector, ProcessResourceDetector, OsResourceDetector, DockerResourceDetector}
  }

  /** Distinct members give distinct detector kinds, none of them a default one. */
  lemma KindOfInjective(a: Detector, b: Detector)
    ensures KindOf(a) == KindOf(b) ==> a == b
    ensures !IsDefaultKind(KindOf(a))
  {
  }

  /** The detector kinds of the members, in the members' order. */
  function KindsOf(ds: seq<Detector>): seq<DetectorKind> {
    seq(|ds|, i requires 0 <= i < |ds| => KindOf(ds[i]))
  }

  /**
   * `get_detectors`: one detector per member, nothing for None or an empty list.
   * Every iteration constructs a new detector object, so the set keeps one per
   * member even when a member repeats; `list(...)` of it has no promised order,
   * so the contract states the detectors as a multiset.
   */
  method GetDetectors(detectors: Option<seq<Detector>>) returns (r: seq<DetectorKind>)
    ensures detectors.None? ==> r == []
    ensures detectors.Some? ==> multiset(r) == multiset(KindsOf(detectors.value))
  {
    r := [];
    if detectors.Some? && |detectors.value| != 0 {
      var ds := detectors.value;
      var i := 0;
      while i < |ds|
        invariant 0 <= i <= |ds|
        invariant r == KindsOf(ds[..i])
      {
        assert KindsOf(ds[..i + 1]) == KindsOf(ds[..i]) + [KindOf(ds[i])];
        r := r + [KindOf(ds[i])];
        i := i + 1;
      }
      assert ds[..i] == ds;
    }
  }
}
