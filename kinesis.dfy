/**
 * The Kinesis helpers of common/aws/kinesis.go: building a KCL worker configuration
 * from an AWS configuration, and looking up a stream's ARN.
 */
module Kinesis {
  import opened Wrappers

  /** An `aws.CredentialsProvider`; only its identity matters here. */
  datatype Credentials = Credentials(provider: string)

  /** The parts of `aws.Config` the helpers read; `credentials` is None when the provider is nil. */
  datatype AwsConfig = AwsConfig(region: string, credentials: Option<Credentials>)

  /** The fields of a KCL `KinesisClientLibConfiguration` that the helper sets. */
  datatype KclConfig = KclConfig(
    applicationName: string,
    streamName: string,
    regionName: string,
    workerID: string,
    kinesisCredentials: Option<Credentials>,
    dynamoDBCredentials: Option<Credentials>)

  /** An error returned by the Kinesis service. */
  datatype ApiError = ApiError(message: string)

  datatype KinesisError =
    | UnsupportedMode(mode: string)  // fmt.Errorf("unsupported consumer mode %q", mode)
    | RegionRequired                 // "region is required for Kinesis worker config"
    | NilClient                      // "kinesis client is nil"
    | EmptyDescription               // "empty stream description"
    | Describe(cause: ApiError)      // an error of DescribeStream, passed through

  function Message(e: KinesisError): string
  {
    match e
    case UnsupportedMode(mode) => "unsupported consumer mode \"" + mode + "\""
    case RegionRequired => "region is required for Kinesis worker config"
    case NilClient => "kinesis client is nil"
    case EmptyDescription => "empty stream description"
    case Describe(cause) => cause.message
  }

  const SharedMode := "shared"

  /** `config.NewKinesisClientLibConfig`: the library's default credentials. */
  function NewKinesisClientLibConfig(applicationName: string, streamName: string, regionName: string, workerID: string): KclConfig
  {
    KclConfig(applicationName, streamName, regionName, workerID, None, None)
  }

  /** `config.NewKinesisClientLibConfigWithCredentials`. */
  function NewKinesisClientLibConfigWithCredentials(
    applicationName: string, streamName: string, regionName: string, workerID: string,
    kinesisCreds: Credentials, dynamoDBCreds: Credentials): KclConfig
  {
    KclConfig(applicationName, streamName, regionName, workerID, Some(kinesisCreds), Some(dynamoDBCreds))
  }

  /**
   * `NewKinesisWorkerConfig`: only the shared consumer mode is supported, and it is checked
   * before the region; a configuration names the consumer as application and worker, the
   * stream, the region, and carries the AWS credentials as they are.
   */
  function NewKinesisWorkerConfig(cfg: AwsConfig, stream: string, consumer: string, mode: string): (r: Result<KclConfig, KinesisError>)
    ensures mode != SharedMode ==> r == Err(UnsupportedMode(mode))
    ensures mode == SharedMode && cfg.region == "" ==> r == Err(RegionRequired)
    ensures r.Ok? <==> mode == SharedMode && cfg.region != ""
    ensures r.Ok? ==>
      && r.value.streamName == stream
      && r.value.applicationName == consumer
      && r.value.workerID == consumer
      && r.value.regionName == cfg.region
      && r.value.kinesisCredentials == cfg.credentials
      && r.value.dynamoDBCredentials == cfg.credentials
  {
    if mode != SharedMode then
      Err(UnsupportedMode(mode))
    else if cfg.region == "" then
      Err(RegionRequired)
    else if cfg.credentials.Some? then
      Ok(NewKinesisClientLibConfigWithCredentials(consumer, stream, cfg.region, consumer, cfg.credentials.value, cfg.credentials.value))
    else
      Ok(NewKinesisClientLibConfig(consumer, stream, cfg.region, consumer))
  }

  /** The unsupported-mode error names the mode it refused. */
  lemma UnsupportedModeMessage(cfg: AwsConfig, stream: string, consumer: string, mode: string)
    requires mode != SharedMode
    ensures var r := NewKinesisWorkerConfig(cfg, stream, consumer, mode);
      r.Err? && Message(r.error) == "unsupported consumer mode \"" + mode + "\""
  {
  }

  datatype StreamDescription = StreamDescription(streamARN: Option<string>)

  /** The `DescribeStream` response; its `StreamDescription` pointer may be nil. */
  datatype DescribeStreamOutput = DescribeStreamOutput(streamDescription: Option<StreamDescription>)

  /** A `*kinesis.Client`: what `DescribeStream` answers for each stream name. */
  datatype KinesisClient = KinesisClient(describeStream: string -> Result<DescribeStreamOutput, ApiError>)

  /**
   * `StreamARN`: a nil client is refused before anything is asked; an error of the
   * service comes back as it is; a missing description is an error; otherwise the
   * description's ARN, which may itself be nil. Every error comes with a nil ARN.
   */
  function StreamARN(client: Option<KinesisClient>, streamName: string): (r: Result<Option<string>, KinesisError>)
    ensures client.None? <==> r == Err(NilClient)
    ensures r.Ok? <==>
      && client.Some?
      && client.value.describeStream(streamName).Ok?
      && client.value.describeStream(streamName).value.streamDescription.Some?
    ensures r.Ok? ==> r.value == client.value.describeStream(streamName).value.streamDescription.value.streamARN
    ensures r.Err? && r.error.Describe? <==> client.Some? && client.value.describeStream(streamName).Err?
    ensures r.Err? && r.error.Describe? ==> r.error.cause == client.value.describeStream(streamName).error
    ensures r == Err(EmptyDescription) <==>
      && client.Some?
      && client.value.describeStream(streamName).Ok?
      && client.value.describeStream(streamName).value.streamDescription.None?
  {
    if client.None? then
      Err(NilClient)
    else
      match client.value.describeStream(streamName)
      case Err(e) => Err(Describe(e))
      case Ok(resp) =>
        if resp.streamDescription.None? then
          Err(EmptyDescription)
        else
          Ok(resp.streamDescription.value.streamARN)
  }
}
