/** The messages that driver and runner exchange. */
module Protocol {
  import opened Common

  datatype RequestedJob = RequestedJob(commit: string, remoteUrl: string, buildToken: nat)

  datatype CommandInfo =
    | CommandStarted(command: seq<string>, cwd: Option<string>, id: nat)
    | CommandFinished(exitCode: Option<int>, id: nat)

  datatype TaskInfo =
    | TaskFinished(status: string)
    | TaskInterrupted(status: string, description: Option<string>)

  /** The twelve fields by which a host is known; free memory is not among them. */
  datatype HostInfo = HostInfo(
    hostname: string,
    vendorId: string,
    modelName: string,
    family: string,
    model: string,
    microcode: string,
    maxFreq: nat,
    cores: nat,
    memTotal: string,
    arch: string,
    osFamily: string,
    os: string)

  datatype ClientProto =
    | Started
    | ArtifactCreate
    | NewTask(task: RequestedJob)
    | NewTaskPlease(allowedPushers: Option<seq<string>>, hostInfo: HostInfo)
    | Metric(name: string, value: string)
    | Command(commandInfo: CommandInfo)
    | TaskStatus(taskInfo: TaskInfo)
    | Ping
    | Pong
}
